/** js/ai-recommend.js: the client-side keyword recommender (`localRecommend`)
    and the choice between the remote answer and the local fallback
    (`callGeminiAPI`, `submitAIQuery`, `renderRecommendations`). */
module AiRecommend {
  import opened Wrappers
  import opened Text
  import opened Catalog
  import opened Ranking

  /** An ordered keyword table: `Object.entries` of a literal object. */
  type Table = seq<(string, seq<string>)>

  /** `KEYWORD_MAP`: category key to its keywords, in declaration order. */
  const KeywordMap: Table := [
    ("youtube", ["youtube", "動画", "ユーチューブ", "投稿", "チャンネル", "ショート", "切り抜き", "音楽", "台本", "撮影", "編集"]),
    ("ec", ["ec", "物販", "出品", "商品", "在庫", "ebay", "楽天", "amazon", "etsy", "suzuri", "printify", "ステッカー", "検品", "仕入", "転売", "せどり"]),
    ("sns", ["sns", "threads", "line", "instagram", "投稿", "予約", "メッセージ", "通知"]),
    ("shift", ["シフト", "勤怠", "出退勤", "スタッフ", "オペレーター", "夜勤", "超勤", "勤務"]),
    ("document", ["帳票", "書類", "pdf", "カレンダー", "日報", "伝票", "版数", "棚割", "画像挿入", "請求書", "納品書", "見積"]),
    ("accounting", ["経理", "給与", "税", "買掛", "支給", "控除", "集計", "精算", "売上", "経費"]),
    ("education", ["学校", "成績", "座席", "時間割", "生徒", "児童", "教育", "賞状", "名簿", "先生", "授業"]),
    ("realestate", ["不動産", "物件", "地主", "借地", "賃貸", "管理", "契約"]),
    ("email", ["メール", "gmail", "outlook", "送信", "一括", "転記", "問い合わせ"]),
    ("data", ["分析", "データ", "グラフ", "パレート", "統計", "レポート", "seo", "順位", "可視化"])
  ]

  /** `TECH_KEYWORDS`: technology to its keywords, in declaration order. */
  const TechKeywords: Table := [
    ("excel", ["excel", "エクセル", "vba", "マクロ", "関数", "スプレッドシート"]),
    ("python", ["python", "パイソン", "自動化", "api", "スクレイピング", "bot"])
  ]

  predicate DistinctKeys(t: Table) {
    forall i, j :: 0 <= i < j < |t| ==> t[i].0 != t[j].0
  }

  // ---------------------------------------------------------------------
  // Category scores (js/ai-recommend.js:37-44)
  // ---------------------------------------------------------------------

  /** How many entries of `kws` occur in `q`. */
  function KeywordHits(q: string, kws: seq<string>): nat
    decreases |kws|
  {
    if kws == [] then 0
    else KeywordHits(q, kws[..|kws| - 1]) + (if Contains(q, kws[|kws| - 1]) then 1 else 0)
  }

  /** The positions in `kws` of the keywords that occur in `q`. */
  function HitPositions(q: string, kws: seq<string>): set<int> {
    set k | 0 <= k < |kws| && Contains(q, kws[k])
  }

  /** The counter the loop keeps is the number of keywords that hit. */
  lemma {:induction false} KeywordHitsCount(q: string, kws: seq<string>)
    ensures KeywordHits(q, kws) == |HitPositions(q, kws)|
    decreases |kws|
  {
    if kws != [] {
      var n := |kws| - 1;
      var front := kws[..n];
      KeywordHitsCount(q, front);
      var prev := HitPositions(q, front);
      assert forall k :: 0 <= k < n ==> front[k] == kws[k];
      if Contains(q, kws[n]) {
        assert HitPositions(q, kws) == prev + {n};
        assert n !in prev;
      } else {
        assert HitPositions(q, kws) == prev;
      }
    }
  }

  /** The `scores` object after the loop over the first entries of a table. */
  function ScoresOver(q: string, t: Table): map<string, int>
    decreases |t|
  {
    if t == [] then map[]
    else ScoresOver(q, t[..|t| - 1])[t[|t| - 1].0 := 10 * KeywordHits(q, t[|t| - 1].1)]
  }

  /** Every category of the table is scored, and nothing else; no score is negative. */
  lemma {:induction false} ScoresOverDomain(q: string, t: Table)
    ensures forall c :: c in ScoresOver(q, t) <==> exists i :: 0 <= i < |t| && t[i].0 == c
    ensures forall c :: c in ScoresOver(q, t) ==> ScoresOver(q, t)[c] >= 0
    decreases |t|
  {
    if t != [] {
      var n := |t| - 1;
      ScoresOverDomain(q, t[..n]);
      assert forall i :: 0 <= i < n ==> t[..n][i] == t[i];
    }
  }

  /** Each category's score is ten times the number of its keywords found in the
      query, whatever other categories share those keywords. */
  lemma {:induction false} ScoresOverAt(q: string, t: Table, i: nat)
    requires DistinctKeys(t) && i < |t|
    ensures t[i].0 in ScoresOver(q, t)
    ensures ScoresOver(q, t)[t[i].0] == 10 * |HitPositions(q, t[i].1)|
    decreases |t|
  {
    var n := |t| - 1;
    KeywordHitsCount(q, t[i].1);
    if i < n {
      assert DistinctKeys(t[..n]) by {
        forall a, b | 0 <= a < b < n ensures t[..n][a].0 != t[..n][b].0 {
          assert t[..n][a] == t[a] && t[..n][b] == t[b];
        }
      }
      ScoresOverAt(q, t[..n], i);
      assert t[..n][i] == t[i];
    }
  }

  lemma SubsetCardinality(a: set<int>, b: set<int>)
    requires a <= b
    ensures |a| <= |b|
  {
    assert b == a + (b - a);
    assert a * (b - a) == {};
  }

  /** Keywords of one category found in the query each add ten to its score. */
  lemma ScoreAtLeast(q: string, t: Table, i: nat, found: set<int>)
    requires DistinctKeys(t) && i < |t|
    requires forall k :: k in found ==> 0 <= k < |t[i].1| && Contains(q, t[i].1[k])
    ensures t[i].0 in ScoresOver(q, t)
    ensures ScoresOver(q, t)[t[i].0] >= 10 * |found|
  {
    ScoresOverAt(q, t, i);
    SubsetCardinality(found, HitPositions(q, t[i].1));
  }

  /** A category none of whose keywords outside `found` occurs scores at
      most 10 for each entry of `found`. */
  lemma ScoreAtMost(q: string, t: Table, i: nat, found: set<int>)
    requires DistinctKeys(t) && i < |t|
    requires forall k :: 0 <= k < |t[i].1| && k !in found ==> !Contains(q, t[i].1[k])
    ensures t[i].0 in ScoresOver(q, t)
    ensures ScoresOver(q, t)[t[i].0] <= 10 * |found|
  {
    ScoresOverAt(q, t, i);
    var hits := HitPositions(q, t[i].1);
    assert hits <= found;
    SubsetCardinality(hits, found);
  }

  lemma KeywordMapDistinct()
    ensures DistinctKeys(KeywordMap)
  {
  }

  /** The loop at js/ai-recommend.js:37-44: one pass per category, +10 per keyword found. */
  method CategoryScores(ql: string, table: Table) returns (scores: map<string, int>)
    ensures scores == ScoresOver(ql, table)
  {
    scores := map[];
    var i := 0;
    while i < |table|
      invariant 0 <= i <= |table|
      invariant scores == ScoresOver(ql, table[..i])
    {
      var category := table[i].0;
      var keywords := table[i].1;
      scores := scores[category := 0];
      var j := 0;
      while j < |keywords|
        invariant 0 <= j <= |keywords|
        invariant scores == ScoresOver(ql, table[..i])[category := 10 * KeywordHits(ql, keywords[..j])]
      {
        if Contains(ql, keywords[j]) {
          scores := scores[category := scores[category] + 10];
        }
        assert keywords[..j + 1][..j] == keywords[..j];
        j := j + 1;
      }
      assert keywords[..|keywords|] == keywords;
      assert table[..i + 1][..i] == table[..i];
      i := i + 1;
    }
    assert table[..|table|] == table;
  }

  // ---------------------------------------------------------------------
  // Technology preference (js/ai-recommend.js:47-55)
  // ---------------------------------------------------------------------

  predicate AnyHit(q: string, kws: seq<string>) {
    exists k :: 0 <= k < |kws| && Contains(q, kws[k])
  }

  /** `techPreference` after the loop over a table. The `break` leaves only the
      keyword loop, so a later technology with a hit overwrites an earlier one. */
  function PreferenceOver(q: string, t: Table): Option<string>
    decreases |t|
  {
    if t == [] then None
    else if AnyHit(q, t[|t| - 1].1) then Some(t[|t| - 1].0)
    else PreferenceOver(q, t[..|t| - 1])
  }

  /** The preference is unset exactly when no technology has a hit; when set it
      is a technology with a hit and no later technology has one. */
  lemma {:induction false} PreferenceIsLastHit(q: string, t: Table)
    ensures PreferenceOver(q, t).None? <==> forall i :: 0 <= i < |t| ==> !AnyHit(q, t[i].1)
    ensures PreferenceOver(q, t).Some? ==>
      exists i :: 0 <= i < |t| && t[i].0 == PreferenceOver(q, t).value && AnyHit(q, t[i].1)
        && forall j :: i < j < |t| ==> !AnyHit(q, t[j].1)
    decreases |t|
  {
    if t != [] {
      var n := |t| - 1;
      PreferenceIsLastHit(q, t[..n]);
      assert forall i :: 0 <= i < n ==> t[..n][i] == t[i];
      if !AnyHit(q, t[n].1) && PreferenceOver(q, t[..n]).Some? {
        var i :| 0 <= i < n && t[..n][i].0 == PreferenceOver(q, t[..n]).value && AnyHit(q, t[..n][i].1)
          && forall j :: i < j < n ==> !AnyHit(q, t[..n][j].1);
        assert forall j :: i < j < |t| ==> !AnyHit(q, t[j].1) by {
          forall j | i < j < |t| ensures !AnyHit(q, t[j].1) {
            if j < n { assert t[..n][j] == t[j]; }
          }
        }
      }
    }
  }

  /** Conversely, the last technology with a hit is the preference. */
  lemma {:induction false} PreferenceOfLastHit(q: string, t: Table, i: nat)
    requires i < |t| && AnyHit(q, t[i].1)
    requires forall j :: i < j < |t| ==> !AnyHit(q, t[j].1)
    ensures PreferenceOver(q, t) == Some(t[i].0)
    decreases |t|
  {
    var n := |t| - 1;
    if i < n {
      assert t[..n][i] == t[i];
      forall j | i < j < n ensures !AnyHit(q, t[..n][j].1) {
        assert t[..n][j] == t[j];
      }
      PreferenceOfLastHit(q, t[..n], i);
    }
  }

  /** With the shipped table, any python keyword gives "python", even when an
      excel keyword is present too; otherwise any excel keyword gives "excel". */
  lemma PythonOverridesExcel(ql: string)
    ensures AnyHit(ql, TechKeywords[1].1) ==> PreferenceOver(ql, TechKeywords) == Some("python")
    ensures !AnyHit(ql, TechKeywords[1].1) && AnyHit(ql, TechKeywords[0].1) ==>
              PreferenceOver(ql, TechKeywords) == Some("excel")
    ensures !AnyHit(ql, TechKeywords[1].1) && !AnyHit(ql, TechKeywords[0].1) ==>
              PreferenceOver(ql, TechKeywords) == None
  {
    assert TechKeywords[..1] == [TechKeywords[0]];
    assert TechKeywords[..1][..0] == [];
  }

  /** The loop at js/ai-recommend.js:47-55, `break` included. */
  method TechPreference(ql: string) returns (pref: Option<string>)
    ensures pref == PreferenceOver(ql, TechKeywords)
  {
    pref := None;
    var i := 0;
    while i < |TechKeywords|
      invariant 0 <= i <= |TechKeywords|
      invariant pref == PreferenceOver(ql, TechKeywords[..i])
    {
      var tech := TechKeywords[i].0;
      var keywords := TechKeywords[i].1;
      var j := 0;
      while j < |keywords|
        invariant 0 <= j <= |keywords|
        invariant pref == PreferenceOver(ql, TechKeywords[..i])
        invariant forall k :: 0 <= k < j ==> !Contains(ql, keywords[k])
      {
        if Contains(ql, keywords[j]) {
          pref := Some(tech);
          break;
        }
        j := j + 1;
      }
      assert TechKeywords[..i + 1][..i] == TechKeywords[..i];
      assert TechKeywords[..i + 1][i] == TechKeywords[i];
      i := i + 1;
    }
    assert TechKeywords[..|TechKeywords|] == TechKeywords;
  }

  /** `(techPreference === "excel" && type === "excel") || (… "python" …)`: +8. */
  function TechBonus(pref: Option<string>, kind: string): int {
    if (pref == Some("excel") && kind == "excel") || (pref == Some("python") && kind == "python") then 8 else 0
  }

  /** For any preference the shipped table can produce, the +8 goes exactly to
      projects whose type equals the preference. */
  lemma TechBonusIffPreferred(ql: string, kind: string)
    ensures TechBonus(PreferenceOver(ql, TechKeywords), kind) == 8 <==> PreferenceOver(ql, TechKeywords) == Some(kind)
    ensures TechBonus(PreferenceOver(ql, TechKeywords), kind) != 8 ==> TechBonus(PreferenceOver(ql, TechKeywords), kind) == 0
  {
    PythonOverridesExcel(ql);
  }

  // ---------------------------------------------------------------------
  // Query words (js/ai-recommend.js:67)
  // ---------------------------------------------------------------------

  /** The characters of the class `[\s、,。.]`. */
  predicate IsWordSeparator(c: char) {
    IsSpace(c) || c == '、' || c == ',' || c == '。' || c == '.'
  }

  predicate NoSeparator(w: string) {
    forall k :: 0 <= k < |w| ==> !IsWordSeparator(w[k])
  }

  /** Length of the longest separator-free prefix. */
  function RunLength(s: string): (n: nat)
    ensures n <= |s|
    ensures forall k :: 0 <= k < n ==> !IsWordSeparator(s[k])
    ensures n < |s| ==> IsWordSeparator(s[n])
    decreases |s|
  {
    if s == [] || IsWordSeparator(s[0]) then 0 else 1 + RunLength(s[1..])
  }

  /** The non-empty pieces of `s.split(/[\s、,。.]+/)`, in order; the empty
      pieces that `split` also yields are dropped by the length filter anyway. */
  function Runs(s: string): seq<string>
    decreases |s|
  {
    if s == [] then []
    else if IsWordSeparator(s[0]) then Runs(s[1..])
    else
      var n := RunLength(s);
      [s[..n]] + Runs(s[n..])
  }

  /** `.filter((w) => w.length > 1)`. */
  function LongWords(ws: seq<string>): seq<string>
    decreases |ws|
  {
    if ws == [] then []
    else if |ws[0]| > 1 then [ws[0]] + LongWords(ws[1..])
    else LongWords(ws[1..])
  }

  /** The words of the query that are matched against project texts. */
  function Words(ql: string): seq<string> {
    LongWords(Runs(ql))
  }

  lemma ContainsInSuffix(s: string, n: nat, w: string)
    requires n <= |s| && Contains(s[n..], w)
    ensures Contains(s, w)
  {
    ContainsIff(s[n..], w);
    var i :| OccursAt(s[n..], w, i);
    assert s[n..][i..i + |w|] == s[n + i..n + i + |w|];
    assert OccursAt(s, w, n + i);
    ContainsIff(s, w);
  }

  lemma {:induction false} RunsArePieces(s: string)
    ensures forall w :: w in Runs(s) ==> w != [] && NoSeparator(w) && Contains(s, w)
    decreases |s|
  {
    if s != [] {
      if IsWordSeparator(s[0]) {
        RunsArePieces(s[1..]);
        forall w | w in Runs(s[1..]) ensures Contains(s, w) {
          ContainsInSuffix(s, 1, w);
        }
      } else {
        var n := RunLength(s);
        RunsArePieces(s[n..]);
        ContainsSlice(s, 0, n);
        forall w | w in Runs(s[n..]) ensures Contains(s, w) {
          ContainsInSuffix(s, n, w);
        }
      }
    }
  }

  /** A separator ends the run in front of it. */
  lemma RunLengthBeforeSeparator(a: string, c: char, b: string)
    requires IsWordSeparator(c)
    ensures RunLength(a + [c] + b) == RunLength(a)
  {
    var s := a + [c] + b;
    var n := RunLength(s);
    var m := RunLength(a);
    assert forall k :: 0 <= k < |a| ==> s[k] == a[k];
    assert s[|a|] == c;
  }

  /** The split cuts at every separator: splitting around one separator is
      splitting either side of it, with the pieces kept in order. */
  lemma {:induction false} RunsSplit(a: string, c: char, b: string)
    requires IsWordSeparator(c)
    ensures Runs(a + [c] + b) == Runs(a) + Runs(b)
    decreases |a|
  {
    var s := a + [c] + b;
    if a == [] {
      assert s == [c] + b;
      assert s[1..] == b;
    } else if IsWordSeparator(a[0]) {
      assert s[0] == a[0];
      assert s[1..] == a[1..] + [c] + b;
      RunsSplit(a[1..], c, b);
      assert Runs(s) == Runs(s[1..]);
      assert Runs(a) == Runs(a[1..]);
    } else {
      assert s[0] == a[0];
      RunLengthBeforeSeparator(a, c, b);
      var m := RunLength(a);
      assert s[..m] == a[..m];
      assert s[m..] == a[m..] + [c] + b;
      RunsSplit(a[m..], c, b);
      assert Runs(s) == [a[..m]] + Runs(s[m..]);
      assert Runs(a) == [a[..m]] + Runs(a[m..]);
    }
  }

  /** A non-empty separator-free piece is split into itself alone. */
  lemma RunsOfRun(w: string)
    requires w != [] && NoSeparator(w)
    ensures Runs(w) == [w]
  {
    assert RunLength(w) == |w|;
    assert w[..|w|] == w;
    assert w[|w|..] == [];
  }

  /** A stretch of separators yields no piece. */
  lemma {:induction false} RunsOfSeparators(s: string)
    requires forall k :: 0 <= k < |s| ==> IsWordSeparator(s[k])
    ensures Runs(s) == []
    decreases |s|
  {
    if s != [] {
      RunsOfSeparators(s[1..]);
    }
  }

  lemma SplitAround(s: string, k: nat)
    requires k < |s|
    ensures s == s[..k] + [s[k]] + s[k + 1..]
  {
    assert s[..k] + [s[k]] == s[..k + 1];
  }

  /** A separator-free head ended by a separator or the end is the first piece. */
  lemma RunsLeading(t: string, j: nat)
    requires 0 < j <= |t| && NoSeparator(t[..j])
    requires j == |t| || IsWordSeparator(t[j])
    ensures t[..j] in Runs(t)
  {
    var w := t[..j];
    RunsOfRun(w);
    if j < |t| {
      SplitAround(t, j);
      RunsSplit(w, t[j], t[j + 1..]);
    } else {
      assert t == w;
    }
  }

  /** The pieces after a separator are the last pieces of the whole query. */
  lemma RunsAfterSeparator(s: string, i: nat)
    requires 0 < i <= |s| && IsWordSeparator(s[i - 1])
    ensures Runs(s) == Runs(s[..i - 1]) + Runs(s[i..])
  {
    SplitAround(s, i - 1);
    RunsSplit(s[..i - 1], s[i - 1], s[i..]);
  }

  /** Every maximal separator-free stretch of the query is one of its pieces. */
  lemma RunsComplete(s: string, i: nat, j: nat)
    requires i < j <= |s| && NoSeparator(s[i..j])
    requires i == 0 || IsWordSeparator(s[i - 1])
    requires j == |s| || IsWordSeparator(s[j])
    ensures s[i..j] in Runs(s)
  {
    var rest := s[i..];
    assert rest[..j - i] == s[i..j];
    RunsLeading(rest, j - i);
    if i > 0 {
      RunsAfterSeparator(s, i);
    } else {
      assert s == rest;
    }
  }

  lemma {:induction false} LongWordsSub(ws: seq<string>)
    ensures forall w :: w in LongWords(ws) <==> w in ws && |w| > 1
    decreases |ws|
  {
    if ws != [] {
      LongWordsSub(ws[1..]);
      assert forall w :: w in ws <==> w == ws[0] || w in ws[1..];
    }
  }

  /** The length filter keeps order and repeats: it works piece by piece. */
  lemma {:induction false} LongWordsAppend(a: seq<string>, b: seq<string>)
    ensures LongWords(a + b) == LongWords(a) + LongWords(b)
    decreases |a|
  {
    if a != [] {
      assert (a + b)[0] == a[0];
      assert (a + b)[1..] == a[1..] + b;
      LongWordsAppend(a[1..], b);
    } else {
      assert a + b == b;
    }
  }

  lemma LongWordsSingle(w: string)
    ensures LongWords([w]) == if |w| > 1 then [w] else []
  {
    assert [w][1..] == [];
  }

  /** The words on either side of a separator, in order, repeats kept. */
  lemma WordsSplit(a: string, c: char, b: string)
    requires IsWordSeparator(c)
    ensures Words(a + [c] + b) == Words(a) + Words(b)
  {
    RunsSplit(a, c, b);
    LongWordsAppend(Runs(a), Runs(b));
  }

  /** Every query word is longer than one character, free of separators, and a
      piece of the query. */
  lemma WordsArePieces(ql: string)
    ensures forall w :: w in Words(ql) ==> |w| > 1 && NoSeparator(w) && Contains(ql, w)
  {
    RunsArePieces(ql);
    LongWordsSub(Runs(ql));
  }

  /** A query of two or more characters without separators is one word. */
  lemma SingleWord(ql: string)
    requires |ql| > 1 && NoSeparator(ql)
    ensures Words(ql) == [ql]
  {
    RunsOfRun(ql);
    assert [ql][1..] == [];
    assert LongWords([ql]) == [ql] + LongWords([]);
  }

  /** How many entries of `words` occur in `text`, each occurrence of a
      repeated word counted again. */
  function WordHits(words: seq<string>, text: string): nat
    decreases |words|
  {
    if words == [] then 0
    else WordHits(words[..|words| - 1], text) + (if Contains(text, words[|words| - 1]) then 1 else 0)
  }

  /** Hits add up over concatenated word lists. */
  lemma {:induction false} WordHitsAppend(a: seq<string>, b: seq<string>, text: string)
    ensures WordHits(a + b, text) == WordHits(a, text) + WordHits(b, text)
    decreases |b|
  {
    if b == [] {
      assert a + b == a;
    } else {
      var n := |b| - 1;
      assert (a + b)[..|a + b| - 1] == a + b[..n];
      assert (a + b)[|a + b| - 1] == b[n];
      WordHitsAppend(a, b[..n], text);
    }
  }

  // ---------------------------------------------------------------------
  // Project scores (js/ai-recommend.js:58-76)
  // ---------------------------------------------------------------------

  /** `${title} ${summary} ${tags.join(" ")}`, lowercased. */
  function ProjectText(p: Project): string {
    Lower(p.title + " " + p.summary + " " + Join(p.tags, " "))
  }

  /** `scores[category] || 0`. */
  function ScoreOf(scores: map<string, int>, category: string): int {
    if category in scores then scores[category] else 0
  }

  function FeaturedBonus(p: Project): int {
    if p.featured then 2 else 0
  }

  /** The score the callback at js/ai-recommend.js:58-76 gives one project. */
  function ProjectScore(scores: map<string, int>, pref: Option<string>, words: seq<string>, p: Project): int {
    ScoreOf(scores, p.category) + TechBonus(pref, p.kind) + 5 * WordHits(words, ProjectText(p)) + FeaturedBonus(p)
  }

  /** Each further query word found in the project's text adds 5 to its score. */
  lemma MoreWordsScore(scores: map<string, int>, pref: Option<string>, words: seq<string>,
                       more: seq<string>, p: Project)
    ensures ProjectScore(scores, pref, words + more, p)
      == ProjectScore(scores, pref, words, p) + 5 * WordHits(more, ProjectText(p))
  {
    WordHitsAppend(words, more, ProjectText(p));
  }

  /** A word typed twice, around a separator, is two query words and scores
      5 twice for a project whose text contains it. */
  lemma RepeatedWordCountsTwice(w: string, c: char, scores: map<string, int>, pref: Option<string>, p: Project)
    requires |w| > 1 && NoSeparator(w) && IsWordSeparator(c)
    requires Contains(ProjectText(p), w)
    ensures Words(w + [c] + w) == [w, w]
    ensures ProjectScore(scores, pref, Words(w + [c] + w), p) == ProjectScore(scores, pref, [], p) + 10
  {
    WordsSplit(w, c, w);
    SingleWord(w);
    assert Words(w + [c] + w) == [w] + [w];
    MoreWordsScore(scores, pref, [], [w, w], p);
    assert [w, w][..1] == [w];
    assert [w][..0] == [];
  }

  /** The callback's body: start from the category score, add the bonuses one by one. */
  method ScoreProject(scores: map<string, int>, pref: Option<string>, words: seq<string>, p: Project)
    returns (score: int)
    ensures score == ProjectScore(scores, pref, words, p)
  {
    score := if p.category in scores then scores[p.category] else 0;
    var text := ProjectText(p);
    if pref == Some("excel") && p.kind == "excel" { score := score + 8; }
    if pref == Some("python") && p.kind == "python" { score := score + 8; }
    var base := score;
    var j := 0;
    while j < |words|
      invariant 0 <= j <= |words|
      invariant score == base + 5 * WordHits(words[..j], text)
    {
      if Contains(text, words[j]) { score := score + 5; }
      assert words[..j + 1][..j] == words[..j];
      j := j + 1;
    }
    assert words[..|words|] == words;
    if p.featured { score := score + 2; }
  }

  /** `projectScores`: every catalog project with its position and score. */
  function ScoredCatalog(query: string, catalog: seq<Project>): (r: seq<Scored>)
    ensures |r| == |catalog|
    ensures forall i :: 0 <= i < |r| ==> r[i].index == i && r[i].project == catalog[i]
    ensures IndicesIncreasing(r)
  {
    var ql := Lower(query);
    var scores := ScoresOver(ql, KeywordMap);
    var pref := PreferenceOver(ql, TechKeywords);
    var words := Words(ql);
    seq(|catalog|, i requires 0 <= i < |catalog| => Scored(i, catalog[i], ProjectScore(scores, pref, words, catalog[i])))
  }

  /** No part of a score is negative, and a featured project scores at least 2. */
  lemma ScoreLowerBound(query: string, catalog: seq<Project>, i: nat)
    requires i < |catalog|
    ensures ScoredCatalog(query, catalog)[i].score >= (if catalog[i].featured then 2 else 0)
  {
    ScoresOverDomain(Lower(query), KeywordMap);
  }

  /** Whenever the query contains a keyword of category K, every project of
      category K scores at least 10 before any bonus. */
  lemma CategoryKeywordFloor(query: string, catalog: seq<Project>, i: nat, c: nat, k: nat)
    requires i < |catalog| && c < |KeywordMap| && k < |KeywordMap[c].1|
    requires catalog[i].category == KeywordMap[c].0
    requires Contains(Lower(query), KeywordMap[c].1[k])
    ensures ScoredCatalog(query, catalog)[i].score >= 10
  {
    var ql := Lower(query);
    KeywordMapDistinct();
    ScoresOverAt(ql, KeywordMap, c);
    assert k in HitPositions(ql, KeywordMap[c].1);
  }

  // ---------------------------------------------------------------------
  // Result records (js/ai-recommend.js:79-88)
  // ---------------------------------------------------------------------

  datatype Recommendation = Recommendation(id: string, title: string, reason: string, matchScore: int)

  /** The fixed reason template around the project's summary. */
  function Reason(summary: string): string {
    "「" + summary + "」が、お探しの内容に近いと思われます。"
  }

  /** `Math.min(Math.round((score / 20) * 100), 98)` for an integral score. */
  function MatchScore(score: int): int {
    if 5 * score < 98 then 5 * score else 98
  }

  function ToRecommendation(x: Scored): Recommendation {
    Recommendation(x.project.id, x.project.title, Reason(x.project.summary), MatchScore(x.score))
  }

  /** The ranked entries behind `localRecommend(query)`. */
  function RankedFor(query: string, catalog: seq<Project>): seq<Scored> {
    Ranked(ScoredCatalog(query, catalog))
  }

  /** The value of `localRecommend(query)`. */
  function Recommendations(query: string, catalog: seq<Project>): seq<Recommendation> {
    var r := RankedFor(query, catalog);
    seq(|r|, k requires 0 <= k < |r| => ToRecommendation(r[k]))
  }

  /** `localRecommend`: the loops fill the category scores, the preference and
      the per-project scores; the pipeline ranks them. */
  method LocalRecommend(query: string, catalog: seq<Project>) returns (recs: seq<Recommendation>)
    ensures recs == Recommendations(query, catalog)
  {
    var ql := Lower(query);
    var scores := CategoryScores(ql, KeywordMap);
    var pref := TechPreference(ql);
    var words := Words(ql);
    var projectScores: seq<Scored> := [];
    var i := 0;
    while i < |catalog|
      invariant 0 <= i <= |catalog|
      invariant projectScores == ScoredCatalog(query, catalog)[..i]
    {
      var score := ScoreProject(scores, pref, words, catalog[i]);
      projectScores := projectScores + [Scored(i, catalog[i], score)];
      i := i + 1;
    }
    assert projectScores == ScoredCatalog(query, catalog);
    var ranked := Ranked(projectScores);
    recs := seq(|ranked|, k requires 0 <= k < |ranked| => ToRecommendation(ranked[k]));
  }

  /** At most five results; each is built from one catalog project that scored
      above zero, and its match score is `min(5 * score, 98)`, inside (0, 98]. */
  lemma RecommendationsFromCatalog(query: string, catalog: seq<Project>)
    ensures |Recommendations(query, catalog)| == |RankedFor(query, catalog)| <= 5
    ensures forall k :: 0 <= k < |RankedFor(query, catalog)| ==>
      var x := RankedFor(query, catalog)[k];
      var rec := Recommendations(query, catalog)[k];
      && x.index < |catalog| && x.project == catalog[x.index]
      && x == ScoredCatalog(query, catalog)[x.index] && x.score > 0
      && rec.id == catalog[x.index].id && rec.title == catalog[x.index].title
      && rec.reason == Reason(catalog[x.index].summary)
      && rec.matchScore == MatchScore(x.score) && 0 < rec.matchScore <= 98
  {
    var s := ScoredCatalog(query, catalog);
    RankedProperties(s);
    forall k | 0 <= k < |RankedFor(query, catalog)|
      ensures RankedFor(query, catalog)[k] in s
    {
      assert RankedFor(query, catalog)[k] in Ranked(s);
    }
  }

  /** Best first: scores never increase along the results, and equal scores
      keep catalog order. */
  lemma RecommendationsOrdered(query: string, catalog: seq<Project>)
    ensures forall k, l :: 0 <= k < l < |RankedFor(query, catalog)| ==>
      RankedFor(query, catalog)[k].score >= RankedFor(query, catalog)[l].score
    ensures forall k, l ::
      (0 <= k < l < |RankedFor(query, catalog)| &&
       RankedFor(query, catalog)[k].score == RankedFor(query, catalog)[l].score) ==>
      RankedFor(query, catalog)[k].index < RankedFor(query, catalog)[l].index
  {
    RankedProperties(ScoredCatalog(query, catalog));
  }

  /** A project that scored but is not recommended was outranked by five
      recommendations. In particular a featured project is always a candidate:
      it is recommended unless five others score at least as high. */
  lemma OmittedMeansOutranked(query: string, catalog: seq<Project>, i: nat)
    requires i < |catalog|
    requires ScoredCatalog(query, catalog)[i].score > 0 || catalog[i].featured
    ensures ScoredCatalog(query, catalog)[i] in RankedFor(query, catalog) ||
      (|RankedFor(query, catalog)| == 5 &&
       forall y :: y in RankedFor(query, catalog) ==> y.score >= ScoredCatalog(query, catalog)[i].score)
  {
    var s := ScoredCatalog(query, catalog);
    ScoreLowerBound(query, catalog, i);
    if s[i] !in Ranked(s) {
      RankedIsTop(s, s[i]);
    }
  }

  // ---------------------------------------------------------------------
  // Remote or local (js/ai-recommend.js:94-114)
  // ---------------------------------------------------------------------

  /** The placeholder `callGeminiAPI` compares against, and `AI_API_URL` as shipped. */
  const PlaceholderUrl: string := "YOUR_CLOUDFLARE_WORKER_URL"
  const AiApiUrl: string := "YOUR_CLOUDFLARE_WORKER_URL"

  datatype Source = Gemini | Local

  /** What the call to the proxy produced: a failure (fetch threw, response not
      ok, body not JSON, or a body that parses to `null`, on which reading
      `data.recommendations` throws), or a parsed object whose
      `recommendations` property may be missing. */
  datatype RemoteOutcome = RemoteFailed | RemoteOk(recommendations: Option<seq<Recommendation>>)

  datatype QueryResult = QueryResult(source: Source, recommendations: Option<seq<Recommendation>>)

  /** `callGeminiAPI`: never fails; falls back to the local matcher when the
      proxy is not configured or the call fails, and otherwise passes the
      proxy's `recommendations` on unchecked. */
  function CallGeminiAPI(url: string, query: string, catalog: seq<Project>, remote: RemoteOutcome): (r: QueryResult)
    ensures r.source == Local <==> url == PlaceholderUrl || remote == RemoteFailed
    ensures r.source == Local ==> r.recommendations == Some(Recommendations(query, catalog))
    ensures r.source == Gemini ==> r.recommendations == remote.recommendations
  {
    if url == PlaceholderUrl then QueryResult(Local, Some(Recommendations(query, catalog)))
    else match remote
      case RemoteFailed => QueryResult(Local, Some(Recommendations(query, catalog)))
      case RemoteOk(recs) => QueryResult(Gemini, recs)
  }

  /** As shipped, `AI_API_URL` is the placeholder, so every answer is local. */
  lemma ShippedAlwaysLocal(query: string, catalog: seq<Project>, remote: RemoteOutcome)
    ensures CallGeminiAPI(AiApiUrl, query, catalog, remote) == QueryResult(Local, Some(Recommendations(query, catalog)))
  {
  }

  // ---------------------------------------------------------------------
  // Rendering decisions (js/ai-recommend.js:119-187) and the submit flow (201-247)
  // ---------------------------------------------------------------------

  /** One rendered card: the recommendation, the catalog project it names and
      that project's category metadata. */
  datatype Card = Card(rec: Recommendation, project: Project, category: CategoryInfo)

  /** What the results panel ends up showing. `announced` is
      `results.recommendations.length`, which counts dangling ids too. */
  datatype AiView =
    | NoQuery
    | NoMatch
    | Listed(fromGemini: bool, announced: nat, cards: seq<Card>)
    | ErrorMessage

  predicate Resolves(catalog: seq<Project>, rec: Recommendation) {
    Find(catalog, rec.id).Some?
  }

  /** The recommendations whose id names a catalog project, in order. */
  function Resolving(recs: seq<Recommendation>, catalog: seq<Project>): (r: seq<Recommendation>)
    ensures forall rec :: rec in r <==> rec in recs && Resolves(catalog, rec)
    ensures |r| <= |recs|
  {
    if recs == [] then []
    else if Resolves(catalog, recs[0]) then [recs[0]] + Resolving(recs[1..], catalog)
    else Resolving(recs[1..], catalog)
  }

  /** The `.map` at js/ai-recommend.js:139-170: a recommendation whose id is not
      in the catalog yields no card; None when a category lookup fails (the
      source then throws, and the caller shows its error message). */
  function RenderCards(recs: seq<Recommendation>, catalog: seq<Project>, categories: Categories): Option<seq<Card>>
    decreases |recs|
  {
    if recs == [] then Some([])
    else
      var rest := RenderCards(recs[1..], catalog, categories);
      match Find(catalog, recs[0].id)
      case None => rest
      case Some(p) =>
        match CategoryFor(categories, p.category)
        case None => None
        case Some(cat) =>
          if rest.None? then None
          else Some([Card(recs[0], p, cat)] + rest.value)
  }

  /** A recommendation whose project resolves but whose category does not. */
  predicate CategoryMissing(catalog: seq<Project>, categories: Categories, rec: Recommendation) {
    Resolves(catalog, rec) && CategoryFor(categories, Find(catalog, rec.id).value.category).None?
  }

  /** Rendering fails exactly when a resolving recommendation's category
      cannot be looked up. */
  lemma {:induction false} RenderCardsFails(recs: seq<Recommendation>, catalog: seq<Project>, categories: Categories)
    ensures RenderCards(recs, catalog, categories).None? <==>
      exists k :: 0 <= k < |recs| && CategoryMissing(catalog, categories, recs[k])
    decreases |recs|
  {
    if recs != [] {
      var tail := recs[1..];
      RenderCardsFails(tail, catalog, categories);
      assert forall k :: 1 <= k < |recs| ==> recs[k] == tail[k - 1];
      assert (exists k :: 0 <= k < |recs| && CategoryMissing(catalog, categories, recs[k])) <==>
        CategoryMissing(catalog, categories, recs[0]) ||
        exists k :: 0 <= k < |tail| && CategoryMissing(catalog, categories, tail[k]);
    }
  }

  /** Card k shows recommendation k together with the project its id finds
      and that project's category entry. */
  predicate CardsMatch(cards: seq<Card>, recs: seq<Recommendation>, catalog: seq<Project>, categories: Categories) {
    |cards| == |recs| &&
    forall k :: 0 <= k < |cards| ==>
      cards[k].rec == recs[k]
      && Find(catalog, cards[k].rec.id) == Some(cards[k].project)
      && CategoryFor(categories, cards[k].project.category) == Some(cards[k].category)
  }

  lemma CardsMatchCons(c: Card, cards: seq<Card>, rec: Recommendation, recs: seq<Recommendation>,
                       catalog: seq<Project>, categories: Categories)
    requires CardsMatch(cards, recs, catalog, categories)
    requires c.rec == rec && Find(catalog, rec.id) == Some(c.project)
    requires CategoryFor(categories, c.project.category) == Some(c.category)
    ensures CardsMatch([c] + cards, [rec] + recs, catalog, categories)
  {
    var cs := [c] + cards;
    var rs := [rec] + recs;
    forall k | 0 <= k < |cs|
      ensures cs[k].rec == rs[k]
      ensures Find(catalog, cs[k].rec.id) == Some(cs[k].project)
      ensures CategoryFor(categories, cs[k].project.category) == Some(cs[k].category)
    {
      if k > 0 {
        assert cs[k] == cards[k - 1] && rs[k] == recs[k - 1];
      }
    }
  }

  /** The cards are the resolving recommendations, in order, each with its
      project and category. */
  lemma {:induction false} RenderCardsSpec(recs: seq<Recommendation>, catalog: seq<Project>, categories: Categories)
    ensures var r := RenderCards(recs, catalog, categories);
      r.Some? ==> CardsMatch(r.value, Resolving(recs, catalog), catalog, categories)
    decreases |recs|
  {
    if recs != [] {
      var tail := recs[1..];
      RenderCardsSpec(tail, catalog, categories);
      var rest := RenderCards(tail, catalog, categories);
      match Find(catalog, recs[0].id)
      case None =>
        assert Resolving(recs, catalog) == Resolving(tail, catalog);
      case Some(p) =>
        assert Resolving(recs, catalog) == [recs[0]] + Resolving(tail, catalog);
        var r := RenderCards(recs, catalog, categories);
        if r.Some? {
          var cat := CategoryFor(categories, p.category).value;
          assert r.value == [Card(recs[0], p, cat)] + rest.value;
          CardsMatchCons(Card(recs[0], p, cat), rest.value, recs[0], Resolving(tail, catalog), catalog, categories);
        }
    }
  }

  /** `renderRecommendations`, with a thrown error reported as ErrorMessage:
      a missing list or a card that cannot be built; an empty list is the
      "no match" text; a listing announces the whole list's length and says
      whether Gemini answered. */
  function RenderRecommendations(results: QueryResult, catalog: seq<Project>, categories: Categories): (v: AiView)
    ensures v != NoQuery
    ensures v == NoMatch <==> results.recommendations == Some([])
    ensures results.recommendations.None? ==> v == ErrorMessage
    ensures v == ErrorMessage <==>
      || results.recommendations.None?
      || (results.recommendations.value != [] && RenderCards(results.recommendations.value, catalog, categories).None?)
    ensures v.Listed? ==>
      && results.recommendations.Some?
      && v.announced == |results.recommendations.value| > 0
      && v.fromGemini == (results.source == Gemini)
      && Some(v.cards) == RenderCards(results.recommendations.value, catalog, categories)
  {
    match results.recommendations
    case None => ErrorMessage
    case Some(recs) =>
      if |recs| == 0 then NoMatch
      else match RenderCards(recs, catalog, categories)
        case None => ErrorMessage
        case Some(cards) => Listed(results.source == Gemini, |recs|, cards)
  }

  /** `submitAIQuery`: an input that trims to nothing never reaches
      `callGeminiAPI`; anything else is answered and rendered. */
  function SubmitAIQuery(input: string, url: string, remote: RemoteOutcome,
                         catalog: seq<Project>, categories: Categories): (v: AiView)
    ensures v == NoQuery <==> AllSpace(input)
  {
    TrimEmptyIff(input);
    var query := Trim(input);
    if query == "" then NoQuery
    else RenderRecommendations(CallGeminiAPI(url, query, catalog, remote), catalog, categories)
  }

  /** Local answers only name catalog projects, so rendering them skips nothing. */
  lemma {:induction false} LocalResultsResolve(query: string, catalog: seq<Project>)
    ensures Resolving(Recommendations(query, catalog), catalog) == Recommendations(query, catalog)
  {
    var recs := Recommendations(query, catalog);
    RecommendationsFromCatalog(query, catalog);
    forall k | 0 <= k < |recs| ensures Resolves(catalog, recs[k]) {
      var x := RankedFor(query, catalog)[k];
      assert catalog[x.index].id == recs[k].id;
    }
    ResolvingAll(recs, catalog);
  }

  lemma {:induction false} ResolvingAll(recs: seq<Recommendation>, catalog: seq<Project>)
    requires forall k :: 0 <= k < |recs| ==> Resolves(catalog, recs[k])
    ensures Resolving(recs, catalog) == recs
    decreases |recs|
  {
    if recs != [] {
      var tail := recs[1..];
      assert forall k :: 0 <= k < |tail| ==> tail[k] == recs[k + 1];
      ResolvingAll(tail, catalog);
      assert Resolves(catalog, recs[0]);
      assert Resolving(recs, catalog) == [recs[0]] + tail;
      assert recs == [recs[0]] + tail;
    }
  }

  /** As shipped (placeholder URL) and with an "other" category to fall back
      on, a query is either ignored, answered with "no match", or rendered with
      one card per recommendation; the error message never appears. */
  lemma ShippedSubmitNeverFails(input: string, remote: RemoteOutcome, catalog: seq<Project>, categories: Categories)
    requires "other" in categories
    ensures SubmitAIQuery(input, AiApiUrl, remote, catalog, categories) != ErrorMessage
    ensures SubmitAIQuery(input, AiApiUrl, remote, catalog, categories).Listed? ==>
      var v := SubmitAIQuery(input, AiApiUrl, remote, catalog, categories);
      !v.fromGemini && |v.cards| == v.announced
  {
    var query := Trim(input);
    if query != "" {
      var recs := Recommendations(query, catalog);
      LocalResultsResolve(query, catalog);
      RenderCardsFails(recs, catalog, categories);
      RenderCardsSpec(recs, catalog, categories);
      assert !exists k :: 0 <= k < |recs| && CategoryMissing(catalog, categories, recs[k]);
      assert RenderCards(recs, catalog, categories).Some?;
    }
  }

  // ---------------------------------------------------------------------
  // A worked query
  // ---------------------------------------------------------------------

  const ExampleQuery: string := "YouTubeの動画編集を自動化したい"
  const ExampleQueryLower: string := "youtubeの動画編集を自動化したい"

  lemma ExampleLowered()
    ensures Lower(ExampleQuery) == ExampleQueryLower
  {
    assert |ExampleQuery| == |ExampleQueryLower| == 19;
    forall i | 0 <= i < 19 ensures Lower(ExampleQuery)[i] == ExampleQueryLower[i] {
      assert Lower(ExampleQuery)[i] == LowerChar(ExampleQuery[i]);
    }
  }

  lemma ExampleKeywords()
    ensures Contains(ExampleQueryLower, "youtube") && Contains(ExampleQueryLower, "動画")
    ensures Contains(ExampleQueryLower, "編集") && Contains(ExampleQueryLower, "自動化")
  {
    var ql := ExampleQueryLower;
    assert ql[0..7] == "youtube" && ql[8..10] == "動画" && ql[10..12] == "編集" && ql[13..16] == "自動化";
    ContainsSlice(ql, 0, 7);
    ContainsSlice(ql, 8, 10);
    ContainsSlice(ql, 10, 12);
    ContainsSlice(ql, 13, 16);
  }

  lemma ThreeIndices(a: int, b: int, c: int)
    requires a != b && b != c && a != c
    ensures |{a, b, c}| == 3
  {
  }

  /** "youtube", "動画" and "編集" are three distinct youtube keywords. */
  lemma YoutubeFloor(ql: string)
    requires Contains(ql, "youtube") && Contains(ql, "動画") && Contains(ql, "編集")
    ensures "youtube" in ScoresOver(ql, KeywordMap)
    ensures ScoresOver(ql, KeywordMap)["youtube"] >= 30
  {
    KeywordMapDistinct();
    var kws := KeywordMap[0].1;
    assert kws[0] == "youtube" && kws[1] == "動画" && kws[10] == "編集";
    ThreeIndices(0, 1, 10);
    ScoreAtLeast(ql, KeywordMap, 0, {0, 1, 10});
  }

  /** In the worked query none of the other eight youtube keywords occurs:
      its lower-cased form has none of their first characters. */
  lemma ExampleYoutubeOthers(ql: string)
    requires ql == ExampleQueryLower
    ensures forall k :: 2 <= k < 10 ==> !Contains(ql, KeywordMap[0].1[k])
  {
    var kws := KeywordMap[0].1;
    forall k | 2 <= k < 10 ensures !Contains(ql, kws[k]) {
      assert kws[k][0] in "ユ投チシ切音台撮";
      AbsentFirstChar(ql, kws[k]);
    }
  }

  /** Of eleven keywords, those outside positions 0, 1 and 10 are positions 2 to 9. */
  lemma OutsideFirstTwoAndLast(q: string, kws: seq<string>)
    requires |kws| == 11
    requires forall k :: 2 <= k < 10 ==> !Contains(q, kws[k])
    ensures forall k :: 0 <= k < |kws| && k !in {0, 1, 10} ==> !Contains(q, kws[k])
  {
  }

  /** A query hitting "youtube", "動画" and "編集" and none of the other
      youtube keywords gives that category exactly 30. */
  lemma YoutubeExactly(ql: string)
    requires Contains(ql, "youtube") && Contains(ql, "動画") && Contains(ql, "編集")
    requires forall k :: 2 <= k < 10 ==> !Contains(ql, KeywordMap[0].1[k])
    ensures "youtube" in ScoresOver(ql, KeywordMap)
    ensures ScoresOver(ql, KeywordMap)["youtube"] == 30
  {
    YoutubeFloor(ql);
    KeywordMapDistinct();
    ThreeIndices(0, 1, 10);
    assert |KeywordMap[0].1| == 11;
    OutsideFirstTwoAndLast(ql, KeywordMap[0].1);
    ScoreAtMost(ql, KeywordMap, 0, {0, 1, 10});
  }

  /** "自動化" is a python keyword, so it selects python whatever else is there. */
  lemma AutomationPrefersPython(ql: string)
    requires Contains(ql, "自動化")
    ensures PreferenceOver(ql, TechKeywords) == Some("python")
  {
    assert TechKeywords[1].1[2] == "自動化";
    PythonOverridesExcel(ql);
  }

  /** The query "YouTubeの動画編集を自動化したい" gives the youtube category
      exactly 30 (three keyword hits) and the preference python. */
  lemma ExampleQueryScores(query: string)
    requires query == ExampleQuery
    ensures "youtube" in ScoresOver(Lower(query), KeywordMap)
    ensures ScoresOver(Lower(query), KeywordMap)["youtube"] == 30
    ensures PreferenceOver(Lower(query), TechKeywords) == Some("python")
  {
    ExampleLowered();
    ExampleKeywords();
    var ql := Lower(query);
    assert ql == ExampleQueryLower;
    ExampleYoutubeOthers(ql);
    YoutubeExactly(ql);
    AutomationPrefersPython(ql);
  }
}
