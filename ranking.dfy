/** The tail of `localRecommend`: keep the projects that scored, sort them by
    score, best first, with a stable sort, and take the first five. */
module Ranking {
  import opened Catalog

  /** A catalog project with its position in the catalog and its score. */
  datatype Scored = Scored(index: nat, project: Project, score: int)

  /** The order the ranked list must follow: higher score first; on equal
      scores, earlier catalog position first. */
  predicate Before(a: Scored, b: Scored) {
    a.score > b.score || (a.score == b.score && a.index < b.index)
  }

  predicate SortedBefore(s: seq<Scored>) {
    forall i, j :: 0 <= i < j < |s| ==> Before(s[i], s[j])
  }

  predicate IndicesIncreasing(s: seq<Scored>) {
    forall i, j :: 0 <= i < j < |s| ==> s[i].index < s[j].index
  }

  /** `.filter((ps) => ps.score > 0)`. */
  function Candidates(s: seq<Scored>): (r: seq<Scored>)
    ensures forall x :: x in r <==> x in s && x.score > 0
  {
    if s == [] then []
    else
      var rest := Candidates(s[1..]);
      assert forall x :: x in s[1..] ==> x in s;
      if s[0].score > 0 then [s[0]] + rest else rest
  }

  lemma IncreasingTail(s: seq<Scored>)
    requires IndicesIncreasing(s) && s != []
    ensures IndicesIncreasing(s[1..])
  {
    var t := s[1..];
    forall i, j | 0 <= i < j < |t| ensures t[i].index < t[j].index {
      assert t[i] == s[i + 1] && t[j] == s[j + 1];
    }
  }

  /** An element ahead of every index of an increasing list may go in front. */
  lemma PrependIncreasing(x: Scored, s: seq<Scored>)
    requires IndicesIncreasing(s)
    requires forall y :: y in s ==> x.index < y.index
    ensures IndicesIncreasing([x] + s)
  {
    var r := [x] + s;
    forall i, j | 0 <= i < j < |r| ensures r[i].index < r[j].index {
      assert r[j] == s[j - 1];
      if i > 0 { assert r[i] == s[i - 1]; }
    }
  }

  /** The filter keeps the catalog order. */
  lemma {:induction false} CandidatesIncreasing(s: seq<Scored>)
    requires IndicesIncreasing(s)
    ensures IndicesIncreasing(Candidates(s))
  {
    if s != [] {
      var t := s[1..];
      IncreasingTail(s);
      CandidatesIncreasing(t);
      var rest := Candidates(t);
      if s[0].score > 0 {
        forall y | y in rest ensures s[0].index < y.index {
          var j :| 0 <= j < |t| && t[j] == y;
          assert s[j + 1] == y;
        }
        PrependIncreasing(s[0], rest);
      }
    }
  }

  /** One step of the stable sort: `x`, which precedes every element of `s` in
      the input, goes in front of the first element it does not score below. */
  function Insert(x: Scored, s: seq<Scored>): (r: seq<Scored>)
    ensures multiset(r) == multiset(s) + multiset{x}
  {
    if s == [] then [x]
    else if x.score >= s[0].score then [x] + s
    else
      assert s == [s[0]] + s[1..];
      [s[0]] + Insert(x, s[1..])
  }

  /** `.sort((a, b) => b.score - a.score)`: descending by score, and stable, as
      section 22.1.3.27 of ECMAScript 2019 requires of `Array.prototype.sort`.
      The comparator looks at scores only. */
  function SortByScore(s: seq<Scored>): (r: seq<Scored>)
    ensures multiset(r) == multiset(s)
  {
    if s == [] then []
    else
      assert s == [s[0]] + s[1..];
      Insert(s[0], SortByScore(s[1..]))
  }

  lemma {:induction false} InsertSorted(x: Scored, s: seq<Scored>)
    requires SortedBefore(s)
    requires forall y :: y in s ==> x.index < y.index
    ensures SortedBefore(Insert(x, s))
  {
    if s == [] {
    } else if x.score >= s[0].score {
      var r := [x] + s;
      forall i, j | 0 <= i < j < |r| ensures Before(r[i], r[j]) {
        if i == 0 {
          assert r[j] == s[j - 1];
          if j > 1 { assert Before(s[0], s[j - 1]); }
        } else {
          assert r[i] == s[i - 1] && r[j] == s[j - 1];
        }
      }
    } else {
      var t := s[1..];
      assert SortedBefore(t) by {
        forall i, j | 0 <= i < j < |t| ensures Before(t[i], t[j]) {
          assert t[i] == s[i + 1] && t[j] == s[j + 1];
        }
      }
      assert forall y :: y in t ==> y in s;
      InsertSorted(x, t);
      var it := Insert(x, t);
      var r := [s[0]] + it;
      forall i, j | 0 <= i < j < |r| ensures Before(r[i], r[j]) {
        if i == 0 {
          var y := r[j];
          assert y == it[j - 1];
          assert y in multiset(it);
          assert y == x || y in t;
          if y != x {
            var k :| 0 <= k < |t| && t[k] == y;
            assert Before(s[0], s[k + 1]);
          }
        } else {
          assert r[i] == it[i - 1] && r[j] == it[j - 1];
        }
      }
    }
  }

  /** Given the catalog's increasing positions, the stable sort by score yields
      exactly the `Before` order: scores non-increasing, ties in catalog order. */
  lemma {:induction false} SortSorted(s: seq<Scored>)
    requires IndicesIncreasing(s)
    ensures SortedBefore(SortByScore(s))
  {
    if s != [] {
      var t := s[1..];
      IncreasingTail(s);
      SortSorted(t);
      var st := SortByScore(t);
      forall y | y in st ensures s[0].index < y.index {
        assert y in multiset(st);
        var k :| 0 <= k < |t| && t[k] == y;
        assert s[k + 1] == y;
      }
      InsertSorted(s[0], st);
    }
  }

  /** `.slice(0, 5)` after the filter and the sort. */
  function Ranked(s: seq<Scored>): seq<Scored> {
    var sorted := SortByScore(Candidates(s));
    if |sorted| <= 5 then sorted else sorted[..5]
  }

  /** What the ranked list is: at most five entries, each a scored input with
      a positive score, in `Before` order. */
  lemma RankedProperties(s: seq<Scored>)
    requires IndicesIncreasing(s)
    ensures |Ranked(s)| <= 5
    ensures forall x :: x in Ranked(s) ==> x in s && x.score > 0
    ensures SortedBefore(Ranked(s))
  {
    var c := Candidates(s);
    var sorted := SortByScore(c);
    CandidatesIncreasing(s);
    SortSorted(c);
    var r := Ranked(s);
    assert r == sorted[..|r|];
    forall x | x in r ensures x in s && x.score > 0 {
      assert x in sorted;
      assert x in multiset(sorted);
      assert x in c;
    }
  }

  /** The ranked list is the top of the candidates: a positive-scoring input
      left out means five entries, each ranking ahead of it. */
  lemma RankedIsTop(s: seq<Scored>, x: Scored)
    requires IndicesIncreasing(s)
    requires x in s && x.score > 0 && x !in Ranked(s)
    ensures |Ranked(s)| == 5
    ensures forall y :: y in Ranked(s) ==> Before(y, x)
  {
    var c := Candidates(s);
    var sorted := SortByScore(c);
    CandidatesIncreasing(s);
    SortSorted(c);
    assert x in c;
    assert x in multiset(sorted);
    var k :| 0 <= k < |sorted| && sorted[k] == x;
    assert k >= 5;
    var r := sorted[..5];
    assert Ranked(s) == r;
    forall y | y in r ensures Before(y, x) {
      var i :| 0 <= i < |r| && r[i] == y;
      assert sorted[i] == y;
    }
  }
}
