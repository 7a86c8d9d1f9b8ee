/** js/contact.js: the contact form's e-mail check, the order of its
    validations, and the subject and body of the message it sends. */
module Contact {
  import opened Wrappers
  import opened Text

  const ContactEmail: string := "sktknsk5509@gmail.com"
  const PlaceholderFormKey: string := "YOUR_WEB3FORMS_KEY"
  const FromName: string := "Saku Portfolio"

  const RequiredMessage: string := "必須項目を入力してください"
  const BadEmailMessage: string := "正しいメールアドレスを入力してください"
  const SentMessage: string := "送信完了しました！2〜3営業日以内にご返信いたします。"

  // ---------------------------------------------------------------------
  // isValidEmail (js/contact.js:81-83)
  // ---------------------------------------------------------------------

  /** A character the class `[^\s@]` accepts. */
  predicate PlainChar(c: char) {
    !IsSpace(c) && c != '@'
  }

  /** A non-empty run of `[^\s@]+`. */
  predicate Part(x: string) {
    x != [] && forall i :: 0 <= i < |x| ==> PlainChar(x[i])
  }

  function Compose(a: string, b: string, c: string): string {
    a + "@" + b + "." + c
  }

  /** What `/^[^\s@]+@[^\s@]+\.[^\s@]+$/` matches: three plain runs joined
      by "@" and ".". */
  ghost predicate MatchesEmailPattern(s: string) {
    exists a, b, c :: s == Compose(a, b, c) && Part(a) && Part(b) && Part(c)
  }

  /** The position of the first '@', if any. */
  function FirstAt(s: string): (r: Option<nat>)
    ensures r.Some? ==> r.value < |s| && s[r.value] == '@' && forall k :: 0 <= k < r.value ==> s[k] != '@'
    ensures r.None? ==> forall k :: 0 <= k < |s| ==> s[k] != '@'
  {
    if s == [] then None
    else if s[0] == '@' then Some(0)
    else
      match FirstAt(s[1..])
      case None => None
      case Some(i) => Some(i + 1)
  }

  predicate NoAt(s: string) {
    forall k :: 0 <= k < |s| ==> s[k] != '@'
  }

  /** A '.' with at least one character on each side. */
  predicate HasInnerDot(d: string) {
    exists j :: 0 < j < |d| - 1 && d[j] == '.'
  }

  /** `isValidEmail`: no white space, one '@' that is not first, and after it
      a '.' that is neither the first nor the last character. */
  predicate IsValidEmail(s: string) {
    && NoSpace(s)
    && match FirstAt(s)
       case None => false
       case Some(i) => i > 0 && NoAt(s[i + 1..]) && HasInnerDot(s[i + 1..])
  }

  /** A non-empty stretch of plain characters is a run. */
  lemma PlainSlice(s: string, lo: nat, hi: nat)
    requires lo < hi <= |s|
    requires forall k :: lo <= k < hi ==> PlainChar(s[k])
    ensures Part(s[lo..hi])
  {
    assert forall k :: 0 <= k < hi - lo ==> s[lo..hi][k] == s[lo + k];
  }

  /** In a valid address every character but the '@' is plain. */
  lemma ValidChars(s: string)
    requires IsValidEmail(s)
    ensures forall k :: 0 <= k < |s| && k != FirstAt(s).value ==> PlainChar(s[k])
  {
    var i := FirstAt(s).value;
    var d := s[i + 1..];
    forall k | 0 <= k < |s| && k != i ensures PlainChar(s[k]) {
      if k > i { assert s[k] == d[k - i - 1]; }
    }
  }

  /** A valid address splits into the three runs around its '@' and a '.'. */
  lemma ValidMatchesPattern(s: string)
    requires IsValidEmail(s)
    ensures MatchesEmailPattern(s)
  {
    var i := FirstAt(s).value;
    var d := s[i + 1..];
    var j :| 0 < j < |d| - 1 && d[j] == '.';
    var m := i + 1 + j;
    assert s[m] == '.';
    ValidChars(s);
    PlainSlice(s, 0, i);
    PlainSlice(s, i + 1, m);
    PlainSlice(s, m + 1, |s|);
    var a, b, c := s[..i], s[i + 1..m], s[m + 1..];
    assert s == a + [s[i]] + b + [s[m]] + c;
    assert s == Compose(a, b, c);
  }

  /** The characters of a composed address: the runs, then '@' and '.'. */
  lemma ComposeChars(a: string, b: string, c: string, k: nat)
    requires k < |Compose(a, b, c)|
    ensures var s := Compose(a, b, c);
      && (k < |a| ==> s[k] == a[k])
      && (k == |a| ==> s[k] == '@')
      && (|a| < k < |a| + 1 + |b| ==> s[k] == b[k - |a| - 1])
      && (k == |a| + 1 + |b| ==> s[k] == '.')
      && (k > |a| + 1 + |b| ==> s[k] == c[k - |a| - |b| - 2])
  {
  }

  /** The first '@' of `x + "@" + y`, when `x` has none, is the one added. */
  lemma {:induction false} FirstAtAfter(x: string, y: string)
    requires NoAt(x)
    ensures FirstAt(x + "@" + y) == Some(|x|)
    decreases |x|
  {
    if x != [] {
      assert (x + "@" + y)[1..] == x[1..] + "@" + y;
      FirstAtAfter(x[1..], y);
    } else {
      assert x + "@" + y == "@" + y;
    }
  }

  /** An address built from three runs passes the check. */
  lemma PatternIsValid(a: string, b: string, c: string)
    requires Part(a) && Part(b) && Part(c)
    ensures IsValidEmail(Compose(a, b, c))
  {
    var s := Compose(a, b, c);
    var d := b + "." + c;
    assert s == a + "@" + d;
    assert NoSpace(s) by {
      forall k | 0 <= k < |s| ensures !IsSpace(s[k]) {
        ComposeChars(a, b, c, k);
      }
    }
    FirstAtAfter(a, d);
    assert s[|a| + 1..] == d;
    assert NoAt(d) by {
      forall k | 0 <= k < |d| ensures d[k] != '@' {
        if k < |b| { assert d[k] == b[k]; }
        else if k > |b| { assert d[k] == c[k - |b| - 1]; }
      }
    }
    assert d[|b|] == '.';
    assert HasInnerDot(d);
  }

  /** The check accepts exactly what the regular expression matches. */
  lemma IsValidEmailIff(s: string)
    ensures IsValidEmail(s) <==> MatchesEmailPattern(s)
  {
    if IsValidEmail(s) {
      ValidMatchesPattern(s);
    }
    if MatchesEmailPattern(s) {
      var a, b, c :| s == Compose(a, b, c) && Part(a) && Part(b) && Part(c);
      PatternIsValid(a, b, c);
    }
  }

  /** A valid address holds exactly one '@'. */
  lemma ValidEmailHasOneAt(s: string)
    requires IsValidEmail(s)
    ensures multiset(s)['@'] == 1
  {
    IsValidEmailIff(s);
    var a, b, c :| s == Compose(a, b, c) && Part(a) && Part(b) && Part(c);
    assert '@' !in multiset(a) && '@' !in multiset(b) && '@' !in multiset(c);
    assert multiset(s) == multiset(a) + multiset{'@'} + multiset(b) + multiset{'.'} + multiset(c);
  }

  /** No string with white space in it matches the pattern. */
  lemma WhiteSpaceNeverMatches(s: string, k: nat)
    requires k < |s| && IsSpace(s[k])
    ensures !MatchesEmailPattern(s)
  {
    IsValidEmailIff(s);
  }

  /** Examples of accepted addresses. */
  lemma AcceptedExamples()
    ensures IsValidEmail("a@b.c")
    ensures IsValidEmail("a@b.c.d")
  {
    PatternIsValid("a", "b", "c");
    assert Compose("a", "b", "c") == "a@b.c";
    PatternIsValid("a", "b.c", "d");
    assert Compose("a", "b.c", "d") == "a@b.c.d";
  }

  /** Examples of rejected addresses: no dot, a dot right after the '@', a
      dot at the end, nothing before the '@'. */
  lemma RejectedExamples()
    ensures !IsValidEmail("a@b")
    ensures !IsValidEmail("a@.c")
    ensures !IsValidEmail("a@b.")
    ensures !IsValidEmail("@b.c")
  {
    assert FirstAt("a@b") == Some(1) by { assert "a@b"[1..] == "@b"; }
    assert |"a@b"[2..]| == 1;
    assert FirstAt("a@.c") == Some(1) by { assert "a@.c"[1..] == "@.c"; }
    assert |"a@.c"[2..]| == 2;
    assert FirstAt("a@b.") == Some(1) by { assert "a@b."[1..] == "@b."; }
    assert |"a@b."[2..]| == 2;
  }

  // ---------------------------------------------------------------------
  // The submit handler (js/contact.js:19-74)
  // ---------------------------------------------------------------------

  /** The form's fields as read by `querySelector(...)?.value`: None when the
      field is not in the form. */
  datatype Fields = Fields(
    name: Option<string>,
    email: Option<string>,
    category: Option<string>,
    budget: Option<string>,
    detail: Option<string>)

  /** `field?.value.trim()`. */
  function TrimmedField(f: Option<string>): Option<string> {
    match f
    case None => None
    case Some(v) => Some(Trim(v))
  }

  /** JavaScript's truthiness of an optional string: present and non-empty. */
  predicate Filled(f: Option<string>) {
    f.Some? && f.value != ""
  }

  /** `x || fallback` on an optional string. */
  function OrDefault(f: Option<string>, fallback: string): (r: string)
    ensures Filled(f) ==> r == f.value
    ensures !Filled(f) ==> r == fallback
  {
    if Filled(f) then f.value else fallback
  }

  /** A value interpolated into a template literal (`undefined` when absent). */
  function Interpolated(f: Option<string>): string {
    if f.None? then "undefined" else f.value
  }

  datatype Validation = MissingRequired | InvalidEmail | Ready(name: string, email: string)

  /** Lines 19-33: the required fields first, only then the e-mail format. */
  function Validate(f: Fields): (v: Validation)
    ensures v == MissingRequired <==> !Filled(TrimmedField(f.name)) || !Filled(TrimmedField(f.email))
    ensures v == InvalidEmail <==>
      Filled(TrimmedField(f.name)) && Filled(TrimmedField(f.email)) && !IsValidEmail(Trim(f.email.value))
    ensures v.Ready? ==> (v.name == Trim(f.name.value) && v.email == Trim(f.email.value)
      && v.name != "" && IsValidEmail(v.email))
  {
    var name := TrimmedField(f.name);
    var email := TrimmedField(f.email);
    if !Filled(name) || !Filled(email) then MissingRequired
    else if !IsValidEmail(email.value) then InvalidEmail
    else Ready(name.value, email.value)
  }

  /** A name of only white space counts as missing, whatever the address. */
  lemma BlankNameIsMissing(f: Fields)
    requires f.name.Some? && AllSpace(f.name.value)
    ensures Validate(f) == MissingRequired
  {
    TrimEmptyIff(f.name.value);
  }

  /** The subject line of line 49. */
  function Subject(category: Option<string>, name: string): string {
    "【ポートフォリオ】" + OrDefault(category, "その他") + " - " + name + "様からのお問い合わせ"
  }

  /** The message body of line 50; the detail text is interpolated as is. */
  function MessageBody(category: Option<string>, budget: Option<string>, detail: Option<string>): string {
    "【依頼内容】" + OrDefault(category, "未選択") + "\n【予算感】" + OrDefault(budget, "未選択")
      + "\n\n" + Interpolated(detail)
  }

  /** The subject names the category (or "その他") and the sender, and two
      subjects for the same category text differ as soon as the names do. */
  lemma SubjectDefaults(category: Option<string>, name: string, other: string)
    ensures !Filled(category) ==> Subject(category, name) == "【ポートフォリオ】その他 - " + name + "様からのお問い合わせ"
    ensures Filled(category) ==> Subject(category, name) == "【ポートフォリオ】" + category.value + " - " + name + "様からのお問い合わせ"
    ensures Subject(category, name) == Subject(category, other) ==> name == other
  {
    var pre := "【ポートフォリオ】" + OrDefault(category, "その他") + " - ";
    var post := "様からのお問い合わせ";
    if Subject(category, name) == Subject(category, other) {
      assert Subject(category, name) == pre + name + post;
      assert Subject(category, other) == pre + other + post;
      assert |name| == |other|;
      assert name == (pre + name + post)[|pre|..|pre| + |name|];
      assert other == (pre + other + post)[|pre|..|pre| + |other|];
    }
  }

  /** The body uses "未選択" for a missing category or budget, each field
      independently of the other. */
  lemma MessageBodyDefaults(category: Option<string>, budget: Option<string>, detail: Option<string>)
    ensures !Filled(category) && !Filled(budget) ==>
      MessageBody(category, budget, detail) == "【依頼内容】未選択\n【予算感】未選択\n\n" + Interpolated(detail)
    ensures !Filled(category) ==> MessageBody(category, budget, detail) == MessageBody(None, budget, detail)
    ensures !Filled(budget) ==> MessageBody(category, budget, detail) == MessageBody(category, None, detail)
  {
  }

  /** A filled category opens the body; the detail, or "undefined" when it is
      missing, closes it. */
  lemma MessageBodyEnds(category: Option<string>, budget: Option<string>, detail: Option<string>)
    ensures Filled(category) ==> StartsWith(MessageBody(category, budget, detail), "【依頼内容】" + category.value + "\n【予算感】")
    ensures detail.None? ==> MessageBody(category, budget, detail)[|MessageBody(category, budget, detail)| - 9..] == "undefined"
    ensures detail.Some? ==>
      MessageBody(category, budget, detail)[|MessageBody(category, budget, detail)| - |detail.value|..] == detail.value
  {
    var body := MessageBody(category, budget, detail);
    var head := "【依頼内容】" + OrDefault(category, "未選択") + "\n【予算感】";
    assert body == head + (OrDefault(budget, "未選択") + "\n\n" + Interpolated(detail));
    assert body[..|head|] == head;
  }

  /** The request handed to the mail service. */
  datatype Submission = Submission(
    accessKey: string,
    name: string,
    email: string,
    subject: string,
    message: string,
    fromName: string,
    to: string)

  /** The mail service's answer: the request failed (network, or a body that
      is not JSON), or it answered with its `success` flag. */
  datatype Delivery = DeliveryFailed | Answered(success: bool)

  datatype MessageType = Success | Error

  /** What the handler shows: a message and its type. The fallback message
      carries a mailto link, summarised here by `FallbackShown`. */
  datatype Shown = Shown(text: string, kind: MessageType) | FallbackShown

  datatype SubmitResult = SubmitResult(shown: Shown, request: Option<Submission>, formReset: bool)

  /** The whole submit handler on one set of field values. */
  function Submit(f: Fields, formKey: Option<string>, delivery: Delivery): SubmitResult {
    match Validate(f)
    case MissingRequired => SubmitResult(Shown(RequiredMessage, Error), None, false)
    case InvalidEmail => SubmitResult(Shown(BadEmailMessage, Error), None, false)
    case Ready(name, email) =>
      var request := Submission(OrDefault(formKey, PlaceholderFormKey), name, email,
                                Subject(f.category, name), MessageBody(f.category, f.budget, TrimmedField(f.detail)),
                                FromName, ContactEmail);
      if delivery == Answered(true) then SubmitResult(Shown(SentMessage, Success), Some(request), true)
      else SubmitResult(FallbackShown, Some(request), false)
  }

  /** Nothing is sent unless both checks pass; what is sent carries the
      trimmed name and e-mail and goes to the site's address; success is
      reported, and the form cleared, only when the service says so. */
  lemma SubmitOrder(f: Fields, formKey: Option<string>, delivery: Delivery)
    ensures var r := Submit(f, formKey, delivery);
      && (r.request.Some? <==> Validate(f).Ready?)
      && (!Filled(TrimmedField(f.name)) ==> r.shown == Shown(RequiredMessage, Error))
      && (r.request.Some? ==> IsValidEmail(r.request.value.email) && r.request.value.name != ""
                              && r.request.value.to == ContactEmail)
      && (r.shown.Shown? && r.shown.kind == Success <==> Validate(f).Ready? && delivery == Answered(true))
      && (r.formReset <==> r.shown.Shown? && r.shown.kind == Success)
  {
  }

  /** `showFormMessage`'s styling: success colours and icon exactly for the
      type "success", which is also the only type that clears after a delay. */
  datatype Style = Style(classes: string, icon: string, clearsLater: bool)

  function MessageStyle(messageType: string): (s: Style)
    ensures s.icon == "fa-check-circle" <==> messageType == "success"
    ensures s.clearsLater <==> messageType == "success"
    ensures messageType == "success" ==> s == Style("bg-green-500/10 border-green-500/30 text-green-400", "fa-check-circle", true)
    ensures messageType != "success" ==> s == Style("bg-red-500/10 border-red-500/30 text-red-400", "fa-exclamation-circle", false)
  {
    if messageType == "success" then Style("bg-green-500/10 border-green-500/30 text-green-400", "fa-check-circle", true)
    else Style("bg-red-500/10 border-red-500/30 text-red-400", "fa-exclamation-circle", false)
  }
}
