/** Printing and parsing of tracking codes (core/attribution_engine.py, Part 1). */
module TrackingCode {
  import opened Sequences

  const PREFIX := "aff://"

  datatype Parts = Parts(contentId: string, pageId: string, timestamp: nat)

  // ---- Printing ----

  function Digit(d: nat): (c: char)
    requires d < 16
  {
    if d < 10 then (d + '0' as int) as char else (d - 10 + 'a' as int) as char
  }

  /** format(n, "x") for n >= 0. */
  function Hex(n: nat): (s: string)
    ensures |s| > 0
  {
    if n < 16 then [Digit(n)] else Hex(n / 16) + [Digit(n % 16)]
  }

  function HexInt(n: int): string {
    if n < 0 then "-" + Hex(-n) else Hex(n)
  }

  /** int(x): truncation toward zero. */
  function Truncate(x: real): int {
    if x >= 0.0 then x.Floor else -((-x).Floor)
  }

  function Clean(c: char): char { if c == ':' || c == '/' then '_' else c }

  function Sanitize(s: string): (r: string) { Map(s, Clean) }

  /** timestamp or time.time(): a missing or zero timestamp falls back to the clock. */
  function ChosenTime(timestamp: Option<real>, now: real): real {
    if timestamp.Some? && timestamp.value != 0.0 then timestamp.value else now
  }

  function GenerateTrackingCode(contentId: string, pageId: string, timestamp: Option<real>, now: real): string {
    Layout(Sanitize(contentId), Sanitize(pageId), HexInt(Truncate(ChosenTime(timestamp, now))))
  }

  function Layout(cid: string, pid: string, hex: string): string {
    PREFIX + Joined(cid, Joined(pid, hex))
  }

  function Joined(left: string, right: string): string {
    left + ":" + right
  }

  // ---- Parsing ----

  predicate IsSpace(c: char) {
    var n := c as int;
    9 <= n <= 13 || 28 <= n <= 32 || n == 133 || n == 160 || n == 5760 || 8192 <= n <= 8202
    || n == 8232 || n == 8233 || n == 8239 || n == 8287 || n == 12288
  }

  function StripLeft(s: string): string {
    if |s| > 0 && IsSpace(s[0]) then StripLeft(s[1..]) else s
  }

  function StripRight(s: string): string {
    if |s| > 0 && IsSpace(s[|s| - 1]) then StripRight(s[..|s| - 1]) else s
  }

  function Strip(s: string): string { StripRight(StripLeft(s)) }

  function Lower(c: char): char {
    if 'A' <= c <= 'Z' then (c as int + 32) as char else c
  }

  function DigitValue(c: char): Option<nat> {
    if '0' <= c <= '9' then Some(c as int - '0' as int)
    else if 'a' <= Lower(c) <= 'f' then Some(Lower(c) as int - 'a' as int + 10)
    else None
  }

  /** int(s, 16) for a string of hexadecimal digits; None as soon as one character is not a digit. */
  function HexValue(s: string): Option<nat> {
    if |s| == 0 then Some(0)
    else
      match (HexValue(s[..|s| - 1]), DigitValue(s[|s| - 1]))
      case (Some(v), Some(d)) => Some(16 * v + d)
      case _ => None
  }

  /** Position of the first ':' at or after i, or the length of s. */
  function NextColon(s: string, i: nat): (j: nat)
    requires i <= |s|
    ensures i <= j <= |s|
    decreases |s| - i
  {
    if i == |s| || s[i] == ':' then i else NextColon(s, i + 1)
  }

  /** The texts before and after the first ':', if there is one. */
  function Cut(s: string): Option<(string, string)> {
    var i := NextColon(s, 0);
    if i == |s| then None else Some((s[..i], s[i + 1..]))
  }

  /** The three nonempty fields of "field:field:field", the first two free of ':'. */
  function SplitFields(s: string): Option<(string, string, string)> {
    match Cut(s)
    case None => None
    case Some(outer) =>
      match Cut(outer.1)
      case None => None
      case Some(inner) =>
        if outer.0 == "" || inner.0 == "" || inner.1 == "" then None else Some((outer.0, inner.0, inner.1))
  }

  predicate HasPrefix(s: string) {
    |s| >= |PREFIX| && Map(s[..|PREFIX|], Lower) == PREFIX
  }

  function ParseFields(s: string): (r: Option<Parts>) {
    match SplitFields(s)
    case None => None
    case Some(fields) =>
      match HexValue(fields.2)
      case None => None
      case Some(v) => Some(Parts(fields.0, fields.1, v))
  }

  function ParseTrackingCode(code: string): (r: Option<Parts>) {
    var s := Strip(code);
    if HasPrefix(s) then ParseFields(s[|PREFIX|..]) else None
  }

  // ---- Round trip ----

  lemma DigitRoundTrip(d: nat)
    requires d < 16
    ensures DigitValue(Digit(d)) == Some(d) && Digit(d) != ':' && Digit(d) != '-' && !IsSpace(Digit(d))
  {
  }

  lemma {:induction false} HexRoundTrip(n: nat)
    ensures HexValue(Hex(n)) == Some(n)
    ensures DigitValue(Hex(n)[|Hex(n)| - 1]).Some? && !IsSpace(Hex(n)[|Hex(n)| - 1])
  {
    if n < 16 {
      DigitRoundTrip(n);
      assert HexValue([Digit(n)][..0]) == Some(0);
    } else {
      HexRoundTrip(n / 16);
      DigitRoundTrip(n % 16);
      assert Hex(n)[..|Hex(n)| - 1] == Hex(n / 16);
    }
  }

  lemma {:induction false} HexHasNoSign(n: nat)
    ensures Hex(n)[0] != '-' && ':' !in Hex(n)
  {
    if n < 16 {
      DigitRoundTrip(n);
    } else {
      HexHasNoSign(n / 16);
      DigitRoundTrip(n % 16);
    }
  }

  lemma {:induction false} SignIsNoDigit(s: string)
    requires |s| > 0 && s[0] == '-'
    ensures HexValue(s) == None
  {
    if |s| > 1 {
      SignIsNoDigit(s[..|s| - 1]);
    }
  }

  lemma {:induction false} NextColonFinds(s: string, i: nat, j: nat)
    requires i <= j <= |s| && (j < |s| ==> s[j] == ':')
    requires forall k :: i <= k < j ==> s[k] != ':'
    ensures NextColon(s, i) == j
    decreases j - i
  {
    if i < j {
      NextColonFinds(s, i + 1, j);
    }
  }

  lemma SanitizeClean(s: string)
    ensures ':' !in Sanitize(s) && '/' !in Sanitize(s) && |Sanitize(s)| == |s|
  {
  }

  lemma SanitizeIdempotent(s: string)
    ensures Sanitize(s) == s <==> ':' !in s && '/' !in s
  {
    if ':' !in s && '/' !in s {
      assert forall i :: 0 <= i < |s| ==> Clean(s[i]) == s[i];
    } else {
      SanitizeClean(s);
    }
  }

  lemma CutJoined(left: string, right: string)
    requires ':' !in left
    ensures Cut(Joined(left, right)) == Some((left, right))
  {
    var s := Joined(left, right);
    NextColonFinds(s, 0, |left|);
    assert s[..|left|] == left && s[|left| + 1..] == right;
  }

  lemma JoinedInjective(left: string, right: string, left': string, right': string)
    requires ':' !in left && ':' !in left' && Joined(left, right) == Joined(left', right')
    ensures left == left' && right == right'
  {
    CutJoined(left, right);
    CutJoined(left', right');
  }

  lemma StripLeavesCode(s: string)
    requires |s| > 0 && !IsSpace(s[0]) && !IsSpace(s[|s| - 1])
    ensures Strip(s) == s
  {
  }

  lemma ParsePrefixed(tail: string)
    requires |tail| > 0 && !IsSpace(tail[|tail| - 1])
    ensures ParseTrackingCode(PREFIX + tail) == ParseFields(tail)
  {
    var s := PREFIX + tail;
    StripLeavesCode(s);
    assert s[..|PREFIX|] == PREFIX && s[|PREFIX|..] == tail;
    assert HasPrefix(s) by {
      assert Map(PREFIX, Lower) == PREFIX;
    }
  }

  lemma SplitJoined(c: string, p: string, h: string)
    requires ':' !in c && ':' !in p
    ensures SplitFields(Joined(c, Joined(p, h))) == if c == "" || p == "" || h == "" then None else Some((c, p, h))
  {
    CutJoined(c, Joined(p, h));
    CutJoined(p, h);
  }

  /** What the parser makes of any laid-out line whose last character is no space. */
  lemma ParseLayout(c: string, p: string, h: string)
    requires ':' !in c && ':' !in p && |h| > 0 && !IsSpace(h[|h| - 1])
    ensures ParseTrackingCode(Layout(c, p, h))
         == if c == "" || p == "" || HexValue(h) == None then None else Some(Parts(c, p, HexValue(h).value))
  {
    SplitJoined(c, p, h);
    ParsePrefixed(Joined(c, Joined(p, h)));
  }

  /** The exact condition under which a generated code parses back: both ids nonempty and the
      truncated timestamp not negative. Then it parses to the sanitized ids and that timestamp. */
  lemma RoundTrip(contentId: string, pageId: string, timestamp: Option<real>, now: real)
    ensures var t := Truncate(ChosenTime(timestamp, now));
            var parsed := ParseTrackingCode(GenerateTrackingCode(contentId, pageId, timestamp, now));
            && (parsed.Some? <==> contentId != "" && pageId != "" && t >= 0)
            && (parsed.Some? ==> parsed.value == Parts(Sanitize(contentId), Sanitize(pageId), t))
  {
    var t := Truncate(ChosenTime(timestamp, now));
    SanitizeClean(contentId);
    SanitizeClean(pageId);
    HexRoundTrip(if t < 0 then -t else t);
    if t < 0 {
      SignIsNoDigit(HexInt(t));
    }
    ParseLayout(Sanitize(contentId), Sanitize(pageId), HexInt(t));
  }

  lemma HexIntInjective(m: int, n: int)
    requires HexInt(m) == HexInt(n)
    ensures m == n
  {
    HexRoundTrip(if m < 0 then -m else m);
    HexRoundTrip(if n < 0 then -n else n);
    HexHasNoSign(if m < 0 then -m else m);
    HexHasNoSign(if n < 0 then -n else n);
    if m < 0 && n < 0 {
      assert HexInt(m)[1..] == Hex(-m) && HexInt(n)[1..] == Hex(-n);
    }
  }

  /** Two codes coincide exactly when their sanitized ids and truncated timestamps do,
      for every input, parseable or not. */
  lemma CodesCoincide(c: string, p: string, t: Option<real>, c': string, p': string, t': Option<real>, now: real, now': real)
    ensures GenerateTrackingCode(c, p, t, now) == GenerateTrackingCode(c', p', t', now')
       <==> Sanitize(c) == Sanitize(c') && Sanitize(p) == Sanitize(p')
            && Truncate(ChosenTime(t, now)) == Truncate(ChosenTime(t', now'))
  {
    var h, h' := HexInt(Truncate(ChosenTime(t, now))), HexInt(Truncate(ChosenTime(t', now')));
    if GenerateTrackingCode(c, p, t, now) == GenerateTrackingCode(c', p', t', now') {
      SanitizeClean(c);
      SanitizeClean(p);
      SanitizeClean(c');
      SanitizeClean(p');
      var s, s' := Joined(Sanitize(p), h), Joined(Sanitize(p'), h');
      assert Layout(Sanitize(c), Sanitize(p), h)[|PREFIX|..] == Joined(Sanitize(c), s);
      assert Layout(Sanitize(c'), Sanitize(p'), h')[|PREFIX|..] == Joined(Sanitize(c'), s');
      JoinedInjective(Sanitize(c), s, Sanitize(c'), s');
      JoinedInjective(Sanitize(p), h, Sanitize(p'), h');
      HexIntInjective(Truncate(ChosenTime(t, now)), Truncate(ChosenTime(t', now')));
    }
  }

  /** Different ids can share a code: the sanitizer maps ':' and '/' to the same character. */
  lemma DifferentIdsSameCode(now: real)
    ensures GenerateTrackingCode("a:b", "p", Some(1.0), now) == GenerateTrackingCode("a/b", "p", Some(1.0), now)
  {
    assert Sanitize("a:b") == Sanitize("a/b");
  }

  /** Whatever string is parsed, the ids it yields are nonempty and free of ':'. */
  lemma ParsedIdsAreColonFree(code: string)
    requires ParseTrackingCode(code).Some?
    ensures var r := ParseTrackingCode(code).value; r.contentId != "" && r.pageId != "" && ':' !in r.contentId && ':' !in r.pageId
  {
    var s := Strip(code)[|PREFIX|..];
    NextColonSkips(s, 0);
    NextColonSkips(Cut(s).value.1, 0);
  }

  lemma {:induction false} NextColonSkips(s: string, i: nat)
    requires i <= |s|
    ensures forall k :: i <= k < NextColon(s, i) ==> s[k] != ':'
    decreases |s| - i
  {
    if i < |s| && s[i] != ':' {
      NextColonSkips(s, i + 1);
    }
  }

  /** A timestamp loses its fraction, towards zero. */
  lemma TruncatesTowardsZero(x: real)
    ensures var t := Truncate(x) as real; if x >= 0.0 then 0.0 <= t <= x < t + 1.0 else t - 1.0 < x <= t <= 0.0
    ensures Truncate(x) >= 0 <==> x > -1.0
  {
  }

  /** The characters that are stripped. */
  lemma SpacesAre(c: char)
    ensures IsSpace(c) <==> c as int in [9, 10, 11, 12, 13, 28, 29, 30, 31, 32, 133, 160, 5760, 8192, 8193, 8194, 8195, 8196, 8197,
                                         8198, 8199, 8200, 8201, 8202, 8232, 8233, 8239, 8287, 12288]
  {
  }

  // ---- Examples ----

  lemma ExampleStrip()
    ensures Strip(" AFF://a:b:FF ") == "AFF://a:b:FF"
  {
    var s := " AFF://a:b:FF ";
    assert StripLeft(s) == StripLeft(s[1..]) && s[1..] == "AFF://a:b:FF ";
    assert StripLeft(s[1..]) == s[1..];
    var t := s[1..];
    assert t[..|t| - 1] == "AFF://a:b:FF";
    assert StripRight(t) == StripRight(t[..|t| - 1]);
  }

  lemma ExamplePrefix()
    ensures HasPrefix("AFF://a:b:FF")
  {
    var s := "AFF://";
    assert "AFF://a:b:FF"[..6] == s;
    assert s[..5] == "AFF:/" && s[..5][..4] == "AFF:" && s[..4][..3] == "AFF" && s[..3][..2] == "AF" && s[..2][..1] == "A" && s[..1][..0] == "";
    assert Map("A", Lower) == "a";
    assert Map("AF", Lower) == "af";
    assert Map("AFF", Lower) == "aff";
    assert Map("AFF:", Lower) == "aff:";
    assert Map("AFF:/", Lower) == "aff:/";
  }

  lemma ExampleFields()
    ensures ParseFields("a:b:FF") == Some(Parts("a", "b", 255))
  {
    var s := "a:b:FF";
    assert NextColon(s, 0) == NextColon(s, 1) == 1;
    assert s[..1] == "a" && s[2..] == "b:FF";
    var t := "b:FF";
    assert NextColon(t, 0) == NextColon(t, 1) == 1;
    assert t[..1] == "b" && t[2..] == "FF";
    var h := "FF";
    assert h[..1] == "F" && h[..1][..0] == "";
    assert HexValue("") == Some(0);
    assert HexValue("F") == Some(15);
  }

  /** The code of content a on page b at second 255. */
  lemma ExampleCode(now: real, second: real)
    requires second == 255.0
    ensures GenerateTrackingCode("a", "b", Some(second), now) == "aff://a:b:ff"
  {
    assert "a"[..0] == "" && "b"[..0] == "";
    assert Sanitize("a") == "a" && Sanitize("b") == "b";
    assert Hex(255) == Hex(15) + [Digit(15)] == "ff";
  }

  lemma ParsedFrom(code: string, s: string, fields: string, parts: Parts)
    requires Strip(code) == s && HasPrefix(s) && s[|PREFIX|..] == fields && ParseFields(fields) == Some(parts)
    ensures ParseTrackingCode(code) == Some(parts)
  {
  }

  /** White space around it and upper case do not matter. */
  lemma ExampleParsed()
    ensures ParseTrackingCode(" AFF://a:b:FF ") == Some(Parts("a", "b", 255))
  {
    ExampleStrip();
    ExamplePrefix();
    ExampleFields();
    assert "AFF://a:b:FF"[6..] == "a:b:FF";
    ParsedFrom(" AFF://a:b:FF ", "AFF://a:b:FF", "a:b:FF", Parts("a", "b", 255));
  }
}
