/**
 Reading the HTTP status out of a rejected outcome call's text (internal/transcript/result.go), and what the
 agent is told because of it (cmd/wrapper/app.go).
 */
module OutcomeStatus {
  import opened Wrappers
  import opened Strings

  predicate IsDigit(c: char) {
    '0' <= c <= '9'
  }

  predicate IsWordByte(c: char) {
    'a' <= c <= 'z' || 'A' <= c <= 'Z' || IsDigit(c) || c == '_'
  }

  function DigitValue(c: char): (d: nat)
    requires IsDigit(c)
    ensures d <= 9
  {
    c as nat - '0' as nat
  }

  // ---------------------------------------------------------------- what a status is

  /** The number whose decimal digits are s. */
  function Number(s: string): nat
    requires forall i :: 0 <= i < |s| ==> IsDigit(s[i])
  {
    if s == [] then 0 else 10 * Number(s[..|s| - 1]) + DigitValue(s[|s| - 1])
  }

  predicate DigitsAt(s: string, p: nat) {
    p + 3 <= |s| && IsDigit(s[p]) && IsDigit(s[p + 1]) && IsDigit(s[p + 2])
  }

  function CodeAt(s: string, p: nat): int
    requires DigitsAt(s, p)
  {
    DigitValue(s[p]) * 100 + DigitValue(s[p + 1]) * 10 + DigitValue(s[p + 2])
  }

  lemma CodeIsNumber(s: string, p: nat)
    requires DigitsAt(s, p)
    ensures CodeAt(s, p) == Number(s[p..p + 3])
  {
    var t := s[p..p + 3];
    assert t[..2][..1] == [t[0]] && t[..1][..0] == [];
    assert Number(t[..2][..1]) == DigitValue(t[0]);
    assert Number(t[..2]) == 10 * DigitValue(t[0]) + DigitValue(t[1]);
  }

  /** From position p on, s has exactly three digits, and they read as a number in 400..599. */
  predicate StatusAt(s: string, p: nat) {
    DigitsAt(s, p) && (p + 3 < |s| ==> !IsDigit(s[p + 3])) && 400 <= CodeAt(s, p) <= 599
  }

  predicate WordStart(s: string, i: nat)
    requires i <= |s|
  {
    i == 0 || !IsWordByte(s[i - 1])
  }

  predicate MarkerAt(s: string, i: nat, marker: string)
    requires i <= |s|
  {
    HasPrefix(s[i..], marker)
  }

  predicate IsSeparator(c: char) {
    c == ' ' || c == ':' || c == '=' || c == '\t'
  }

  /** The first position at or after i that holds no separator. */
  function SkipSeparators(s: string, i: nat): (p: nat)
    requires i <= |s|
    ensures i <= p <= |s|
    ensures forall k :: i <= k < p ==> IsSeparator(s[k])
    ensures p < |s| ==> !IsSeparator(s[p])
    decreases |s| - i
  {
    if i < |s| && IsSeparator(s[i]) then SkipSeparators(s, i + 1) else i
  }

  /** A marker that starts a word at i, and after its separators a status at p. */
  predicate Marked(markers: seq<string>, s: string, i: nat, m: nat, p: nat) {
    && i < |s| && m < |markers| && WordStart(s, i) && MarkerAt(s, i, markers[m])
    && p == SkipSeparators(s, i + |markers[m]|) && StatusAt(s, p)
  }

  /** A marker at i leads to a status at p. */
  ghost predicate Leads(markers: seq<string>, s: string, i: nat, p: nat) {
    exists m: nat :: Marked(markers, s, i, m, p)
  }

  /** Where a status of s is to be found: at its very start, or where a marker leads. */
  ghost predicate Reports(markers: seq<string>, s: string, p: nat) {
    (p == 0 && StatusAt(s, 0)) || exists i: nat :: Leads(markers, s, i, p)
  }

  /** The status at p is the one at the very start, or else follows the first marker that leads to one. */
  ghost predicate ReadFirst(markers: seq<string>, s: string, start: nat, p: nat) {
    && StatusAt(s, p)
    && if StatusAt(s, 0) then p == 0
       else Leads(markers, s, start, p) && forall i: nat, q: nat :: Leads(markers, s, i, q) ==> start <= i
  }

  /** The first status that s reports is code. */
  ghost predicate FirstStatus(markers: seq<string>, s: string, code: int) {
    exists start: nat, p: nat :: ReadFirst(markers, s, start, p) && code == CodeAt(s, p)
  }

  // ---------------------------------------------------------------- the scan

  /** leadingStatus: the status at the front of s. */
  function LeadingStatus(s: string): Option<int> {
    if |s| < 3 then None
    else if !(IsDigit(s[0]) && IsDigit(s[1]) && IsDigit(s[2])) then None
    else if |s| > 3 && IsDigit(s[3]) then None
    else
      var code := DigitValue(s[0]) * 100 + DigitValue(s[1]) * 10 + DigitValue(s[2]);
      if code < 400 || code > 599 then None else Some(code)
  }

  lemma LeadingStatusIs(s: string, p: nat)
    requires p <= |s|
    ensures LeadingStatus(s[p..]).Some? <==> StatusAt(s, p)
    ensures LeadingStatus(s[p..]).Some? ==> LeadingStatus(s[p..]).value == CodeAt(s, p)
  {
  }

  /** strings.TrimLeft(s, " :=\t"). */
  function TrimSeparators(s: string): string {
    if s != [] && IsSeparator(s[0]) then TrimSeparators(s[1..]) else s
  }

  lemma {:induction false} TrimIsSkip(s: string, i: nat)
    requires i <= |s|
    ensures TrimSeparators(s[i..]) == s[SkipSeparators(s, i)..]
    decreases |s| - i
  {
    if i < |s| && IsSeparator(s[i]) {
      assert s[i..][1..] == s[i + 1..];
      TrimIsSkip(s, i + 1);
    }
  }

  lemma {:induction false} SkipShifts(s: string, i: nat, b: string, k: nat)
    requires i + |b| <= |s| && s[i..i + |b|] == b && k <= |b| && SkipSeparators(b, k) < |b|
    ensures SkipSeparators(s, i + k) == i + SkipSeparators(b, k)
    decreases |b| - k
  {
    assert k < |b| ==> s[i + k] == b[k];
    if k < |b| && IsSeparator(b[k]) {
      SkipShifts(s, i, b, k + 1);
    }
  }

  /** If b extends a, then where a ends b goes on, after separators, with no digit. */
  predicate Apart(a: string, b: string) {
    a <= b ==> SkipSeparators(b, |a|) < |b| && !IsDigit(b[SkipSeparators(b, |a|)])
  }

  /** No two markers are equal, and one that another extends cannot be what a status follows there. */
  predicate NoClash(markers: seq<string>) {
    forall m, n :: 0 <= m < |markers| && 0 <= n < |markers| && m != n ==> Apart(markers[m], markers[n])
  }

  lemma ShorterFails(markers: seq<string>, s: string, i: nat, m: nat, n: nat)
    requires NoClash(markers) && m < |markers| && n < |markers| && m != n && |markers[m]| <= |markers[n]|
    requires i <= |s| && MarkerAt(s, i, markers[m]) && MarkerAt(s, i, markers[n])
    ensures !StatusAt(s, SkipSeparators(s, i + |markers[m]|))
  {
    var a, b := markers[m], markers[n];
    assert s[i..i + |b|] == b && s[i..i + |a|] == a;
    assert a == b[..|a|];
    SkipShifts(s, i, b, |a|);
    var p := SkipSeparators(b, |a|);
    assert s[i + p] == b[p];
  }

  /** At one position at most one marker leads to a status, so the markers' order does not matter. */
  lemma OneMarkerEach(markers: seq<string>, s: string, i: nat, p: nat, q: nat)
    requires NoClash(markers) && Leads(markers, s, i, p) && Leads(markers, s, i, q)
    ensures p == q
  {
    var m: nat :| Marked(markers, s, i, m, p);
    var n: nat :| Marked(markers, s, i, n, q);
    if m != n {
      if |markers[m]| <= |markers[n]| {
        ShorterFails(markers, s, i, m, n);
      } else {
        ShorterFails(markers, s, i, n, m);
      }
    }
  }

  /** The first status of a text is one number. */
  lemma FirstStatusIsUnique(markers: seq<string>, s: string, code: int, other: int)
    requires NoClash(markers) && FirstStatus(markers, s, code) && FirstStatus(markers, s, other)
    ensures code == other
  {
    var i: nat, p: nat :| ReadFirst(markers, s, i, p) && code == CodeAt(s, p);
    var j: nat, q: nat :| ReadFirst(markers, s, j, q) && other == CodeAt(s, q);
    if !StatusAt(s, 0) {
      OneMarkerEach(markers, s, i, p, q);
    }
  }

  lemma AfterSeparators(s: string, i: nat)
    requires i <= |s|
    ensures LeadingStatus(TrimSeparators(s[i..])) ==
            if StatusAt(s, SkipSeparators(s, i)) then Some(CodeAt(s, SkipSeparators(s, i))) else None
  {
    TrimIsSkip(s, i);
    LeadingStatusIs(s, SkipSeparators(s, i));
  }

  method TryMarker(ghost markers: seq<string>, s: string, i: nat, ghost m: nat, marker: string)
    returns (code: Option<int>, ghost at: nat)
    requires i < |s| && WordStart(s, i) && m < |markers| && markers[m] == marker
    ensures code == None ==> forall p: nat :: !Marked(markers, s, i, m, p)
    ensures code.Some? ==> Marked(markers, s, i, m, at) && code.value == CodeAt(s, at)
  {
    code, at := None, 0;
    if HasPrefix(s[i..], marker) {
      assert i + |marker| <= |s|;
      var rest := TrimSeparators(s[i + |marker|..]);
      code := LeadingStatus(rest);
      at := SkipSeparators(s, i + |marker|);
      AfterSeparators(s, i + |marker|);
    }
  }

  /** The markers tried at one position. */
  method TryMarkers(markers: seq<string>, s: string, i: nat) returns (code: Option<int>, ghost at: nat)
    requires i < |s| && WordStart(s, i)
    ensures code == None ==> forall p: nat :: !Leads(markers, s, i, p)
    ensures code.Some? ==> Leads(markers, s, i, at) && StatusAt(s, at) && code.value == CodeAt(s, at)
  {
    code, at := None, 0;
    var m := 0;
    while m < |markers|
      invariant 0 <= m <= |markers| && code == None
      invariant forall n: nat, p: nat :: n < m ==> !Marked(markers, s, i, n, p)
    {
      code, at := TryMarker(markers, s, i, m, markers[m]);
      if code.Some? {
        return;
      }
      m := m + 1;
    }
  }

  /** OutcomeErrorStatus on text already trimmed and lowered. */
  method ScanStatus(markers: seq<string>, s: string) returns (code: Option<int>)
    ensures code == None ==> forall p: nat :: !Reports(markers, s, p)
    ensures code.Some? ==> FirstStatus(markers, s, code.value)
  {
    code := LeadingStatus(s);
    assert s[0..] == s;
    LeadingStatusIs(s, 0);
    if code.Some? {
      assert ReadFirst(markers, s, 0, 0);
      return;
    }
    var i := 0;
    while i < |s|
      invariant 0 <= i <= |s| && code == None
      invariant forall j: nat, p: nat :: Leads(markers, s, j, p) ==> j >= i
    {
      if i > 0 && IsWordByte(s[i - 1]) {
        i := i + 1;
        continue;
      }
      ghost var at;
      code, at := TryMarkers(markers, s, i);
      if code.Some? {
        assert ReadFirst(markers, s, i, at);
        return;
      }
      i := i + 1;
    }
  }

  lemma FirstIsReported(markers: seq<string>, s: string, code: int)
    requires FirstStatus(markers, s, code)
    ensures exists p: nat :: Reports(markers, s, p)
    ensures 400 <= code <= 599
  {
    var start: nat, p: nat :| ReadFirst(markers, s, start, p) && code == CodeAt(s, p);
    assert Reports(markers, s, p);
  }

  // ---------------------------------------------------------------- the actual markers

  const HTTP_STATUS_MARKERS: seq<string> := ["http/1.1", "http", "status code", "status", "code", "->", "returned"]

  lemma MarkerShapes(k: nat)
    requires k < |HTTP_STATUS_MARKERS|
    ensures |HTTP_STATUS_MARKERS| == 7
    ensures |HTTP_STATUS_MARKERS[k]| == [8, 4, 11, 6, 4, 2, 8][k]
    ensures HTTP_STATUS_MARKERS[k][0] == ['h', 'h', 's', 's', 'c', '-', 'r'][k]
  {
  }

  lemma MarkersDoNotClash()
    ensures NoClash(HTTP_STATUS_MARKERS)
  {
    forall m, n | 0 <= m < |HTTP_STATUS_MARKERS| && 0 <= n < |HTTP_STATUS_MARKERS| && m != n
      ensures Apart(HTTP_STATUS_MARKERS[m], HTTP_STATUS_MARKERS[n])
    {
      MarkersApart(m, n);
    }
  }

  lemma MarkersApart(m: nat, n: nat)
    requires m < |HTTP_STATUS_MARKERS| && n < |HTTP_STATUS_MARKERS| && m != n
    ensures Apart(HTTP_STATUS_MARKERS[m], HTTP_STATUS_MARKERS[n])
  {
    MarkerShapes(m);
    MarkerShapes(n);
    if m == 1 && n == 0 {
      HttpApart();
    } else if m == 3 && n == 2 {
      StatusApart();
    } else {
      Different(HTTP_STATUS_MARKERS[m], HTTP_STATUS_MARKERS[n]);
    }
  }

  lemma Different(a: string, b: string)
    requires a != [] && b != [] && (a[0] != b[0] || |a| > |b|)
    ensures Apart(a, b)
  {
  }

  lemma HttpApart()
    ensures Apart("http", "http/1.1")
  {
    assert "http/1.1"[4] == '/';
  }

  lemma StatusApart()
    ensures Apart("status", "status code")
  {
    var b := "status code";
    assert b[6] == ' ' && b[7] == 'c';
    assert SkipSeparators(b, 6) == SkipSeparators(b, 7);
  }

  function Normal(errText: string): string {
    ToLower(TrimSpace(errText))
  }

  /** The status an outcome error text reports, if it reports one. */
  method OutcomeErrorStatus(errText: string) returns (code: Option<int>)
    ensures code.Some? <==> exists p: nat :: Reports(HTTP_STATUS_MARKERS, Normal(errText), p)
    ensures forall c :: FirstStatus(HTTP_STATUS_MARKERS, Normal(errText), c) <==> code == Some(c)
  {
    code := ScanStatus(HTTP_STATUS_MARKERS, Normal(errText));
    MarkersDoNotClash();
    Settle(HTTP_STATUS_MARKERS, Normal(errText), code);
  }

  lemma Settle(markers: seq<string>, s: string, code: Option<int>)
    requires NoClash(markers)
    requires code == None ==> forall p: nat :: !Reports(markers, s, p)
    requires code.Some? ==> FirstStatus(markers, s, code.value)
    ensures code.Some? <==> exists p: nat :: Reports(markers, s, p)
    ensures forall c :: FirstStatus(markers, s, c) <==> code == Some(c)
  {
    if code.Some? {
      FirstIsReported(markers, s, code.value);
    }
    forall c | FirstStatus(markers, s, c) ensures code == Some(c) {
      FirstIsReported(markers, s, c);
      FirstStatusIsUnique(markers, s, c, code.value);
    }
  }

  // ---------------------------------------------------------------- what the agent is told

  datatype Directive =
    | SameCallAgain(tool: string, errText: string)
    | CorrectOrStop(tool: string, errText: string)

  /** No status is reported, or the first one is the server's fault. */
  ghost predicate WorthRetrying(errText: string) {
    forall c :: FirstStatus(HTTP_STATUS_MARKERS, Normal(errText), c) ==> c >= 500
  }

  method RetryableOutcomeFailure(errText: string) returns (retryable: bool)
    ensures retryable <==> WorthRetrying(errText)
  {
    var status := OutcomeErrorStatus(errText);
    if status == None {
      return true;
    }
    assert FirstStatus(HTTP_STATUS_MARKERS, Normal(errText), status.value);
    return status.value >= 500;
  }

  /** The mandatory retry is sent exactly when the text reports no status, or the one reported is at least 500. */
  method RepromptDirective(tool: string, errText: string) returns (d: Directive)
    ensures d.SameCallAgain? <==> WorthRetrying(errText)
    ensures d.tool == tool && d.errText == TrimSpace(errText)
  {
    var retryable := RetryableOutcomeFailure(errText);
    var trimmed := TrimSpace(errText);
    d := if retryable then SameCallAgain(tool, trimmed) else CorrectOrStop(tool, trimmed);
  }
}
