/** The one regular expression of the chat server, `/on (.*?) this month/`,
    searched the way a backtracking JavaScript engine does: the leftmost
    start position wins, and at that position the lazy group takes the
    shortest capture. `.` matches any character but a line terminator. */
module CategoryRegex {
  import opened Wrappers
  import opened JsString

  const OPEN := "on "
  const CLOSE := " this month"

  /** The characters `.` does not match. */
  predicate LineTerminator(c: char) {
    c == '\n' || c == '\r' || c == '\U{2028}' || c == '\U{2029}'
  }

  /** No line terminator in `s[i..j]`. */
  predicate DotsOnly(s: string, i: int, j: int)
    requires 0 <= i && j <= |s|
  {
    forall k :: i <= k < j ==> !LineTerminator(s[k])
  }

  /** The pattern matches `s[i..j + |CLOSE|]`, capturing `s[i + |OPEN|..j]`. */
  predicate MatchAt(s: string, i: int, j: int) {
    && 0 <= i && i + |OPEN| <= j && j <= |s|
    && StartsAt(s, OPEN, i)
    && StartsAt(s, CLOSE, j)
    && DotsOnly(s, i + |OPEN|, j)
  }

  /** Where the lazy group, starting at `k`, first lets ` this month` match. */
  function LazyEnd(s: string, k: nat): (r: Option<nat>)
    requires k <= |s|
    decreases |s| - k
    ensures r.Some? ==> k <= r.value <= |s| && StartsAt(s, CLOSE, r.value) && DotsOnly(s, k, r.value)
    ensures r.Some? ==> forall j :: k <= j < r.value ==> !StartsAt(s, CLOSE, j)
    ensures r.None? ==> forall j :: k <= j <= |s| && StartsAt(s, CLOSE, j) ==> !DotsOnly(s, k, j)
  {
    if StartsAt(s, CLOSE, k) then Some(k)
    else if k == |s| || LineTerminator(s[k]) then None
    else LazyEnd(s, k + 1)
  }

  /** A successful match: the start of `on ` and the start of ` this month`. */
  datatype Match = Match(start: nat, close: nat)

  /** The engine's scan, trying start positions `i`, `i + 1`, ... in turn. */
  function SearchFrom(s: string, i: nat): (r: Option<Match>)
    requires i <= |s|
    decreases |s| - i
    ensures r.Some? ==> i <= r.value.start && MatchAt(s, r.value.start, r.value.close)
    ensures r.Some? ==> forall a, j :: i <= a < r.value.start ==> !MatchAt(s, a, j)
    ensures r.Some? ==> forall j :: j < r.value.close ==> !MatchAt(s, r.value.start, j)
    ensures r.None? ==> forall a, j :: i <= a ==> !MatchAt(s, a, j)
  {
    if StartsAt(s, OPEN, i) && LazyEnd(s, i + |OPEN|).Some? then
      Some(Match(i, LazyEnd(s, i + |OPEN|).value))
    else if i == |s| then None
    else SearchFrom(s, i + 1)
  }

  /** `s.match(/on (.*?) this month/)[1]`, or `None` where `match` gives `null`. */
  function Capture(s: string): (r: Option<string>)
    ensures r.None? <==> forall a, j :: !MatchAt(s, a, j)
  {
    match SearchFrom(s, 0)
    case None => None
    case Some(m) => Some(s[m.start + |OPEN|..m.close])
  }

  /** The capture is the group of the leftmost, shortest match. */
  lemma CaptureIsLeftmostLazy(s: string)
    requires Capture(s).Some?
    ensures exists a, j ::
      && MatchAt(s, a, j) && Capture(s).value == s[a + |OPEN|..j]
      && (forall a', j' :: 0 <= a' < a ==> !MatchAt(s, a', j'))
      && (forall j' :: j' < j ==> !MatchAt(s, a, j'))
  {
    var m := SearchFrom(s, 0).value;
    assert MatchAt(s, m.start, m.close);
  }

  /** The capture holds no line terminator. */
  lemma CaptureHasNoLineTerminator(s: string)
    requires Capture(s).Some?
    ensures forall k :: 0 <= k < |Capture(s).value| ==> !LineTerminator(Capture(s).value[k])
  {
    var m := SearchFrom(s, 0).value;
    var c := Capture(s).value;
    forall k | 0 <= k < |c|
      ensures !LineTerminator(c[k])
    {
      assert c[k] == s[m.start + |OPEN| + k];
    }
  }

  /** A capture from a lower-case string is lower-case. */
  lemma CaptureKeepsLower(s: string)
    requires IsLower(s) && Capture(s).Some?
    ensures IsLower(Capture(s).value)
  {
    var m := SearchFrom(s, 0).value;
    IsLowerSlice(s, m.start + |OPEN|, m.close);
  }
}
