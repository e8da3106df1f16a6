/** The few JavaScript string operations the chat server relies on:
    `toLowerCase`, `includes`, `trim` and `Array.prototype.join`. */
module JsString {
  import opened Wrappers

  /** Lower-case form of one character: the ASCII letters and the Latin-1
      capitals (all but the multiplication sign) move up by 32. */
  function LowerChar(c: char): (r: char)
    ensures 'A' <= c <= 'Z' ==> r as int == c as int + 32
    ensures !('A' <= c <= 'Z') && !('\U{C0}' <= c <= '\U{DE}') ==> r == c
  {
    if 'A' <= c <= 'Z' || ('\U{C0}' <= c <= '\U{DE}' && c != '\U{D7}') then
      (c as int + 32) as char
    else
      c
  }

  /** `s.toLowerCase()`: each capital becomes its lower-case letter, every
      other character is kept. */
  function Lower(s: string): (r: string)
    ensures |r| == |s|
    ensures forall i :: 0 <= i < |r| ==> !('A' <= r[i] <= 'Z')
    ensures forall i :: 0 <= i < |s| ==>
      && ('A' <= s[i] <= 'Z' ==> r[i] as int == s[i] as int + 32)
      && ('\U{C0}' <= s[i] <= '\U{DE}' && s[i] != '\U{D7}' ==> r[i] as int == s[i] as int + 32)
      && (!('A' <= s[i] <= 'Z') && !('\U{C0}' <= s[i] <= '\U{DE}' && s[i] != '\U{D7}') ==> r[i] == s[i])
  {
    seq(|s|, i requires 0 <= i < |s| => LowerChar(s[i]))
  }

  /** A string that `toLowerCase` leaves unchanged. */
  predicate IsLower(s: string) {
    forall i :: 0 <= i < |s| ==> LowerChar(s[i]) == s[i]
  }

  lemma LowerIsLower(s: string)
    ensures IsLower(Lower(s))
  {
  }

  lemma LowerFixesLower(s: string)
    requires IsLower(s)
    ensures Lower(s) == s
  {
  }

  /** `toLowerCase` is idempotent. */
  lemma LowerIdempotent(s: string)
    ensures Lower(Lower(s)) == Lower(s)
  {
    LowerIsLower(s);
    LowerFixesLower(Lower(s));
  }

  lemma IsLowerSlice(s: string, i: nat, j: nat)
    requires IsLower(s) && i <= j <= |s|
    ensures IsLower(s[i..j])
  {
  }

  /** Pattern `p` occurs in `s` at position `k`. */
  predicate StartsAt(s: string, p: string, k: int) {
    0 <= k && k + |p| <= |s| && s[k..k + |p|] == p
  }

  /** `s.indexOf(p, i)`: the first position at or after `i` where `p` occurs. */
  function IndexFrom(s: string, p: string, i: nat): (r: Option<nat>)
    requires i <= |s|
    decreases |s| - i
    ensures r.Some? ==> i <= r.value && StartsAt(s, p, r.value)
    ensures r.Some? ==> forall k :: i <= k < r.value ==> !StartsAt(s, p, k)
    ensures r.None? ==> forall k :: i <= k ==> !StartsAt(s, p, k)
  {
    if StartsAt(s, p, i) then Some(i)
    else if i + |p| >= |s| then None
    else IndexFrom(s, p, i + 1)
  }

  /** `s.includes(p)`: the search succeeds exactly when `p` occurs somewhere. */
  function Contains(s: string, p: string): (b: bool)
    ensures b <==> exists k :: StartsAt(s, p, k)
  {
    IndexFrom(s, p, 0).Some?
  }

  /** Every string containing `p` contains every substring of `p`. */
  lemma ContainsTransitive(s: string, p: string, q: string)
    requires Contains(s, p) && Contains(p, q)
    ensures Contains(s, q)
  {
    var i :| StartsAt(s, p, i);
    var j :| StartsAt(p, q, j);
    forall k | 0 <= k < |q|
      ensures s[i + j + k] == q[k]
    {
      assert q[k] == p[j + k] == s[i + j + k];
    }
    assert s[i + j..i + j + |q|] == q;
    assert StartsAt(s, q, i + j);
  }

  /** The characters `trim` removes: ECMAScript WhiteSpace and LineTerminator. */
  predicate WhiteSpace(c: char) {
    c in {'\t', '\n', '\U{B}', '\U{C}', '\r', ' ', '\U{A0}', '\U{1680}', '\U{2028}', '\U{2029}',
          '\U{202F}', '\U{205F}', '\U{3000}', '\U{FEFF}'}
    || ('\U{2000}' <= c <= '\U{200A}')
  }

  /** Position of the first non-white character at or after `i`. */
  function LeadingEnd(s: string, i: nat): (n: nat)
    requires i <= |s|
    decreases |s| - i
    ensures i <= n <= |s|
    ensures forall k :: i <= k < n ==> WhiteSpace(s[k])
    ensures n < |s| ==> !WhiteSpace(s[n])
  {
    if i == |s| || !WhiteSpace(s[i]) then i else LeadingEnd(s, i + 1)
  }

  /** Position just after the last non-white character before `j`. */
  function TrailingStart(s: string, j: nat): (n: nat)
    requires j <= |s|
    decreases j
    ensures n <= j
    ensures forall k :: n <= k < j ==> WhiteSpace(s[k])
    ensures 0 < n ==> !WhiteSpace(s[n - 1])
  {
    if j == 0 || !WhiteSpace(s[j - 1]) then j else TrailingStart(s, j - 1)
  }

  /** The bounds of `s.trim()` inside `s`: everything outside them is white
      space, and the part inside neither starts nor ends with white space. */
  function TrimBounds(s: string): (b: (nat, nat))
    ensures b.0 <= b.1 <= |s|
    ensures forall k :: 0 <= k < b.0 ==> WhiteSpace(s[k])
    ensures forall k :: b.1 <= k < |s| ==> WhiteSpace(s[k])
    ensures b.0 < b.1 ==> !WhiteSpace(s[b.0]) && !WhiteSpace(s[b.1 - 1])
  {
    var i := LeadingEnd(s, 0);
    var j := TrailingStart(s, |s|);
    if j <= i then (i, i) else (i, j)
  }

  /** `s.trim()`. */
  function Trim(s: string): (r: string)
    ensures exists i, j ::
              && 0 <= i <= j <= |s| && r == s[i..j]
              && (forall k :: 0 <= k < i ==> WhiteSpace(s[k]))
              && (forall k :: j <= k < |s| ==> WhiteSpace(s[k]))
    ensures r == [] || (!WhiteSpace(r[0]) && !WhiteSpace(r[|r| - 1]))
  {
    var b := TrimBounds(s);
    s[b.0..b.1]
  }

  /** Trimming a trimmed string changes nothing. */
  lemma TrimIdempotent(s: string)
    ensures Trim(Trim(s)) == Trim(s)
  {
    var t := Trim(s);
    var b := TrimBounds(t);
    assert t != [] ==> b.0 == 0 && b.1 == |t|;
  }

  /** `trim` returns a slice, so it keeps a lower-case string lower-case. */
  lemma TrimKeepsLower(s: string)
    requires IsLower(s)
    ensures IsLower(Trim(s))
  {
    var b := TrimBounds(s);
    IsLowerSlice(s, b.0, b.1);
  }

  /** `xs.join(sep)`. */
  function Join(xs: seq<string>, sep: string): (r: string)
    ensures xs == [] ==> r == []
    ensures |xs| == 1 ==> r == xs[0]
  {
    if xs == [] then []
    else if |xs| == 1 then xs[0]
    else xs[0] + sep + Join(xs[1..], sep)
  }

  /** Every joined part occurs in the joined string. */
  lemma {:induction false} JoinKeepsParts(xs: seq<string>, sep: string)
    ensures forall k :: 0 <= k < |xs| ==> Contains(Join(xs, sep), xs[k])
  {
    if |xs| > 1 {
      JoinKeepsParts(xs[1..], sep);
      JoinStep(xs[0], sep, Join(xs[1..], sep));
      assert forall k :: 1 <= k < |xs| ==> xs[k] == xs[1..][k - 1];
    } else if |xs| == 1 {
      assert StartsAt(xs[0], xs[0], 0);
    }
  }

  /** One step of a join: the head and everything the rest contains occur
      in the joined string. */
  lemma JoinStep(head: string, sep: string, rest: string)
    ensures Contains(head + sep + rest, head)
    ensures forall p :: Contains(rest, p) ==> Contains(head + sep + rest, p)
  {
    var s := head + sep + rest;
    assert s[0..|head|] == head;
    assert StartsAt(s, head, 0);
    forall p | Contains(rest, p)
      ensures Contains(s, p)
    {
      var k :| StartsAt(rest, p, k);
      var at := |head| + |sep| + k;
      assert s[at..at + |p|] == rest[k..k + |p|];
      assert StartsAt(s, p, at);
    }
  }
}
