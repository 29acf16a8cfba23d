/**
 * The string operations the tools rely on: Python's `str.strip()`, `sep.join(parts)`,
 * the concatenation that f-string templates perform, and substring containment.
 */
module Text {

  /** The characters for which Python's `str.isspace()` holds; `str.strip()` removes exactly these. */
  const WHITESPACE: set<char> := {
    '\t', '\n', '\U{0B}', '\U{0C}', '\r', '\U{1C}', '\U{1D}', '\U{1E}', '\U{1F}', ' ',
    '\U{85}', '\U{A0}', '\U{1680}',
    '\U{2000}', '\U{2001}', '\U{2002}', '\U{2003}', '\U{2004}', '\U{2005}',
    '\U{2006}', '\U{2007}', '\U{2008}', '\U{2009}', '\U{200A}',
    '\U{2028}', '\U{2029}', '\U{202F}', '\U{205F}', '\U{3000}'
  }

  predicate IsSpace(c: char) {
    c in WHITESPACE
  }

  predicate AllSpace(s: string) {
    forall k :: 0 <= k < |s| ==> IsSpace(s[k])
  }

  /** A non-empty string that neither starts nor ends with whitespace: what `strip()` leaves alone. */
  predicate Framed(s: string) {
    |s| > 0 && !IsSpace(s[0]) && !IsSpace(s[|s| - 1])
  }

  /** The number of whitespace characters at the start of `s`. */
  function LeadingSpaces(s: string): (n: nat)
    ensures n <= |s|
    ensures forall k :: 0 <= k < n ==> IsSpace(s[k])
    ensures n < |s| ==> !IsSpace(s[n])
  {
    if s != [] && IsSpace(s[0]) then 1 + LeadingSpaces(s[1..]) else 0
  }

  /** The number of whitespace characters at the end of `s`. */
  function TrailingSpaces(s: string): (n: nat)
    ensures n <= |s|
    ensures forall k :: |s| - n <= k < |s| ==> IsSpace(s[k])
    ensures n < |s| ==> !IsSpace(s[|s| - 1 - n])
  {
    if s != [] && IsSpace(s[|s| - 1]) then 1 + TrailingSpaces(s[..|s| - 1]) else 0
  }

  /**
   * Python's `s.strip()`: the infix of `s` left after removing leading and trailing
   * whitespace. What lies before and after the result is whitespace, and a non-empty
   * result begins and ends with a non-whitespace character.
   */
  function Strip(s: string): (r: string)
    ensures LeadingSpaces(s) + |r| <= |s|
    ensures r == s[LeadingSpaces(s)..LeadingSpaces(s) + |r|]
    ensures forall k :: 0 <= k < LeadingSpaces(s) ==> IsSpace(s[k])
    ensures forall k :: LeadingSpaces(s) + |r| <= k < |s| ==> IsSpace(s[k])
    ensures r == [] || Framed(r)
  {
    var rest := s[LeadingSpaces(s)..];
    rest[..|rest| - TrailingSpaces(rest)]
  }

  /**
   * `strip()` is determined by its contract: whenever `s` is whitespace, then `r`, then
   * whitespace, with `r` empty or framed, `strip()` yields exactly `r`.
   */
  lemma StripUnique(a: string, r: string, b: string)
    requires AllSpace(a) && AllSpace(b)
    requires r == [] || Framed(r)
    ensures Strip(a + r + b) == r
  {
    var s := a + r + b;
    var n := LeadingSpaces(s);
    if r == [] {
      assert s == a + b;
      assert AllSpace(s) by {
        forall k | 0 <= k < |s| ensures IsSpace(s[k]) {
          if k < |a| { assert s[k] == a[k]; } else { assert s[k] == b[k - |a|]; }
        }
      }
      assert n == |s|;
    } else {
      assert s[|a|] == r[0];
      assert forall k :: 0 <= k < |a| ==> s[k] == a[k];
      assert n == |a|;
      var rest := s[n..];
      assert rest == r + b;
      var m := TrailingSpaces(rest);
      assert rest[|rest| - 1 - |b|] == r[|r| - 1];
      assert forall k :: |rest| - |b| <= k < |rest| ==> rest[k] == b[k - |r|];
      assert m == |b|;
      assert rest[..|rest| - m] == r;
    }
  }

  /** Stripping twice is stripping once. */
  lemma StripIdempotent(s: string)
    ensures Strip(Strip(s)) == Strip(s)
  {
    var r := Strip(s);
    StripUnique([], r, []);
    assert [] + r + [] == r;
  }

  /** `s.strip() == ""` exactly when `s` consists of whitespace only. */
  lemma StripBlank(s: string)
    ensures Strip(s) == [] <==> AllSpace(s)
  {
    if AllSpace(s) {
      StripUnique(s, [], []);
      assert s + [] + [] == s;
    }
  }

  /** Surrounding a framed body with whitespace and stripping gives the body back. */
  lemma StripFramed(lead: string, body: string, trail: string)
    requires AllSpace(lead) && AllSpace(trail) && Framed(body)
    ensures Strip(lead + body + trail) == body
  {
    StripUnique(lead, body, trail);
  }

  /** `t` occurs in `s` at position `k`. */
  ghost predicate OccursAt(s: string, t: string, k: nat) {
    k + |t| <= |s| && s[k..k + |t|] == t
  }

  /** Python's `t in s` for strings. */
  ghost predicate Contains(s: string, t: string) {
    exists k: nat :: OccursAt(s, t, k)
  }

  lemma ContainsAfter(a: string, c: string, t: string)
    requires Contains(c, t)
    ensures Contains(a + c, t)
  {
    var k: nat :| OccursAt(c, t, k);
    assert (a + c)[|a| + k..|a| + k + |t|] == c[k..k + |t|];
    assert OccursAt(a + c, t, |a| + k);
  }

  /** Containment is transitive. */
  lemma ContainedTransitive(s: string, t: string, u: string)
    requires Contains(s, t) && Contains(t, u)
    ensures Contains(s, u)
  {
    var k: nat :| OccursAt(s, t, k);
    var j: nat :| OccursAt(t, u, j);
    assert t == s[k..k + |t|];
    assert forall i :: 0 <= i < |u| ==> u[i] == t[j + i] == s[k + j + i];
    assert s[k + j..k + j + |u|] == u;
    assert OccursAt(s, u, k + j);
  }

  /** The concatenation of `parts`: what an f-string template builds from its literal and substituted pieces. */
  function Concat(parts: seq<string>): string {
    if parts == [] then "" else parts[0] + Concat(parts[1..])
  }

  /** Every piece of a concatenation occurs in it. */
  lemma {:induction false} ConcatContains(parts: seq<string>, i: nat)
    requires i < |parts|
    ensures Contains(Concat(parts), parts[i])
  {
    var rest := Concat(parts[1..]);
    if i == 0 {
      assert (parts[0] + rest)[0..|parts[0]|] == parts[0];
      assert OccursAt(Concat(parts), parts[0], 0);
    } else {
      ConcatContains(parts[1..], i - 1);
      ContainsAfter(parts[0], rest, parts[i]);
    }
  }

  /** A concatenation ends with its last piece. */
  lemma {:induction false} ConcatLast(parts: seq<string>)
    requires |parts| > 0
    ensures Concat(parts) == Concat(parts[..|parts| - 1]) + parts[|parts| - 1]
  {
    if |parts| > 1 {
      ConcatLast(parts[1..]);
      assert parts[1..][..|parts| - 2] == parts[..|parts| - 1][1..];
    }
  }

  /** A concatenation whose first piece starts, and whose last piece ends, with non-whitespace is framed. */
  lemma ConcatFramed(parts: seq<string>)
    requires |parts| > 0 && |parts[0]| > 0 && |parts[|parts| - 1]| > 0
    requires !IsSpace(parts[0][0]) && !IsSpace(parts[|parts| - 1][|parts[|parts| - 1]| - 1])
    ensures Framed(Concat(parts))
  {
    ConcatLast(parts);
  }

  /**
   * Python's `sep.join(parts)`: empty for no parts; otherwise it begins with the first
   * part and ends with the last, and a single part is returned as it is.
   */
  function Join(parts: seq<string>, sep: string): (r: string)
    ensures parts == [] ==> r == ""
    ensures |parts| == 1 ==> r == parts[0]
    ensures parts != [] ==> |r| >= |parts[0]| && |r| >= |parts[|parts| - 1]|
    ensures parts != [] ==> r[..|parts[0]|] == parts[0]
    ensures parts != [] ==> r[|r| - |parts[|parts| - 1]|..] == parts[|parts| - 1]
  {
    if parts == [] then ""
    else if |parts| == 1 then parts[0]
    else
      var rest := Join(parts[1..], sep);
      assert parts[1..][|parts| - 2] == parts[|parts| - 1];
      parts[0] + sep + rest
  }

  /** Every part occurs in the joined string. */
  lemma {:induction false} JoinContains(parts: seq<string>, sep: string, i: nat)
    requires i < |parts|
    ensures Contains(Join(parts, sep), parts[i])
  {
    if |parts| == 1 {
      assert parts[0][0..|parts[0]|] == parts[0];
      assert OccursAt(parts[0], parts[0], 0);
    } else if i == 0 {
      var j := Join(parts, sep);
      assert j == parts[0] + (sep + Join(parts[1..], sep));
      assert j[0..|parts[0]|] == parts[0];
      assert OccursAt(j, parts[0], 0);
    } else {
      JoinContains(parts[1..], sep, i - 1);
      ContainsAfter(parts[0] + sep, Join(parts[1..], sep), parts[i]);
    }
  }
}
