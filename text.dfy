/**
 * The two JavaScript string operations the search box relies on:
 * String.prototype.trim and String.prototype.includes.
 */
module JsText {

  /** The code points trim() strips: ECMAScript's WhiteSpace (including every Zs
      space separator) and LineTerminator characters. */
  predicate IsTrimmable(c: char) {
    || c == '\t' || c == '\U{000B}' || c == '\U{000C}' || c == ' ' || c == '\U{00A0}'
    || c == '\U{FEFF}' || c == '\U{1680}' || ('\U{2000}' <= c <= '\U{200A}')
    || c == '\U{202F}' || c == '\U{205F}' || c == '\U{3000}'
    || c == '\n' || c == '\r' || c == '\U{2028}' || c == '\U{2029}'
  }

  /** s without its leading trimmable characters. */
  function TrimStart(s: string): (r: string)
    ensures |r| <= |s| && r == s[|s| - |r|..]
    ensures forall k :: 0 <= k < |s| - |r| ==> IsTrimmable(s[k])
    ensures r != [] ==> !IsTrimmable(r[0])
  {
    if s != [] && IsTrimmable(s[0]) then TrimStart(s[1..]) else s
  }

  /** s without its trailing trimmable characters. */
  function TrimEnd(s: string): (r: string)
    ensures |r| <= |s| && r == s[..|r|]
    ensures forall k :: |r| <= k < |s| ==> IsTrimmable(s[k])
    ensures r != [] ==> !IsTrimmable(r[|r| - 1])
  {
    if s != [] && IsTrimmable(s[|s| - 1]) then TrimEnd(s[..|s| - 1]) else s
  }

  /** String.prototype.trim. */
  function Trim(s: string): (r: string)
    ensures |r| <= |s|
    ensures r != [] ==> !IsTrimmable(r[0]) && !IsTrimmable(r[|r| - 1])
  {
    TrimEnd(TrimStart(s))
  }

  /** The trimmed text is empty exactly when every character of s is trimmable. */
  lemma TrimEmptyIff(s: string)
    ensures Trim(s) == [] <==> forall k :: 0 <= k < |s| ==> IsTrimmable(s[k])
  {
    var t := TrimStart(s);
    if Trim(s) != [] {
      assert t != [] && t[0] == s[|s| - |t|];
    }
  }

  /** q occurs in s starting at position i. */
  ghost predicate OccursAt(s: string, q: string, i: int) {
    0 <= i && i + |q| <= |s| && s[i..i + |q|] == q
  }

  /** String.prototype.includes: s.includes(q), case-sensitive, character by
      character; on well-formed strings this agrees with JavaScript's comparison by
      UTF-16 code units. */
  function Includes(s: string, q: string): (b: bool)
    ensures q == [] ==> b
    ensures b ==> |q| <= |s|
    decreases |s|
  {
    |q| <= |s| && (s[..|q|] == q || Includes(s[1..], q))
  }

  /** Includes agrees with its reference definition: q occurs somewhere in s. */
  lemma {:induction false} IncludesIffOccurs(s: string, q: string)
    ensures Includes(s, q) <==> exists i :: OccursAt(s, q, i)
    decreases |s|
  {
    if |q| > |s| {
      assert forall i :: !OccursAt(s, q, i);
    } else if s[..|q|] == q {
      assert OccursAt(s, q, 0);
    } else {
      IncludesIffOccurs(s[1..], q);
      forall i | OccursAt(s[1..], q, i) ensures OccursAt(s, q, i + 1) {
        assert s[i + 1..i + 1 + |q|] == s[1..][i..i + |q|];
      }
      forall i | OccursAt(s, q, i) ensures i >= 1 && OccursAt(s[1..], q, i - 1) {
        assert i != 0;
        assert s[1..][i - 1..i - 1 + |q|] == s[i..i + |q|];
      }
    }
  }
}
