/** The few pieces of JavaScript string semantics the configuration loader
    relies on: truthiness of an optional string, the `||` fallback,
    `String.prototype.length` (UTF-16 code units) and
    `String.prototype.includes`. */
module JsStrings {
  import opened Wrappers

  /** A value of type `string | undefined` is truthy exactly when it is a
      non-empty string; `undefined` and `''` are falsy. */
  predicate Truthy(v: Option<string>) {
    v.Some? && |v.value| > 0
  }

  /** `v || fallback`: the value itself when truthy, the fallback otherwise;
      with a non-empty fallback the result is never empty. */
  function OrElse(v: Option<string>, fallback: string): (r: string)
    ensures Truthy(v) ==> r == v.value
    ensures !Truthy(v) ==> r == fallback
    ensures fallback != [] ==> r != []
  {
    if Truthy(v) then v.value else fallback
  }

  /** Number of UTF-16 code units that encode one Unicode scalar value:
      characters outside the Basic Multilingual Plane take a surrogate pair. */
  function Utf16Units(c: char): nat {
    if c as int >= 0x1_0000 then 2 else 1
  }

  /** A character that JavaScript counts as a single code unit. */
  predicate InBmp(c: char) {
    c as int < 0x1_0000
  }

  /** `s.length` in JavaScript: the length of `s` in UTF-16 code units.
      It is at least the number of characters and at most twice that, and
      equals the number of characters exactly when every character lies in
      the Basic Multilingual Plane. */
  function Utf16Length(s: string): (n: nat)
    ensures |s| <= n <= 2 * |s|
    ensures n == |s| <==> forall i :: 0 <= i < |s| ==> InBmp(s[i])
  {
    if |s| == 0 then 0
    else
      var rest := Utf16Length(s[1..]);
      assert forall i :: 1 <= i < |s| ==> s[i] == s[1..][i - 1];
      Utf16Units(s[0]) + rest
  }

  /** `sub` occurs in `s` starting at index `i`. */
  predicate OccursAt(s: string, sub: string, i: int) {
    0 <= i && i + |sub| <= |s| && s[i..i + |sub|] == sub
  }

  /** Reference meaning of "`s` contains `sub`": some position holds it. */
  ghost predicate ContainsSubstring(s: string, sub: string) {
    exists i :: OccursAt(s, sub, i)
  }

  /** `s.includes(sub)`: scans the start positions of `s` from left to right. */
  function Includes(s: string, sub: string): (r: bool)
    ensures r <==> ContainsSubstring(s, sub)
    decreases |s|
  {
    if |s| < |sub| then false
    else if s[..|sub|] == sub then
      assert OccursAt(s, sub, 0);
      true
    else
      var r := Includes(s[1..], sub);
      ShiftOccurrence(s, sub);
      r
  }

  /** When `sub` does not start `s`, the occurrences of `sub` in `s` are those
      in `s[1..]`, moved one place to the right. */
  lemma ShiftOccurrence(s: string, sub: string)
    requires |s| >= |sub| && s[..|sub|] != sub
    ensures ContainsSubstring(s, sub) <==> ContainsSubstring(s[1..], sub)
  {
    if ContainsSubstring(s, sub) {
      var i :| OccursAt(s, sub, i);
      assert i != 0;
      assert s[1..][i - 1..i - 1 + |sub|] == s[i..i + |sub|];
      assert OccursAt(s[1..], sub, i - 1);
    }
    if ContainsSubstring(s[1..], sub) {
      var j :| OccursAt(s[1..], sub, j);
      assert s[j + 1..j + 1 + |sub|] == s[1..][j..j + |sub|];
      assert OccursAt(s, sub, j + 1);
    }
  }
}
