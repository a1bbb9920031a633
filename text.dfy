/** String helpers: substring containment, template interpolation, and
    Python's `x or default` on optional strings. */
module Text {
  import opened Wrappers

  /** `sub` occurs as a contiguous piece of `s`. */
  predicate Contains(s: string, sub: string) {
    exists i :: 0 <= i <= |s| - |sub| && OccursAt(s, sub, i)
  }

  /** `sub` occurs in `s` starting at index `i`. */
  predicate OccursAt(s: string, sub: string, i: int)
    requires 0 <= i <= |s| - |sub|
  {
    s[i..i + |sub|] == sub
  }

  /** A piece placed between two others occurs in the whole. */
  lemma ContainsInfix(s: string, pre: string, sub: string, post: string)
    requires s == pre + sub + post
    ensures Contains(s, sub)
  {
    var i := |pre|;
    assert s[i..i + |sub|] == sub;
    assert OccursAt(s, sub, i);
  }

  /** Text contained in `s` stays contained when something is put before `s`. */
  lemma ContainsAfter(pre: string, s: string, sub: string)
    requires Contains(s, sub)
    ensures Contains(pre + s, sub)
  {
    var i :| 0 <= i <= |s| - |sub| && OccursAt(s, sub, i);
    var j := |pre| + i;
    assert (pre + s)[j..j + |sub|] == s[i..i + |sub|];
    assert OccursAt(pre + s, sub, j);
  }

  /** An f-string: its literal pieces and interpolated fields, joined in order. */
  function Concat(parts: seq<string>): string {
    if |parts| == 0 then "" else parts[0] + Concat(parts[1..])
  }

  /** Every piece of an interpolated string occurs in it; in particular every field. */
  lemma {:induction false} ContainsPart(parts: seq<string>, k: nat)
    requires k < |parts|
    ensures Contains(Concat(parts), parts[k])
  {
    if k == 0 {
      ContainsInfix(Concat(parts), "", parts[0], Concat(parts[1..]));
    } else {
      ContainsPart(parts[1..], k - 1);
      ContainsAfter(parts[0], Concat(parts[1..]), parts[k]);
    }
  }

  /** `s` begins with `pre`. */
  predicate StartsWith(s: string, pre: string) {
    |pre| <= |s| && s[..|pre|] == pre
  }

  /** `s` ends with `suf`. */
  predicate EndsWith(s: string, suf: string) {
    |suf| <= |s| && s[|s| - |suf|..] == suf
  }

  /** An interpolated string begins with its first piece and ends with its last. */
  lemma {:induction false} ConcatEnds(parts: seq<string>)
    requires 0 < |parts|
    ensures StartsWith(Concat(parts), parts[0])
    ensures EndsWith(Concat(parts), parts[|parts| - 1])
  {
    var rest := Concat(parts[1..]);
    assert Concat(parts) == parts[0] + rest;
    assert (parts[0] + rest)[..|parts[0]|] == parts[0];
    if |parts| == 1 {
      assert rest == "";
      assert parts[0] + rest == parts[0];
    } else {
      ConcatEnds(parts[1..]);
      var last := parts[|parts| - 1];
      assert parts[1..][|parts[1..]| - 1] == last;
      assert (parts[0] + rest)[|parts[0] + rest| - |last|..] == rest[|rest| - |last|..];
    }
  }

  /** Python truthiness of an `Optional[str]`: neither `None` nor the empty string. */
  predicate Truthy(x: Option<string>) {
    x.Some? && x.value != ""
  }

  /** Python's `x or default` for an `Optional[str]` `x`. */
  function OrDefault(x: Option<string>, default: string): (r: string)
    ensures Truthy(x) ==> r == x.value
    ensures !Truthy(x) ==> r == default
    ensures r == "" ==> default == ""
  {
    if Truthy(x) then x.value else default
  }
}
