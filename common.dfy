/** Values shared by the whole model: optional values, JavaScript truthiness of
    optional strings, ASCII case folding and substring search. */
module Common {

  /** A value that may be absent: `undefined` or `null` on the JavaScript side. */
  datatype Option<T> = None | Some(value: T)

  /** `!!x` for a string that may be absent: absent and empty strings are falsy. */
  predicate Truthy(o: Option<string>) {
    o.Some? && o.value != ""
  }

  /** `x || fallback` for a string that may be absent. */
  function OrElse(o: Option<string>, fallback: string): (r: string)
    ensures Truthy(o) ==> r == o.value
    ensures !Truthy(o) ==> r == fallback
  {
    if o.Some? && o.value != "" then o.value else fallback
  }

  /** The `image || undefined` idiom: an empty string becomes absent. */
  function NonEmpty(o: Option<string>): (r: Option<string>)
    ensures r.Some? <==> Truthy(o)
    ensures r.Some? ==> r == o
  {
    if Truthy(o) then o else None
  }

  function LowerChar(c: char): char {
    if 'A' <= c <= 'Z' then (c as int + 32) as char else c
  }

  /** `toLowerCase()`, restricted to the ASCII letters. */
  function Lower(s: string): (r: string)
    ensures |r| == |s|
    ensures forall i :: 0 <= i < |s| ==> r[i] == LowerChar(s[i])
  {
    seq(|s|, i requires 0 <= i < |s| => LowerChar(s[i]))
  }

  lemma LowerSlice(s: string, i: nat, j: nat)
    requires i <= j <= |s|
    ensures Lower(s)[i..j] == Lower(s[i..j])
  {
  }

  /** `q` occurs in `s` starting at position `k`. */
  predicate OccursAt(s: string, q: string, k: nat) {
    k + |q| <= |s| && s[k..k + |q|] == q
  }

  /** `s.includes(q)`: some position of `s` starts an occurrence of `q`. */
  predicate Contains(s: string, q: string) {
    exists k: nat :: k <= |s| && OccursAt(s, q, k)
  }

  /** Case-insensitive `includes`, as Prisma's `mode: 'insensitive'` and the
      `toLowerCase()` comparisons of the client use it. */
  predicate ContainsIgnoringCase(s: string, q: string) {
    Contains(Lower(s), Lower(q))
  }

  /** Every string contains the empty string. */
  lemma ContainsEmpty(s: string)
    ensures ContainsIgnoringCase(s, "")
  {
    assert OccursAt(Lower(s), Lower(""), 0);
  }
}
