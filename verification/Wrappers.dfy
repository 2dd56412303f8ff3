/** Shared small types and the notion of a contiguous part of a sequence. */
module Wrappers {

  datatype Option<T> = None | Some(value: T)

  /** `s` is the part of `t` that starts at `i`. */
  predicate OccursAt<T(==)>(t: seq<T>, s: seq<T>, i: int) {
    0 <= i && i + |s| <= |t| && t[i..i + |s|] == s
  }

  /** `s` occurs in `t` as a contiguous part. */
  predicate Occurs<T(==)>(t: seq<T>, s: seq<T>) {
    exists i | 0 <= i <= |t| :: OccursAt(t, s, i)
  }

  /** An occurrence, element by element. */
  lemma OccursElement<T>(t: seq<T>, s: seq<T>, i: int, k: nat)
    requires OccursAt(t, s, i) && k < |s|
    ensures t[i + k] == s[k] && s[k] in t
  {
    assert t[i..i + |s|][k] == t[i + k];
  }

  /** An occurrence inside an occurrence. */
  lemma OccursDeeper<T>(t: seq<T>, s: seq<T>, inner: seq<T>, i: int, k: int)
    requires OccursAt(t, s, i) && OccursAt(s, inner, k)
    ensures OccursAt(t, inner, i + k)
  {
    forall e | 0 <= e < |inner| ensures t[i + k + e] == inner[e] {
      OccursElement(s, inner, k, e);
      OccursElement(t, s, i, k + e);
    }
    assert t[i + k..i + k + |inner|] == inner;
  }

  /** An occurrence in a prefix. */
  lemma OccursInPrefix<T>(t: seq<T>, n: nat, s: seq<T>, i: int)
    requires n <= |t| && OccursAt(t[..n], s, i)
    ensures OccursAt(t, s, i)
  {
    assert t[..n][i..i + |s|] == t[i..i + |s|];
  }
}
