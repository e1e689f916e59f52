/** C strings: a buffer read up to (not including) its first NUL terminator. */
module CStr {

  /** The characters of `s` before the first `nul`, or all of `s` when it holds none. */
  function UntilNul<T(==)>(s: seq<T>, nul: T): (r: seq<T>)
    ensures |r| <= |s| && r == s[..|r|]
    ensures nul !in r
    ensures |r| < |s| ==> s[|r|] == nul
  {
    if s == [] || s[0] == nul then [] else [s[0]] + UntilNul(s[1..], nul)
  }

  /** A scan that stopped at index `i` (a NUL or the end) read exactly `UntilNul(s, nul)`. */
  lemma UntilNulAt<T>(s: seq<T>, nul: T, i: nat)
    requires i <= |s|
    requires forall j | 0 <= j < i :: s[j] != nul
    requires i == |s| || s[i] == nul
    ensures UntilNul(s, nul) == s[..i]
  {
  }

  /** A buffer with no NUL is read whole. */
  lemma UntilNulWhole<T>(s: seq<T>, nul: T)
    requires nul !in s
    ensures UntilNul(s, nul) == s
  {
  }
}
