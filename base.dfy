/** Small wrapper datatypes shared by every module of the model. */
module Base {

  /** A value that may be missing: JavaScript's `null` / `undefined` result. */
  datatype Option<+T> = None | Some(value: T)

  /** The outcome of an operation that can throw: `Ok` carries the value, `Err` the thrown error. */
  datatype Result<+T, +E> = Ok(value: T) | Err(error: E)

  function Min(a: int, b: int): int { if a <= b then a else b }

  function Max(a: int, b: int): int { if a >= b then a else b }

  /** A sequence put after a prefix is what remains once the prefix is dropped. */
  lemma DropPrefix<T>(pre: seq<T>, s: seq<T>)
    ensures (pre + s)[..|pre|] == pre && (pre + s)[|pre|..] == s
  {
  }

  /** A prefix one longer is the prefix and the next element. */
  lemma PrefixSnoc<T>(s: seq<T>, i: nat)
    requires i < |s|
    ensures s[..i + 1] == s[..i] + [s[i]]
  {
  }
}
