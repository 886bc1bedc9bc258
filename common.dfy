/** Failure-carrying results, the error kinds the preprocessing script raises,
    and substring containment for error messages. */
module Common {

  datatype Option<+T> = None | Some(value: T)

  datatype Result<+T, +E> = Success(value: T) | Failure(error: E)

  /** The exceptions the script raises, each with its message text. */
  datatype Error =
    | NotFound(message: string)          // FileNotFoundError: the product path is absent
    | InvalidArgument(message: string)   // ValueError: malformed bbox or unsupported polarisation
    | GeometryFailure(message: string)   // RuntimeError: the WKT could not be turned into a geometry
    | OperatorFailure(message: string)   // whatever a toolkit operator raised, passed on as is

  /** t occurs as a contiguous piece of s. */
  predicate Contains(s: string, t: string) {
    exists i :: 0 <= i <= |s| && t <= s[i..]
  }

  /** A string built around t contains t. */
  lemma ContainsInfix(prefix: string, t: string, suffix: string)
    ensures Contains(prefix + t + suffix, t)
  {
    var s := prefix + t + suffix;
    assert t <= s[|prefix|..];
  }

  /** Regrouping a four-part concatenation, stated once so that proofs over
      long texts need not rediscover it. */
  lemma ConcatAssoc<X>(a: seq<X>, b: seq<X>, c: seq<X>, d: seq<X>)
    ensures a + b + c + d == a + (b + (c + d))
  {
  }

  /** Regrouping a five-part list joined by a separator. */
  lemma JoinAssoc<X>(sep: seq<X>, a: seq<X>, b: seq<X>, c: seq<X>, d: seq<X>, e: seq<X>)
    ensures a + (sep + (b + (sep + (c + (sep + (d + (sep + e))))))) == a + sep + b + sep + c + sep + d + sep + e
  {
  }

  /** Opening the brackets around a five-part list between a prefix and a suffix. */
  lemma WrapAssoc<X>(pre: seq<X>, post: seq<X>, sep: seq<X>, a: seq<X>, b: seq<X>, c: seq<X>, d: seq<X>, e: seq<X>)
    ensures pre + (a + sep + b + sep + c + sep + d + sep + e) + post == pre + a + sep + b + sep + c + sep + d + sep + e + post
  {
  }
}
