/** Facts about sequences that several modules lean on. */
module Seqs {
  /** Concatenation regroups freely; stated once so that callers need not rediscover it. */
  lemma Associative<T>(x: seq<T>, y: seq<T>, z: seq<T>)
    ensures x + (y + z) == (x + y) + z
  {
  }
}
