/** A Fiat–Shamir sponge seen only through the order of the calls made on it.
    Every absorb or squeeze appends one event to an append-only log; a squeeze
    answers `squeeze(log)` for the log that ends with that squeeze, so whatever
    the sponge returns is a function of everything absorbed and squeezed before.
    The concrete permutation (Poseidon) is not part of this model. */
module Transcript {
  import opened Field

  class Sponge<E> {
    /** The sponge's answer as a function of its whole call history. */
    const squeeze: seq<E> -> Fq
    /** Every call made on the sponge so far, oldest first. */
    var log: seq<E>

    /** `new`: a sponge with an empty history. */
    constructor (squeeze: seq<E> -> Fq)
      ensures this.squeeze == squeeze && log == []
    {
      this.squeeze := squeeze;
      log := [];
    }

    /** Any absorb: record the absorbed value, return nothing. */
    method Absorb(e: E)
      modifies this
      ensures log == old(log) + [e]
    {
      log := log + [e];
    }

    /** `challenge` or `digest`: record the squeeze `e` and answer from the history that ends with it. */
    method Squeeze(e: E) returns (c: Fq)
      modifies this
      ensures log == old(log) + [e]
      ensures c == squeeze(log)
    {
      log := log + [e];
      c := squeeze(log);
    }

    /** `clone`: an independent sponge with the same history. */
    method Clone() returns (s: Sponge<E>)
      ensures fresh(s) && s.squeeze == squeeze && s.log == log
    {
      s := new Sponge(squeeze);
      s.log := log;
    }
  }
}
