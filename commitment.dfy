/** Symbolic polynomial commitments. A commitment is never computed: it is a term
    over the SRS generators `g[0]`, `g[1]` and the blinding generator `h`, the
    chunks of the (opaque) non-hiding witness commitment, point sum and negation. */
module Commitment {
  import opened Field

  datatype Comm =
    | G0                      // srs.g[0]: commits to the constant polynomial 1
    | G1Scaled(s: Fq)         // srs.g[1] * s: commits to the polynomial s * x
    | H                       // srs.h: the blinding generator
    | WitnessChunk(w: seq<Fq>, k: nat)  // chunk k of the non-hiding commitment to the witness w
    | Sum(a: Comm, b: Comm)
    | Negate(a: Comm)

  /** The `unshifted` chunks of a `PolyComm`; `shifted` is `None` everywhere in this core. */
  type PolyComm = seq<Comm>

  /** The part of an SRS the core reads: the number of generators `g`;
      `g[0]`, `g[1]` and `h` are the symbols above. */
  datatype Srs = Srs(gLen: nat)

  /** True when the term involves the blinding generator `h`. */
  predicate MentionsH(c: Comm) {
    match c
    case H => true
    case Sum(a, b) => MentionsH(a) || MentionsH(b)
    case Negate(a) => MentionsH(a)
    case _ => false
  }

  /** A commitment whose every chunk carries the blinding generator. */
  predicate Blinded(pc: PolyComm) {
    |pc| > 0 && forall k :: 0 <= k < |pc| ==> MentionsH(pc[k])
  }

  /** A commitment none of whose chunks carries the blinding generator. */
  predicate Unblinded(pc: PolyComm) {
    forall k :: 0 <= k < |pc| ==> !MentionsH(pc[k])
  }

  /** True when the term depends on the witness. */
  predicate MentionsWitness(c: Comm) {
    match c
    case WitnessChunk(_, _) => true
    case Sum(a, b) => MentionsWitness(a) || MentionsWitness(b)
    case Negate(a) => MentionsWitness(a)
    case _ => false
  }

  /** `make_comm`: a one-chunk, unshifted commitment. */
  function MakeComm(c: Comm): (pc: PolyComm)
    ensures |pc| == 1 && pc[0] == c
  {
    [c]
  }
}
