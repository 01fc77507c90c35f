/** `DummySponge`: the deterministic test double of the Fq-sponge capability,
    for the Vesta curve (base field Fq, scalar field Fp). It has no state:
    absorbs do nothing and every challenge and digest is 1. */
module DummySponge {
  import opened Field
  import opened Commitment

  /** The Poseidon parameters handed to `new`; their content is not part of this model. */
  datatype SpongeParams = SpongeParams(id: nat)

  /** The sponge has no fields. */
  datatype DummySponge = DummySponge

  /** `new`: ignores its parameters. */
  function New(params: SpongeParams): DummySponge {
    DummySponge
  }

  /** `new` ignores its parameters: every two calls give the same sponge. */
  lemma NewIgnoresParameters(p1: SpongeParams, p2: SpongeParams)
    ensures New(p1) == New(p2)
  {
  }

  /** `absorb_g`: leaves the sponge as it was. The source absorbs Vesta affine
      points; the argument is ignored, so the model's symbolic commitments
      stand in for them. */
  function AbsorbG(s: DummySponge, g: seq<Comm>): (r: DummySponge)
    ensures r == s
  {
    s
  }

  /** `absorb_fq`: leaves the sponge as it was. */
  function AbsorbFq(s: DummySponge, x: seq<Fq>): (r: DummySponge)
    ensures r == s
  {
    s
  }

  /** `absorb_fr`: leaves the sponge as it was. */
  function AbsorbFr(s: DummySponge, x: seq<Fp>): (r: DummySponge)
    ensures r == s
  {
    s
  }

  /** `challenge`: the scalar 1, the sponge unchanged. */
  function Challenge(s: DummySponge): (r: (DummySponge, Fp))
    ensures r.0 == s && r.1 == 1
  {
    (s, 1)
  }

  /** `challenge_fq`: the base-field element 1, the sponge unchanged. */
  function ChallengeFq(s: DummySponge): (r: (DummySponge, Fq))
    ensures r.0 == s && r.1 == 1
  {
    (s, 1)
  }

  /** `digest`: consumes the sponge and returns the scalar 1. */
  function Digest(s: DummySponge): (r: Fp)
    ensures r == 1
  {
    1
  }

  /** `digest_fq`: consumes the sponge and returns the base-field element 1. */
  function DigestFq(s: DummySponge): (r: Fq)
    ensures r == 1
  {
    1
  }

  /** One call of the `FqSponge` interface that keeps the sponge alive. */
  datatype Call =
    | CallAbsorbG(g: seq<Comm>)
    | CallAbsorbFq(xs: seq<Fq>)
    | CallAbsorbFr(ys: seq<Fp>)
    | CallChallenge
    | CallChallengeFq

  /** Applies one call; answers the challenge value, if the call squeezes one. */
  function Step(s: DummySponge, c: Call): (DummySponge, seq<int>) {
    match c
    case CallAbsorbG(g) => (AbsorbG(s, g), [])
    case CallAbsorbFq(xs) => (AbsorbFq(s, xs), [])
    case CallAbsorbFr(ys) => (AbsorbFr(s, ys), [])
    case CallChallenge => var (s', v) := Challenge(s); (s', [v])
    case CallChallengeFq => var (s', v) := ChallengeFq(s); (s', [v])
  }

  /** Runs a history of calls on the sponge, collecting the challenges in order. */
  function Replay(s: DummySponge, calls: seq<Call>): (DummySponge, seq<int>) {
    if calls == [] then (s, [])
    else
      var (s', before) := Replay(s, calls[..|calls| - 1]);
      var (s'', now) := Step(s', calls[|calls| - 1]);
      (s'', before + now)
  }

  predicate IsSqueeze(c: Call) {
    c.CallChallenge? || c.CallChallengeFq?
  }

  /** The answers of a log sponge with answer function `squeeze` to the same
      history: each squeeze answers `squeeze` of the history up to and including it. */
  function LogAnswers(squeeze: seq<Call> -> Fq, calls: seq<Call>): seq<int> {
    if calls == [] then []
    else
      LogAnswers(squeeze, calls[..|calls| - 1])
        + (if IsSqueeze(calls[|calls| - 1]) then [squeeze(calls)] else [])
  }

  /** The answer function of the dummy sponge: 1 whatever the history. */
  function ConstantOne<E>(history: seq<E>): Fq {
    1
  }

  /** Whatever was absorbed and squeezed before, the dummy sponge stays the same
      sponge and answers 1 to every challenge; this is exactly what the log sponge
      with answer function `ConstantOne` answers, so the dummy sponge is an
      instance of the transcript model. */
  lemma {:induction false} ReplayMatchesConstantLog(s: DummySponge, calls: seq<Call>)
    ensures Replay(s, calls).0 == s
    ensures Replay(s, calls).1 == LogAnswers(ConstantOne<Call>, calls)
    ensures forall k :: 0 <= k < |Replay(s, calls).1| ==> Replay(s, calls).1[k] == 1
  {
    if calls != [] {
      ReplayMatchesConstantLog(s, calls[..|calls| - 1]);
    }
  }

  /** After any history, the digests are still 1. */
  lemma DigestAfterReplay(s: DummySponge, calls: seq<Call>)
    ensures Digest(Replay(s, calls).0) == 1 && DigestFq(Replay(s, calls).0) == 1
  {
  }
}
