/** `create_recursive_public_input_only`: a prover whose witness column 0 is the
    public input and every other column is 0, with the identity permutation and
    a zero quotient. The cryptographic work is delegated to the opaque `Services`;
    what is modelled is the padding, the commitments as terms, the exact order of
    the calls on the two sponges, the evaluations and the list handed to the opening.

    The functions below specify each step; the methods perform it the way the
    source does (sponges updated call by call, vectors built by pushing) and are
    proved to agree with them. */
module PublicInputOnlyProver {
  import opened Wrappers
  import opened Field
  import opened Commitment
  import opened ProverTypes
  import opened Transcript

  // ------------------------------------------------------------ padding

  /** Pads the witness with zeros to the domain size; fails when it does not fit. */
  function PadWitness(wit: seq<Scalar>, n: nat): (r: Result<seq<Scalar>, ProverError>)
    ensures r.Err? <==> |wit| > n
    ensures r.Err? ==> r.error == NoRoomForZkInWitness
    ensures r.Ok? ==>
      && |r.value| == n
      && r.value[..|wit|] == wit
      && (forall i :: |wit| <= i < n ==> r.value[i] == 0)
  {
    if |wit| > n then Err(NoRoomForZkInWitness)
    else Ok(wit + seq(n - |wit|, _ => 0))
  }

  // ------------------------------------------------------------ commitments

  /** The non-hiding commitment to the padded witness: one chunk per piece of
      the polynomial the SRS can hold. */
  function UnblindedWitnessCommitment(svc: Services, w: seq<Scalar>): PolyComm {
    seq(svc.witnessChunks(w), (k: nat) => WitnessChunk(w, k))
  }

  /** `unblinded.map(|x| srs.h + x.neg())`: the negated public polynomial, blinded by 1. */
  function PublicCommitment(unblinded: PolyComm): PolyComm {
    seq(|unblinded|, k requires 0 <= k < |unblinded| => Sum(H, Negate(unblinded[k])))
  }

  /** `unblinded.map(|x| x + srs.h)`: the witness commitment, blinded by 1. */
  function BlindWithH(unblinded: PolyComm): PolyComm {
    seq(|unblinded|, k requires 0 <= k < |unblinded| => Sum(unblinded[k], H))
  }

  /** `w_comm`: column 0 is the blinded witness commitment, every other column
      the zero polynomial blinded by 1. */
  function WitnessCommitments(unblinded: PolyComm): ColumnComms {
    [BlindWithH(unblinded)] + seq(COLUMNS - 1, _ => [H])
  }

  /** `z_comm`: the constant polynomial 1, unblinded. */
  function ZCommitment(): PolyComm {
    [G0]
  }

  /** `t_comm.commitment`: the zero polynomial blinded by 1, in 7 chunks. */
  function TCommitment(): PolyComm {
    seq(QUOTIENT_CHUNKS, _ => H)
  }

  /** `t_comm.blinders`: blinding factor 1 for each of the 7 chunks. */
  function TBlinders(): seq<Scalar> {
    seq(QUOTIENT_CHUNKS, _ => 1)
  }

  // ------------------------------------------------------------ Fq-sponge transcript

  function CommitmentEvents(cs: seq<PolyComm>): seq<FqEvent> {
    seq(|cs|, i requires 0 <= i < |cs| => AbsorbCommitment(cs[i]))
  }

  function RecursionCommitments(prev: seq<RecursionChallenge>): seq<PolyComm> {
    seq(|prev|, i requires 0 <= i < |prev| => prev[i].comm)
  }

  /** The Fq-sponge history up to the first challenge: the index digest, the
      recursion commitments, the public commitment, the witness commitments. */
  function FqBeforeChallenges(
    digest: BaseElem, prev: seq<RecursionChallenge>, publicComm: PolyComm, wComm: seq<PolyComm>): seq<FqEvent>
  {
    [AbsorbFq([digest])] + CommitmentEvents(RecursionCommitments(prev))
      + [AbsorbCommitment(publicComm)] + CommitmentEvents(wComm)
  }

  /** What the Fq-sponge yields and its history at each squeeze. */
  datatype FqPhase = FqPhase(
    beta: Scalar, gamma: Scalar, alpha: Scalar, zeta: Scalar, digest: Scalar,
    beforeEvaluations: seq<FqEvent>, log: seq<FqEvent>)

  /** From the history `pre`: squeeze beta, then gamma; absorb `z_comm`; squeeze
      alpha; absorb `t_comm`; squeeze zeta; keep a copy; take the digest. */
  function RunFqSponge(svc: Services, fqSqueeze: seq<FqEvent> -> Scalar, pre: seq<FqEvent>): FqPhase {
    var lBeta := pre + [FqChallenge];
    var lGamma := lBeta + [FqChallenge];
    var lZ := lGamma + [AbsorbCommitment(ZCommitment())];
    var lAlpha := lZ + [FqChallenge];
    var lT := lAlpha + [AbsorbCommitment(TCommitment())];
    var lZeta := lT + [FqChallenge];
    var log := lZeta + [FqDigest];
    FqPhase(fqSqueeze(lBeta), fqSqueeze(lGamma), svc.toField(fqSqueeze(lAlpha)),
      svc.toField(fqSqueeze(lZeta)), fqSqueeze(log), lZeta, log)
  }

  // ------------------------------------------------------------ Fr-sponge transcript

  function RecursionChallengeEvents(prev: seq<RecursionChallenge>): seq<FrEvent> {
    seq(|prev|, i requires 0 <= i < |prev| => AbsorbMultiple(prev[i].chals))
  }

  /** The digest of a fresh Fr-sponge that absorbed every recursion challenge vector in order. */
  function RecursionChallengeDigest(frSqueeze: seq<FrEvent> -> Scalar, prev: seq<RecursionChallenge>): Scalar {
    frSqueeze(RecursionChallengeEvents(prev) + [FrDigest])
  }

  /** The Fr-sponge history up to its first challenge. */
  function FrBeforeChallenges(
    fqDigest: Scalar, prevDigest: Scalar, ftEval1: Scalar,
    publicZeta: Scalar, publicZetaOmega: Scalar, evals: ProofEvaluations): seq<FrEvent>
  {
    [AbsorbFr(fqDigest), AbsorbFr(prevDigest), AbsorbFr(ftEval1),
     AbsorbMultiple([publicZeta]), AbsorbMultiple([publicZetaOmega]), AbsorbEvaluations(evals)]
  }

  // ------------------------------------------------------------ evaluations

  /** `constant_evals`: a constant polynomial's value at both points. */
  function ConstantEvals(x: Scalar): PointEvaluations {
    PointEvaluations([x], [x])
  }

  /** `chunked_evals`: w[0] as computed from the witness polynomial, the identity
      permutation's `x * shift[i]`, the constant coefficient, selector and `z`
      columns, and no optional gate or lookup. */
  function ChunkedEvaluations(shift: PermutShifts, zeta: Scalar, zetaOmega: Scalar, w0: PointEvaluations): ProofEvaluations {
    var s: seq<PointEvaluations> := seq(PERMUTS - 1, i requires 0 <= i < PERMUTS - 1 =>
      PointEvaluations([Mul(zeta, shift[i])], [Mul(zetaOmega, shift[i])]));
    var coefficients: seq<PointEvaluations> := seq(COLUMNS, i => if i == 0 then ConstantEvals(1) else ConstantEvals(0));
    var w: seq<PointEvaluations> := seq(COLUMNS, i => if i == 0 then w0 else ConstantEvals(0));
    var sorted: seq<Option<PointEvaluations>> := seq(LOOKUP_SORTED, _ => None);
    ProofEvaluations(
      s := s,
      coefficients := coefficients,
      w := w,
      z := ConstantEvals(1),
      genericSelector := ConstantEvals(1),
      poseidonSelector := ConstantEvals(0),
      completeAddSelector := ConstantEvals(0),
      mulSelector := ConstantEvals(0),
      emulSelector := ConstantEvals(0),
      endomulScalarSelector := ConstantEvals(0),
      rangeCheck0Selector := None,
      rangeCheck1Selector := None,
      foreignFieldAddSelector := None,
      foreignFieldMulSelector := None,
      xorSelector := None,
      rotSelector := None,
      runtimeLookupTableSelector := None,
      xorLookupSelector := None,
      lookupGateLookupSelector := None,
      rangeCheckLookupSelector := None,
      foreignFieldMulLookupSelector := None,
      lookupAggregation := None,
      lookupTable := None,
      lookupSorted := sorted,
      runtimeLookupTable := None)
  }

  /** `DensePolynomial::evaluate`: the value of a coefficient vector at `x`. */
  function EvalCoeffs(c: seq<Scalar>, x: Scalar): Scalar
    decreases |c|
  {
    if c == [] then 0 else Add(c[0], Mul(x, EvalCoeffs(c[1..], x)))
  }

  // ------------------------------------------------------------ opening list

  function NonHiding(n: nat): seq<Scalar> {
    seq(n, _ => 0)
  }

  function FixedHiding(n: nat): seq<Scalar> {
    seq(n, _ => 1)
  }

  function OnePoly(): Poly {
    Coeffs([1])
  }

  function ZeroPoly(): Poly {
    Coeffs([])
  }

  /** `x * shift`: a permutation polynomial of the identity permutation. */
  function ShiftPoly(shift: Scalar): Poly {
    Coeffs([0, shift])
  }

  /** A recursion challenge's `b` polynomial, with non-hiding blinding of its commitment's size. */
  function RecursionEntry(rc: RecursionChallenge): OpeningEntry {
    OpeningEntry(BPoly(rc.chals), NonHiding(|rc.comm|))
  }

  function ZeroEntry(): OpeningEntry {
    OpeningEntry(ZeroPoly(), FixedHiding(1))
  }

  /** `polynomials_to_open`, in the order the verifier reconstructs it. */
  function OpeningList(
    prev: seq<RecursionChallenge>, publicPoly: Poly, ft: Poly, blindingFt: seq<Scalar>,
    witnessPoly: Poly, shift: PermutShifts): seq<OpeningEntry>
  {
    seq(|prev|, i requires 0 <= i < |prev| => RecursionEntry(prev[i]))
      + [OpeningEntry(publicPoly, FixedHiding(1)),
         OpeningEntry(ft, blindingFt),
         OpeningEntry(OnePoly(), NonHiding(1)),
         OpeningEntry(OnePoly(), NonHiding(1))]
      + seq(5, _ => ZeroEntry())
      + [OpeningEntry(witnessPoly, FixedHiding(1))] + seq(COLUMNS - 1, _ => ZeroEntry())
      + [OpeningEntry(OnePoly(), NonHiding(1))] + seq(COLUMNS - 1, _ => ZeroEntry())
      + seq(PERMUTS - 1, i requires 0 <= i < PERMUTS - 1 => OpeningEntry(ShiftPoly(shift[i]), NonHiding(1)))
  }

  // ------------------------------------------------------------ the whole prover

  /** A prover run: its result and everything each sponge was asked, in order. */
  datatype ProverRun = ProverRun(result: Result<ProverProof, ProverError>, fqLog: seq<FqEvent>, frLog: seq<FrEvent>)

  /** The linearization: `ft(x) = x * (scalar * shift[PERMUTS - 1])`. */
  function Ft(scalar: Scalar, shift: PermutShifts): Poly {
    Coeffs([0, Mul(scalar, shift[PERMUTS - 1])])
  }

  /** The prover after padding. */
  function ProveFromPadded(
    svc: Services, fqSqueeze: seq<FqEvent> -> Scalar, frSqueeze: seq<FrEvent> -> Scalar,
    w: seq<Scalar>, index: VerifierIndex, prev: seq<RecursionChallenge>): ProverRun
  {
    var unblinded := UnblindedWitnessCommitment(svc, w);
    var witnessPoly := Interpolated(w, index.domain);
    var publicPoly := Negated(witnessPoly);
    var publicComm := PublicCommitment(unblinded);
    var wComm := WitnessCommitments(unblinded);
    var fq := RunFqSponge(svc, fqSqueeze, FqBeforeChallenges(svc.indexDigest(index), prev, publicComm, wComm));
    var zeta := fq.zeta;
    var zetaOmega := Mul(zeta, index.domain.groupGen);
    var w0 := PointEvaluations(
      svc.evaluateChunks(witnessPoly, index.maxPolySize, zeta),
      svc.evaluateChunks(witnessPoly, index.maxPolySize, zetaOmega));
    var chunked := ChunkedEvaluations(index.shift, zeta, zetaOmega, w0);
    var zetaToSrsLen := Pow(zeta, index.maxPolySize);
    var zetaOmegaToSrsLen := Pow(zetaOmega, index.maxPolySize);
    var zetaToDomainSize := Pow(zeta, index.domain.size);
    var scalar := svc.permScalars(PermScalarsInput(chunked, zetaToSrsLen, zetaOmegaToSrsLen, fq.beta, fq.gamma, fq.alpha, zeta));
    var ft := Ft(scalar, index.shift);
    var blindingFt := [Sub(0, Mul(Sub(zetaToDomainSize, 1), svc.chunkBlinding(TBlinders(), zetaToSrsLen)))];
    var ftEval1 := EvalCoeffs(ft.c, zetaOmega);
    var frPre := FrBeforeChallenges(
      fq.digest, RecursionChallengeDigest(frSqueeze, prev), ftEval1,
      Neg(svc.combine(w0.zeta, zetaToSrsLen)), Neg(svc.combine(w0.zetaOmega, zetaOmegaToSrsLen)), chunked);
    var lV := frPre + [FrChallenge];
    var lU := lV + [FrChallenge];
    var v := svc.toField(frSqueeze(lV));
    var u := svc.toField(frSqueeze(lU));
    var polys := OpeningList(prev, publicPoly, ft, blindingFt, witnessPoly, index.shift);
    var proof := ProverProof(
      ProverCommitments(wComm, ZCommitment(), TCommitment(), None),
      OpeningProof(polys, [zeta, zetaOmega], v, u, fq.beforeEvaluations),
      chunked, ftEval1, prev);
    ProverRun(Ok(proof), fq.log, lU)
  }

  /** The prover: fails when the index has no SRS, when the witness does not
      fit the domain, or when the SRS has no generator `g[0]` for the z
      commitment. A failure is a panic or an early return, so it leaves no
      sponge history. */
  function Prove(
    svc: Services, fqSqueeze: seq<FqEvent> -> Scalar, frSqueeze: seq<FrEvent> -> Scalar,
    wit: seq<Scalar>, index: VerifierIndex, prev: seq<RecursionChallenge>): ProverRun
  {
    if index.srs.None? then ProverRun(Err(SrsNotSet), [], [])
    else
    match PadWitness(wit, index.domain.size)
    case Err(e) => ProverRun(Err(e), [], [])
    case Ok(w) =>
      if index.srs.value.gLen == 0 then ProverRun(Err(SrsHasNoGenerators), [], [])
      else ProveFromPadded(svc, fqSqueeze, frSqueeze, w, index, prev)
  }

  // ------------------------------------------------------------ the imperative prover

  /** `absorb_commitment` on each commitment in turn. */
  method AbsorbCommitments(fq: Sponge<FqEvent>, cs: seq<PolyComm>)
    modifies fq
    ensures fq.log == old(fq.log) + CommitmentEvents(cs)
  {
    var i := 0;
    while i < |cs|
      invariant 0 <= i <= |cs|
      invariant fq.log == old(fq.log) + CommitmentEvents(cs[..i])
    {
      assert CommitmentEvents(cs[..i + 1]) == CommitmentEvents(cs[..i]) + [AbsorbCommitment(cs[i])];
      fq.Absorb(AbsorbCommitment(cs[i]));
      i := i + 1;
    }
    assert cs[..i] == cs;
  }

  /** The `w_comm` push loop. */
  method BuildWitnessCommitments(unblinded: PolyComm) returns (wComm: ColumnComms)
    ensures wComm == WitnessCommitments(unblinded)
  {
    var pushed: seq<PolyComm> := [BlindWithH(unblinded)];
    var i := 1;
    while i < COLUMNS
      invariant 1 <= i <= COLUMNS
      invariant pushed == [BlindWithH(unblinded)] + seq(i - 1, _ => [H])
    {
      pushed := pushed + [[H]];
      i := i + 1;
    }
    wComm := pushed;
  }

  /** `prev_challenge_digest`: a fresh Fr-sponge absorbs every challenge vector, then digests. */
  method DigestRecursionChallenges(frSqueeze: seq<FrEvent> -> Scalar, prev: seq<RecursionChallenge>) returns (d: Scalar)
    ensures d == RecursionChallengeDigest(frSqueeze, prev)
  {
    var fr := new Sponge<FrEvent>(frSqueeze);
    var i := 0;
    while i < |prev|
      invariant 0 <= i <= |prev|
      invariant fr.squeeze == frSqueeze
      invariant fr.log == RecursionChallengeEvents(prev[..i])
    {
      assert RecursionChallengeEvents(prev[..i + 1]) == RecursionChallengeEvents(prev[..i]) + [AbsorbMultiple(prev[i].chals)];
      fr.Absorb(AbsorbMultiple(prev[i].chals));
      i := i + 1;
    }
    assert prev[..i] == prev;
    d := fr.Squeeze(FrDigest);
  }

  /** `polynomials_to_open`, built by `collect`, `push` and `extend` in the source's order. */
  method BuildOpeningList(
    prev: seq<RecursionChallenge>, publicPoly: Poly, ft: Poly, blindingFt: seq<Scalar>,
    witnessPoly: Poly, shift: PermutShifts) returns (polys: seq<OpeningEntry>)
    ensures polys == OpeningList(prev, publicPoly, ft, blindingFt, witnessPoly, shift)
  {
    polys := [];
    var i := 0;
    while i < |prev|
      invariant 0 <= i <= |prev|
      invariant polys == seq(i, j requires 0 <= j < i => RecursionEntry(prev[j]))
    {
      polys := polys + [RecursionEntry(prev[i])];
      i := i + 1;
    }
    ghost var recursion := polys;
    polys := polys + [OpeningEntry(publicPoly, FixedHiding(1))];
    polys := polys + [OpeningEntry(ft, blindingFt)];
    polys := polys + [OpeningEntry(OnePoly(), NonHiding(1))];
    polys := polys + [OpeningEntry(OnePoly(), NonHiding(1))];
    polys := polys + [ZeroEntry()];
    polys := polys + [ZeroEntry()];
    polys := polys + [ZeroEntry()];
    polys := polys + [ZeroEntry()];
    polys := polys + [ZeroEntry()];
    polys := polys + [OpeningEntry(witnessPoly, FixedHiding(1))];
    ghost var beforeWitnessZeros := polys;
    i := 1;
    while i < COLUMNS
      invariant 1 <= i <= COLUMNS
      invariant polys == beforeWitnessZeros + seq(i - 1, _ => ZeroEntry())
    {
      polys := polys + [ZeroEntry()];
      i := i + 1;
    }
    polys := polys + [OpeningEntry(OnePoly(), NonHiding(1))];
    ghost var beforeCoefficientZeros := polys;
    i := 1;
    while i < COLUMNS
      invariant 1 <= i <= COLUMNS
      invariant polys == beforeCoefficientZeros + seq(i - 1, _ => ZeroEntry())
    {
      polys := polys + [ZeroEntry()];
      i := i + 1;
    }
    ghost var beforePermutation := polys;
    i := 0;
    while i < PERMUTS - 1
      invariant 0 <= i <= PERMUTS - 1
      invariant polys == beforePermutation + seq(i, j requires 0 <= j < i => OpeningEntry(ShiftPoly(shift[j]), NonHiding(1)))
    {
      polys := polys + [OpeningEntry(ShiftPoly(shift[i]), NonHiding(1))];
      i := i + 1;
    }
    assert recursion == seq(|prev|, j requires 0 <= j < |prev| => RecursionEntry(prev[j]));
    assert seq(5, _ => ZeroEntry()) == [ZeroEntry(), ZeroEntry(), ZeroEntry(), ZeroEntry(), ZeroEntry()];
  }

  /** The Fq-sponge part of the prover, from `new` to `digest`: absorbs the index
      digest and the commitments, squeezes beta, gamma, alpha and zeta. */
  method RunFqTranscript(
    svc: Services, fqSqueeze: seq<FqEvent> -> Scalar, indexDigest: BaseElem,
    prev: seq<RecursionChallenge>, publicComm: PolyComm, wComm: ColumnComms)
    returns (phase: FqPhase)
    ensures phase == RunFqSponge(svc, fqSqueeze, FqBeforeChallenges(indexDigest, prev, publicComm, wComm))
  {
    var fq := new Sponge<FqEvent>(fqSqueeze);
    fq.Absorb(AbsorbFq([indexDigest]));
    AbsorbCommitments(fq, RecursionCommitments(prev));
    fq.Absorb(AbsorbCommitment(publicComm));
    AbsorbCommitments(fq, wComm);
    assert fq.log == FqBeforeChallenges(indexDigest, prev, publicComm, wComm);

    var beta := fq.Squeeze(FqChallenge);
    var gamma := fq.Squeeze(FqChallenge);
    fq.Absorb(AbsorbCommitment(ZCommitment()));
    var alphaChal := fq.Squeeze(FqChallenge);
    fq.Absorb(AbsorbCommitment(TCommitment()));
    var zetaChal := fq.Squeeze(FqChallenge);
    var fqSpongeBeforeEvaluations := fq.Clone();
    var digest := fq.Squeeze(FqDigest);
    phase := FqPhase(beta, gamma, svc.toField(alphaChal), svc.toField(zetaChal), digest,
      fqSpongeBeforeEvaluations.log, fq.log);
  }

  /** The main Fr-sponge of the prover: absorbs the Fq digest, the recursion
      challenge digest, `ft_eval1`, the public input evaluations and all
      evaluations, then squeezes v and u. */
  method RunFrTranscript(
    svc: Services, frSqueeze: seq<FrEvent> -> Scalar, fqDigest: Scalar, prev: seq<RecursionChallenge>,
    ftEval1: Scalar, publicZeta: Scalar, publicZetaOmega: Scalar, evals: ProofEvaluations)
    returns (v: Scalar, u: Scalar, log: seq<FrEvent>)
    ensures var pre := FrBeforeChallenges(fqDigest, RecursionChallengeDigest(frSqueeze, prev), ftEval1, publicZeta, publicZetaOmega, evals);
      && log == pre + [FrChallenge] + [FrChallenge]
      && v == svc.toField(frSqueeze(pre + [FrChallenge]))
      && u == svc.toField(frSqueeze(log))
  {
    var fr := new Sponge<FrEvent>(frSqueeze);
    fr.Absorb(AbsorbFr(fqDigest));
    var prevChallengeDigest := DigestRecursionChallenges(frSqueeze, prev);
    fr.Absorb(AbsorbFr(prevChallengeDigest));
    fr.Absorb(AbsorbFr(ftEval1));
    fr.Absorb(AbsorbMultiple([publicZeta]));
    fr.Absorb(AbsorbMultiple([publicZetaOmega]));
    fr.Absorb(AbsorbEvaluations(evals));
    assert fr.log == FrBeforeChallenges(fqDigest, prevChallengeDigest, ftEval1, publicZeta, publicZetaOmega, evals);
    var vChal := fr.Squeeze(FrChallenge);
    v := svc.toField(vChal);
    var uChal := fr.Squeeze(FrChallenge);
    u := svc.toField(uChal);
    log := fr.log;
  }

  /** `ProverProof::create_recursive_public_input_only`. Besides the proof it
      returns the histories of the Fq-sponge and of the main Fr-sponge, so that
      the order of the transcript can be stated. */
  method CreateRecursivePublicInputOnly(
    svc: Services, fqSqueeze: seq<FqEvent> -> Scalar, frSqueeze: seq<FrEvent> -> Scalar,
    wit: seq<Scalar>, index: VerifierIndex, prev: seq<RecursionChallenge>)
    returns (r: Result<ProverProof, ProverError>, fqLog: seq<FqEvent>, frLog: seq<FrEvent>)
    ensures ProverRun(r, fqLog, frLog) == Prove(svc, fqSqueeze, frSqueeze, wit, index, prev)
  {
    var d1Size := index.domain.size;

    // The SRS must have been set on the index.
    if index.srs.None? {
      return Err(SrsNotSet), [], [];
    }

    // Pad the witness to the domain size, or fail when it is too large.
    if d1Size < |wit| {
      return Err(NoRoomForZkInWitness), [], [];
    }
    var lengthPadding := d1Size - |wit|;
    var w := wit + seq(lengthPadding, _ => 0);
    assert PadWitness(wit, d1Size) == Ok(w);

    // `z_comm` is `g[0]` of the SRS, which must therefore have a generator.
    if index.srs.value.gLen == 0 {
      return Err(SrsHasNoGenerators), [], [];
    }

    var unblinded := UnblindedWitnessCommitment(svc, w);
    var witnessPoly := Interpolated(w, index.domain);
    var publicPoly := Negated(witnessPoly);
    var publicComm := PublicCommitment(unblinded);
    var wComm := BuildWitnessCommitments(unblinded);

    var fq := RunFqTranscript(svc, fqSqueeze, svc.indexDigest(index), prev, publicComm, wComm);
    var zeta := fq.zeta;
    var omega := index.domain.groupGen;
    var zetaOmega := Mul(zeta, omega);

    var w0 := PointEvaluations(
      svc.evaluateChunks(witnessPoly, index.maxPolySize, zeta),
      svc.evaluateChunks(witnessPoly, index.maxPolySize, zetaOmega));
    var chunkedEvals := ChunkedEvaluations(index.shift, zeta, zetaOmega, w0);

    var zetaToSrsLen := Pow(zeta, index.maxPolySize);
    var zetaOmegaToSrsLen := Pow(zetaOmega, index.maxPolySize);
    var zetaToDomainSize := Pow(zeta, d1Size);

    var scalar := svc.permScalars(PermScalarsInput(chunkedEvals, zetaToSrsLen, zetaOmegaToSrsLen, fq.beta, fq.gamma, fq.alpha, zeta));
    var ft := Ft(scalar, index.shift);
    var blindingT := svc.chunkBlinding(TBlinders(), zetaToSrsLen);
    var blindingFt := [Sub(0, Mul(Sub(zetaToDomainSize, 1), blindingT))];
    var ftEval1 := EvalCoeffs(ft.c, zetaOmega);

    var v, u, frHistory := RunFrTranscript(svc, frSqueeze, fq.digest, prev, ftEval1,
      Neg(svc.combine(w0.zeta, zetaToSrsLen)), Neg(svc.combine(w0.zetaOmega, zetaOmegaToSrsLen)), chunkedEvals);

    var polynomialsToOpen := BuildOpeningList(prev, publicPoly, ft, blindingFt, witnessPoly, index.shift);
    var openingProof := OpeningProof(polynomialsToOpen, [zeta, zetaOmega], v, u, fq.beforeEvaluations);

    r := Ok(ProverProof(
      ProverCommitments(wComm, ZCommitment(), TCommitment(), None),
      openingProof, chunkedEvals, ftEval1, prev));
    fqLog := fq.log;
    frLog := frHistory;
  }

  /** `create_public_input_only`: the same prover with no recursion challenges. */
  method CreatePublicInputOnly(
    svc: Services, fqSqueeze: seq<FqEvent> -> Scalar, frSqueeze: seq<FrEvent> -> Scalar,
    wit: seq<Scalar>, index: VerifierIndex)
    returns (r: Result<ProverProof, ProverError>, fqLog: seq<FqEvent>, frLog: seq<FrEvent>)
    ensures ProverRun(r, fqLog, frLog) == Prove(svc, fqSqueeze, frSqueeze, wit, index, [])
  {
    r, fqLog, frLog := CreateRecursivePublicInputOnly(svc, fqSqueeze, frSqueeze, wit, index, []);
  }
}
