/** The records the public-input-only prover reads and produces, for the Pallas
    curve (scalars in Fq, base-field elements in Fp). Fixed-size Rust arrays
    are sequences of a fixed length. */
module ProverTypes {
  import opened Wrappers
  import opened Field
  import opened Commitment

  /** Number of witness columns (`circuits::wires::COLUMNS`). */
  const COLUMNS: nat := 15
  /** Number of permutation columns (`circuits::wires::PERMUTS`). */
  const PERMUTS: nat := 7
  /** Number of sorted lookup columns in `ProofEvaluations::lookup_sorted`. */
  const LOOKUP_SORTED: nat := 5
  /** Number of chunks of the quotient commitment. */
  const QUOTIENT_CHUNKS: nat := 7

  type Scalar = Fq
  type BaseElem = Fp

  /** `domain.d1`: size and generator of the evaluation domain. */
  datatype Domain = Domain(size: nat, groupGen: Scalar)

  // ------------------------------------------------------------ verifier index

  datatype LookupPatterns = LookupPatterns(xor: bool, lookup: bool, rangeCheck: bool, foreignFieldMul: bool)
  datatype LookupFeatures = LookupFeatures(patterns: LookupPatterns, jointLookupUsed: bool, usesRuntimeTables: bool)
  datatype FeatureFlags = FeatureFlags(
    rangeCheck0: bool,
    rangeCheck1: bool,
    lookupFeatures: LookupFeatures,
    foreignFieldAdd: bool,
    foreignFieldMul: bool,
    xor: bool,
    rot: bool)

  /** The opaque result of `expr_linearization(Some(&flags), generic)`,
      recorded by its arguments. */
  datatype Linearization = ExprLinearization(flags: FeatureFlags, generic: bool)

  /** The lookup part of a verifier index; its content is not part of this model. */
  datatype LookupVerifierIndex = LookupVerifierIndex

  type PermutShifts = s: seq<Scalar> | |s| == PERMUTS witness seq(PERMUTS, _ => 0)
  type PermutComms = s: seq<PolyComm> | |s| == PERMUTS witness seq(PERMUTS, _ => [])
  type ColumnComms = s: seq<PolyComm> | |s| == COLUMNS witness seq(COLUMNS, _ => [])

  datatype VerifierIndex = VerifierIndex(
    domain: Domain,
    maxPolySize: nat,
    /** The `OnceCell` holding the SRS; `None` when it was never set. */
    srs: Option<Srs>,
    public: nat,
    prevChallenges: nat,
    sigmaComm: PermutComms,
    coefficientsComm: ColumnComms,
    genericComm: PolyComm,
    psmComm: PolyComm,
    completeAddComm: PolyComm,
    mulComm: PolyComm,
    emulComm: PolyComm,
    endomulScalarComm: PolyComm,
    rangeCheck0Comm: Option<PolyComm>,
    rangeCheck1Comm: Option<PolyComm>,
    foreignFieldAddComm: Option<PolyComm>,
    foreignFieldMulComm: Option<PolyComm>,
    xorComm: Option<PolyComm>,
    rotComm: Option<PolyComm>,
    shift: PermutShifts,
    endo: Scalar,
    lookupIndex: Option<LookupVerifierIndex>,
    linearization: Linearization)

  // ------------------------------------------------------------ evaluations

  /** Evaluations of one polynomial, chunk by chunk, at zeta and at zeta * omega. */
  datatype PointEvaluations = PointEvaluations(zeta: seq<Scalar>, zetaOmega: seq<Scalar>)

  type PermutEvals = s: seq<PointEvaluations> | |s| == PERMUTS - 1 witness seq(PERMUTS - 1, _ => PointEvaluations([], []))
  type ColumnEvals = s: seq<PointEvaluations> | |s| == COLUMNS witness seq(COLUMNS, _ => PointEvaluations([], []))
  type SortedEvals = s: seq<Option<PointEvaluations>> | |s| == LOOKUP_SORTED witness seq(LOOKUP_SORTED, _ => None)

  datatype ProofEvaluations = ProofEvaluations(
    s: PermutEvals,
    coefficients: ColumnEvals,
    w: ColumnEvals,
    z: PointEvaluations,
    genericSelector: PointEvaluations,
    poseidonSelector: PointEvaluations,
    completeAddSelector: PointEvaluations,
    mulSelector: PointEvaluations,
    emulSelector: PointEvaluations,
    endomulScalarSelector: PointEvaluations,
    rangeCheck0Selector: Option<PointEvaluations>,
    rangeCheck1Selector: Option<PointEvaluations>,
    foreignFieldAddSelector: Option<PointEvaluations>,
    foreignFieldMulSelector: Option<PointEvaluations>,
    xorSelector: Option<PointEvaluations>,
    rotSelector: Option<PointEvaluations>,
    runtimeLookupTableSelector: Option<PointEvaluations>,
    xorLookupSelector: Option<PointEvaluations>,
    lookupGateLookupSelector: Option<PointEvaluations>,
    rangeCheckLookupSelector: Option<PointEvaluations>,
    foreignFieldMulLookupSelector: Option<PointEvaluations>,
    lookupAggregation: Option<PointEvaluations>,
    lookupTable: Option<PointEvaluations>,
    lookupSorted: SortedEvals,
    runtimeLookupTable: Option<PointEvaluations>)

  // ------------------------------------------------------------ polynomials and opening

  /** Polynomials handed to the opening, symbolically: in coefficient form, the
      interpolation of the padded witness, a negation, or the `b` polynomial of a
      recursion challenge (`b_poly_coefficients`). */
  datatype Poly =
    | Coeffs(c: seq<Scalar>)
    | Interpolated(evals: seq<Scalar>, domain: Domain)
    | Negated(p: Poly)
    | BPoly(chals: seq<Scalar>)

  /** One `(polynomial, shift, blinding)` triple of the opening list; the shift is always `None`. */
  datatype OpeningEntry = OpeningEntry(poly: Poly, blinding: seq<Scalar>)

  datatype RecursionChallenge = RecursionChallenge(chals: seq<Scalar>, comm: PolyComm)

  /** The calls made on the Fq-sponge. `AbsorbCommitment` stands for
      `absorb_commitment`, which absorbs the commitment's chunks. */
  datatype FqEvent =
    | AbsorbFq(xs: seq<BaseElem>)
    | AbsorbCommitment(c: PolyComm)
    | FqChallenge
    | FqDigest

  /** The calls made on an Fr-sponge. */
  datatype FrEvent =
    | AbsorbFr(x: Scalar)
    | AbsorbMultiple(xs: seq<Scalar>)
    | AbsorbEvaluations(e: ProofEvaluations)
    | FrChallenge
    | FrDigest

  /** The opaque `srs.open` call, recorded by its arguments: the polynomials, the
      evaluation points, the challenges v and u and the Fq-sponge state handed over. */
  datatype OpeningProof = OpeningProof(
    polys: seq<OpeningEntry>,
    points: seq<Scalar>,
    v: Scalar,
    u: Scalar,
    sponge: seq<FqEvent>)

  /** The lookup commitments of a proof; their content is not part of this model. */
  datatype LookupCommitments = LookupCommitments

  datatype ProverCommitments = ProverCommitments(
    wComm: ColumnComms,
    zComm: PolyComm,
    tComm: PolyComm,
    lookup: Option<LookupCommitments>)

  datatype ProverProof = ProverProof(
    commitments: ProverCommitments,
    proof: OpeningProof,
    evals: ProofEvaluations,
    ftEval1: Scalar,
    prevChallenges: seq<RecursionChallenge>)

  /** How the prover fails: `NoRoomForZkInWitness` is the source's error;
      `SrsNotSet` stands for the panic of `index.srs.get().unwrap()` on an
      index whose SRS cell is empty, and `SrsHasNoGenerators` for the panic of
      `srs.g[0]` when the z commitment is built from an SRS without generators. */
  datatype ProverError = NoRoomForZkInWitness | SrsNotSet | SrsHasNoGenerators

  /** Arguments of the opaque `perm_scalars` call (alphas and the zero-knowledge
      polynomial are derived inside from `alpha` and `zeta`). */
  datatype PermScalarsInput = PermScalarsInput(
    chunkedEvals: ProofEvaluations,
    zetaToSrsLen: Scalar,
    zetaOmegaToSrsLen: Scalar,
    beta: Scalar,
    gamma: Scalar,
    alpha: Scalar,
    zeta: Scalar)

  /** The opaque collaborators of the prover, as functions. */
  datatype Services = Services(
    /** `index.digest()` */
    indexDigest: VerifierIndex -> BaseElem,
    /** number of chunks of `commit_evaluations_non_hiding` on the padded witness */
    witnessChunks: seq<Scalar> -> nat,
    /** `to_chunked_polynomial(max_poly_size).evaluate_chunks(point)` */
    evaluateChunks: (Poly, nat, Scalar) -> seq<Scalar>,
    /** `combine` of one chunked evaluation with the power of its point */
    combine: (seq<Scalar>, Scalar) -> Scalar,
    /** `perm_scalars` */
    permScalars: PermScalarsInput -> Scalar,
    /** `PolyComm::chunk_blinding` */
    chunkBlinding: (seq<Scalar>, Scalar) -> Scalar,
    /** `ScalarChallenge::to_field` with the endomorphism coefficient `endo_r` */
    toField: Scalar -> Scalar)

  /** A commitment always has at least one chunk, so the non-hiding witness
      commitment does too. */
  ghost predicate ValidServices(svc: Services) {
    forall w :: svc.witnessChunks(w) >= 1
  }

  /** Every non-hiding witness commitment has exactly one chunk, as the prover
      presupposes when it opens the witness and public polynomials with the
      one-element blinding `fixed_hiding(1)`. */
  ghost predicate SingleChunkServices(svc: Services) {
    forall w :: svc.witnessChunks(w) == 1
  }
}
