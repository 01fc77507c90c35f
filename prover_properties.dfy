/** What the public-input-only prover guarantees: the witness padding, the fixed
    order of both Fiat–Shamir transcripts, the shapes of the commitments and
    evaluations, the layout of the opening list, and its agreement with the
    verifier index and with the claimed evaluations. */
module ProverProperties {
  import opened Wrappers
  import opened Field
  import opened Commitment
  import opened ProverTypes
  import opened VerifierIndexBuild
  import opened PublicInputOnlyProver
  import DummySponge

  // ------------------------------------------------------------ padding

  /** The prover fails exactly when the index has no SRS (a panic), the
      witness is longer than the domain (`NoRoomForZkInWitness`), or the SRS
      has no generator for the z commitment (a panic), checked in that order,
      and a failure leaves no sponge history; otherwise it produces a proof. */
  lemma ProveFailureCases(
    svc: Services, fqSqueeze: seq<FqEvent> -> Scalar, frSqueeze: seq<FrEvent> -> Scalar,
    wit: seq<Scalar>, index: VerifierIndex, prev: seq<RecursionChallenge>)
    ensures var run := Prove(svc, fqSqueeze, frSqueeze, wit, index, prev);
      && (run.result.Err? <==> index.srs.None? || |wit| > index.domain.size || index.srs.value.gLen == 0)
      && (run.result.Err? ==> run.fqLog == [] && run.frLog == [])
      && (run.result.Err? ==> (run.result.error == SrsNotSet <==> index.srs.None?))
      && (run.result.Err? ==>
            (run.result.error == NoRoomForZkInWitness <==> index.srs.Some? && |wit| > index.domain.size))
      && (run.result.Err? ==>
            (run.result.error == SrsHasNoGenerators <==>
               index.srs.Some? && |wit| <= index.domain.size && index.srs.value.gLen == 0))
      && (run.result.Ok? ==> run.result.value.prevChallenges == prev)
  {
  }

  // ------------------------------------------------------------ Fq-sponge order

  /** Layout of the Fq history before the first challenge. */
  lemma FqBeforeChallengesLayout(
    digest: BaseElem, prev: seq<RecursionChallenge>, publicComm: PolyComm, wComm: seq<PolyComm>)
    ensures var pre := FqBeforeChallenges(digest, prev, publicComm, wComm);
      var k := |prev|;
      && |pre| == k + 2 + |wComm|
      && pre[0] == AbsorbFq([digest])
      && (forall i :: 0 <= i < k ==> pre[1 + i] == AbsorbCommitment(prev[i].comm))
      && pre[k + 1] == AbsorbCommitment(publicComm)
      && (forall j :: 0 <= j < |wComm| ==> pre[k + 2 + j] == AbsorbCommitment(wComm[j]))
  {
    var k := |prev|;
    var a := [AbsorbFq([digest])];
    var b := CommitmentEvents(RecursionCommitments(prev));
    var c := [AbsorbCommitment(publicComm)];
    var d := CommitmentEvents(wComm);
    var pre := FqBeforeChallenges(digest, prev, publicComm, wComm);
    assert pre == a + b + c + d;
    forall i | 0 <= i < k
      ensures pre[1 + i] == AbsorbCommitment(prev[i].comm)
    {
      assert pre[1 + i] == b[i];
    }
    forall j | 0 <= j < |wComm|
      ensures pre[k + 2 + j] == AbsorbCommitment(wComm[j])
    {
      assert pre[k + 2 + j] == d[j];
    }
  }

  /** The Fq-sponge is called in this order and no other: absorb the index
      digest; absorb each recursion commitment in list order; absorb the public
      commitment `h - witness_comm`; absorb the COLUMNS witness commitments in
      column order; squeeze beta, then gamma; absorb `z_comm`; squeeze alpha;
      absorb `t_comm`; squeeze zeta; digest. The opening receives the history
      before the digest, and the evaluation points are derived from the zeta squeeze. */
  lemma FqTranscriptOrder(
    svc: Services, fqSqueeze: seq<FqEvent> -> Scalar, frSqueeze: seq<FrEvent> -> Scalar,
    wit: seq<Scalar>, index: VerifierIndex, prev: seq<RecursionChallenge>)
    requires index.srs.Some? && index.srs.value.gLen > 0 && |wit| <= index.domain.size
    ensures var run := Prove(svc, fqSqueeze, frSqueeze, wit, index, prev);
      var unblinded := UnblindedWitnessCommitment(svc, PadWitness(wit, index.domain.size).value);
      var t := run.fqLog;
      var k := |prev|;
      var c := COLUMNS;
      && run.result.Ok?
      && |t| == k + c + 9
      && t[0] == AbsorbFq([svc.indexDigest(index)])
      && (forall i :: 0 <= i < k ==> t[1 + i] == AbsorbCommitment(prev[i].comm))
      && t[k + 1] == AbsorbCommitment(PublicCommitment(unblinded))
      && (forall j :: 0 <= j < c ==> t[k + 2 + j] == AbsorbCommitment(run.result.value.commitments.wComm[j]))
      && t[k + c + 2] == FqChallenge
      && t[k + c + 3] == FqChallenge
      && t[k + c + 4] == AbsorbCommitment(run.result.value.commitments.zComm)
      && t[k + c + 5] == FqChallenge
      && t[k + c + 6] == AbsorbCommitment(run.result.value.commitments.tComm)
      && t[k + c + 7] == FqChallenge
      && t[k + c + 8] == FqDigest
      && run.result.value.proof.sponge == t[..k + c + 8]
      && run.result.value.proof.points
           == [svc.toField(fqSqueeze(t[..k + c + 8])), Mul(svc.toField(fqSqueeze(t[..k + c + 8])), index.domain.groupGen)]
  {
    var w := PadWitness(wit, index.domain.size).value;
    var unblinded := UnblindedWitnessCommitment(svc, w);
    var publicComm := PublicCommitment(unblinded);
    var wComm := WitnessCommitments(unblinded);
    var pre := FqBeforeChallenges(svc.indexDigest(index), prev, publicComm, wComm);
    FqBeforeChallengesLayout(svc.indexDigest(index), prev, publicComm, wComm);
    var phase := RunFqSponge(svc, fqSqueeze, pre);
    var k := |prev|;
    assert phase.log == pre + [FqChallenge, FqChallenge, AbsorbCommitment(ZCommitment()), FqChallenge,
      AbsorbCommitment(TCommitment()), FqChallenge, FqDigest];
    assert phase.beforeEvaluations == phase.log[..k + COLUMNS + 8];
  }

  /** The Fq challenges see the witness: two different padded witnesses give
      different public commitments, so the histories from which beta (and
      every later challenge) is squeezed differ. */
  lemma FqTranscriptSeesWitness(
    svc: Services, fqSqueeze: seq<FqEvent> -> Scalar, frSqueeze: seq<FrEvent> -> Scalar,
    wit1: seq<Scalar>, wit2: seq<Scalar>, index: VerifierIndex, prev: seq<RecursionChallenge>)
    requires ValidServices(svc)
    requires index.srs.Some? && index.srs.value.gLen > 0 && |wit1| <= index.domain.size && |wit2| <= index.domain.size
    requires PadWitness(wit1, index.domain.size).value != PadWitness(wit2, index.domain.size).value
    ensures var t1 := Prove(svc, fqSqueeze, frSqueeze, wit1, index, prev).fqLog;
      var t2 := Prove(svc, fqSqueeze, frSqueeze, wit2, index, prev).fqLog;
      var k := |prev|;
      && |t1| == |t2| == k + COLUMNS + 9
      && t1[k + 1] != t2[k + 1]
      && t1[..k + COLUMNS + 3] != t2[..k + COLUMNS + 3]
  {
    var k := |prev|;
    var w1 := PadWitness(wit1, index.domain.size).value;
    var w2 := PadWitness(wit2, index.domain.size).value;
    var t1 := Prove(svc, fqSqueeze, frSqueeze, wit1, index, prev).fqLog;
    var t2 := Prove(svc, fqSqueeze, frSqueeze, wit2, index, prev).fqLog;
    FqTranscriptOrder(svc, fqSqueeze, frSqueeze, wit1, index, prev);
    FqTranscriptOrder(svc, fqSqueeze, frSqueeze, wit2, index, prev);
    var p1 := PublicCommitment(UnblindedWitnessCommitment(svc, w1));
    var p2 := PublicCommitment(UnblindedWitnessCommitment(svc, w2));
    assert svc.witnessChunks(w1) >= 1 && svc.witnessChunks(w2) >= 1;
    assert p1[0] == Sum(H, Negate(WitnessChunk(w1, 0)));
    assert p2[0] == Sum(H, Negate(WitnessChunk(w2, 0)));
    assert t1[k + 1] == AbsorbCommitment(p1) && t2[k + 1] == AbsorbCommitment(p2);
    assert t1[..k + COLUMNS + 3][k + 1] == t1[k + 1];
    assert t2[..k + COLUMNS + 3][k + 1] == t2[k + 1];
  }

  // ------------------------------------------------------------ Fr-sponge order

  /** The main Fr-sponge is called in this order and no other: absorb the Fq
      digest; absorb the digest of a fresh sponge that absorbed every recursion
      challenge vector in order; absorb `ft_eval1`; absorb `-w[0](zeta)`, then
      `-w[0](zeta * omega)`; absorb all evaluations; squeeze v, then u. */
  lemma FrTranscriptOrder(
    svc: Services, fqSqueeze: seq<FqEvent> -> Scalar, frSqueeze: seq<FrEvent> -> Scalar,
    wit: seq<Scalar>, index: VerifierIndex, prev: seq<RecursionChallenge>)
    requires index.srs.Some? && index.srs.value.gLen > 0 && |wit| <= index.domain.size
    ensures var run := Prove(svc, fqSqueeze, frSqueeze, wit, index, prev);
      var f := run.frLog;
      var p := run.result.value;
      var zeta := p.proof.points[0];
      var zetaOmega := p.proof.points[1];
      && run.result.Ok?
      && |f| == 8
      && f[0] == AbsorbFr(fqSqueeze(run.fqLog))
      && f[1] == AbsorbFr(frSqueeze(RecursionChallengeEvents(prev) + [FrDigest]))
      && f[2] == AbsorbFr(p.ftEval1)
      && f[3] == AbsorbMultiple([Neg(svc.combine(p.evals.w[0].zeta, Pow(zeta, index.maxPolySize)))])
      && f[4] == AbsorbMultiple([Neg(svc.combine(p.evals.w[0].zetaOmega, Pow(zetaOmega, index.maxPolySize)))])
      && f[5] == AbsorbEvaluations(p.evals)
      && f[6] == FrChallenge && f[7] == FrChallenge
      && p.proof.v == svc.toField(frSqueeze(f[..7]))
      && p.proof.u == svc.toField(frSqueeze(f))
  {
    var run := Prove(svc, fqSqueeze, frSqueeze, wit, index, prev);
    assert run.frLog[..7] == run.frLog[..6] + [FrChallenge];
  }

  /** The history the recursion digest is squeezed from determines the
      challenge vectors: two lists of recursion challenges give the same
      history exactly when they have the same vectors in the same order. */
  lemma RecursionDigestSeesChallenges(p1: seq<RecursionChallenge>, p2: seq<RecursionChallenge>)
    ensures RecursionChallengeEvents(p1) + [FrDigest] == RecursionChallengeEvents(p2) + [FrDigest]
      <==> |p1| == |p2| && forall i :: 0 <= i < |p1| ==> p1[i].chals == p2[i].chals
  {
    var e1, e2 := RecursionChallengeEvents(p1), RecursionChallengeEvents(p2);
    if e1 + [FrDigest] == e2 + [FrDigest] {
      assert e1 == (e1 + [FrDigest])[..|e1|];
      assert e2 == (e2 + [FrDigest])[..|e2|];
      forall i | 0 <= i < |p1|
        ensures p1[i].chals == p2[i].chals
      {
        assert e1[i] == AbsorbMultiple(p1[i].chals);
        assert e2[i] == AbsorbMultiple(p2[i].chals);
      }
    }
    if |p1| == |p2| && forall i :: 0 <= i < |p1| ==> p1[i].chals == p2[i].chals {
      assert e1 == e2;
    }
  }

  // ------------------------------------------------------------ commitments

  /** The commitments the prover sends: column 0 is the non-hiding witness
      commitment blinded by `h` chunk by chunk, the public commitment is
      `h - witness_comm` chunk by chunk, every other column and every quotient
      chunk is `h`, and `z` is `g[0]`. Every witness column and the public
      commitment are blinded. The witness chunks are chunks of the commitment
      to the padded witness itself. */
  lemma CommitmentShapes(
    svc: Services, fqSqueeze: seq<FqEvent> -> Scalar, frSqueeze: seq<FrEvent> -> Scalar,
    wit: seq<Scalar>, index: VerifierIndex, prev: seq<RecursionChallenge>)
    requires ValidServices(svc)
    requires index.srs.Some? && index.srs.value.gLen > 0 && |wit| <= index.domain.size
    ensures var run := Prove(svc, fqSqueeze, frSqueeze, wit, index, prev);
      var w := PadWitness(wit, index.domain.size).value;
      var unblinded := UnblindedWitnessCommitment(svc, w);
      var cm := run.result.value.commitments;
      && run.result.Ok?
      && |unblinded| == svc.witnessChunks(PadWitness(wit, index.domain.size).value)
      && |cm.wComm[0]| == |unblinded| == |PublicCommitment(unblinded)|
      && (forall k :: 0 <= k < |unblinded| ==>
            cm.wComm[0][k] == Sum(WitnessChunk(w, k), H) && PublicCommitment(unblinded)[k] == Sum(H, Negate(WitnessChunk(w, k))))
      && (forall j :: 1 <= j < COLUMNS ==> cm.wComm[j] == [H])
      && cm.zComm == [G0] && Unblinded(cm.zComm)
      && |cm.tComm| == QUOTIENT_CHUNKS && (forall k :: 0 <= k < QUOTIENT_CHUNKS ==> cm.tComm[k] == H)
      && Blinded(cm.tComm)
      && cm.lookup.None?
      && (forall j :: 0 <= j < COLUMNS ==> Blinded(cm.wComm[j])) && Blinded(PublicCommitment(unblinded))
  {
    var w := PadWitness(wit, index.domain.size).value;
    var unblinded := UnblindedWitnessCommitment(svc, w);
    var run := Prove(svc, fqSqueeze, frSqueeze, wit, index, prev);
    assert run.result.value.commitments == ProverCommitments(WitnessCommitments(unblinded), ZCommitment(), TCommitment(), None);
    WitnessCommitmentShapes(w, unblinded);
    assert Blinded(TCommitment());
  }

  lemma WitnessCommitmentShapes(w: seq<Scalar>, unblinded: PolyComm)
    requires forall k :: 0 <= k < |unblinded| ==> unblinded[k] == WitnessChunk(w, k)
    ensures var wComm := WitnessCommitments(unblinded);
      && |wComm[0]| == |unblinded| == |PublicCommitment(unblinded)|
      && (forall k :: 0 <= k < |unblinded| ==>
            wComm[0][k] == Sum(WitnessChunk(w, k), H) && PublicCommitment(unblinded)[k] == Sum(H, Negate(WitnessChunk(w, k))))
      && (forall j :: 1 <= j < COLUMNS ==> wComm[j] == [H])
      && (|unblinded| > 0 ==> (forall j :: 0 <= j < COLUMNS ==> Blinded(wComm[j])) && Blinded(PublicCommitment(unblinded)))
  {
    var wComm := WitnessCommitments(unblinded);
    if |unblinded| > 0 {
      forall j | 0 <= j < COLUMNS
        ensures Blinded(wComm[j])
      {
        if j == 0 {
          assert forall k :: 0 <= k < |unblinded| ==> MentionsH(wComm[0][k]);
        } else {
          assert wComm[j] == [H];
        }
      }
      assert forall k :: 0 <= k < |unblinded| ==> MentionsH(PublicCommitment(unblinded)[k]);
    }
  }

  // ------------------------------------------------------------ evaluations

  /** The evaluations the proof claims, in the order their polynomials are
      opened after `ft`: `z`, the six selectors, the witness columns, the
      coefficient columns, and the first PERMUTS - 1 permutation columns. */
  function ClaimedEvaluations(e: ProofEvaluations): seq<PointEvaluations> {
    [e.z, e.genericSelector, e.poseidonSelector, e.completeAddSelector, e.mulSelector, e.emulSelector,
     e.endomulScalarSelector] + e.w + e.coefficients + e.s
  }

  const OPENED_AFTER_FT: nat := 7 + 2 * COLUMNS + PERMUTS - 1

  /** The evaluations a public-input-only proof carries: only the generic gate
      and its constant-one coefficient are 1, every other selector and column
      is 0 apart from w[0] (the witness polynomial's chunks) and the permutation
      columns (`zeta * shift[i]`, `zeta * omega * shift[i]`); no optional gate
      or lookup is evaluated. */
  lemma EvaluationsShape(
    svc: Services, fqSqueeze: seq<FqEvent> -> Scalar, frSqueeze: seq<FrEvent> -> Scalar,
    wit: seq<Scalar>, index: VerifierIndex, prev: seq<RecursionChallenge>)
    requires index.srs.Some? && index.srs.value.gLen > 0 && |wit| <= index.domain.size
    ensures var run := Prove(svc, fqSqueeze, frSqueeze, wit, index, prev);
      var p := run.result.value;
      var e := p.evals;
      var zeta := p.proof.points[0];
      var zetaOmega := p.proof.points[1];
      var witnessPoly := Interpolated(PadWitness(wit, index.domain.size).value, index.domain);
      && run.result.Ok?
      && e.z == ConstantEvals(1) && e.genericSelector == ConstantEvals(1)
      && e.poseidonSelector == e.completeAddSelector == e.mulSelector == e.emulSelector
           == e.endomulScalarSelector == ConstantEvals(0)
      && e.w[0] == PointEvaluations(svc.evaluateChunks(witnessPoly, index.maxPolySize, zeta),
                                    svc.evaluateChunks(witnessPoly, index.maxPolySize, zetaOmega))
      && (forall j :: 1 <= j < COLUMNS ==> e.w[j] == ConstantEvals(0))
      && e.coefficients[0] == ConstantEvals(1)
      && (forall j :: 1 <= j < COLUMNS ==> e.coefficients[j] == ConstantEvals(0))
      && (forall i :: 0 <= i < PERMUTS - 1 ==>
            e.s[i] == PointEvaluations([Mul(zeta, index.shift[i])], [Mul(zetaOmega, index.shift[i])]))
      && e.rangeCheck0Selector.None? && e.rangeCheck1Selector.None? && e.foreignFieldAddSelector.None?
      && e.foreignFieldMulSelector.None? && e.xorSelector.None? && e.rotSelector.None?
      && e.runtimeLookupTableSelector.None? && e.xorLookupSelector.None? && e.lookupGateLookupSelector.None?
      && e.rangeCheckLookupSelector.None? && e.foreignFieldMulLookupSelector.None?
      && e.lookupAggregation.None? && e.lookupTable.None? && e.runtimeLookupTable.None?
      && (forall i :: 0 <= i < LOOKUP_SORTED ==> e.lookupSorted[i].None?)
      && |ClaimedEvaluations(e)| == OPENED_AFTER_FT
  {
  }

  // ------------------------------------------------------------ polynomial values

  lemma EvalZero(x: Scalar)
    ensures EvalCoeffs([], x) == 0
  {
  }

  lemma EvalOne(x: Scalar)
    ensures EvalCoeffs([1], x) == 1
  {
    assert [1][1..] == [];
  }

  /** `0 + s * x` evaluates to `x * s`. */
  lemma EvalLinear(s: Scalar, x: Scalar)
    ensures EvalCoeffs([0, s], x) == Mul(x, s)
  {
    assert [0, s][1..] == [s];
    assert [s][1..] == [];
    assert EvalCoeffs([s], x) == Add(s, Mul(x, 0)) == s;
  }

  // ------------------------------------------------------------ opening list

  /** The opening list position by position: the recursion `b` polynomials,
      then the public polynomial (hiding 1) and `ft`, then `z` and the generic
      selector (the constant 1, non-hiding), the five other selectors (zero,
      hiding 1), the witness polynomial (hiding 1) and COLUMNS - 1 zero columns,
      the constant-one coefficient (non-hiding) and COLUMNS - 1 zero
      coefficients, and `x * shift[i]` (non-hiding) for the first PERMUTS - 1 shifts. */
  lemma OpeningListLayout(
    prev: seq<RecursionChallenge>, publicPoly: Poly, ft: Poly, blindingFt: seq<Scalar>,
    witnessPoly: Poly, shift: PermutShifts)
    ensures var l := OpeningList(prev, publicPoly, ft, blindingFt, witnessPoly, shift);
      var k := |prev|;
      var b := k + 2;
      && |l| == b + OPENED_AFTER_FT
      && (forall i :: 0 <= i < k ==> l[i] == OpeningEntry(BPoly(prev[i].chals), seq(|prev[i].comm|, _ => 0)))
      && l[k] == OpeningEntry(publicPoly, [1])
      && l[k + 1] == OpeningEntry(ft, blindingFt)
      && l[b] == l[b + 1] == l[b + 7 + COLUMNS] == OpeningEntry(Coeffs([1]), [0])
      && (forall q :: b + 2 <= q < b + 7 ==> l[q] == OpeningEntry(Coeffs([]), [1]))
      && l[b + 7] == OpeningEntry(witnessPoly, [1])
      && (forall q :: b + 8 <= q < b + 7 + COLUMNS ==> l[q] == OpeningEntry(Coeffs([]), [1]))
      && (forall q :: b + 8 + COLUMNS <= q < b + 7 + 2 * COLUMNS ==> l[q] == OpeningEntry(Coeffs([]), [1]))
      && (forall i :: 0 <= i < PERMUTS - 1 ==> l[b + 7 + 2 * COLUMNS + i] == OpeningEntry(Coeffs([0, shift[i]]), [0]))
  {
    var k := |prev|;
    var b := k + 2;
    var l := OpeningList(prev, publicPoly, ft, blindingFt, witnessPoly, shift);
    var rec := seq(|prev|, i requires 0 <= i < |prev| => RecursionEntry(prev[i]));
    var four := [OpeningEntry(publicPoly, FixedHiding(1)), OpeningEntry(ft, blindingFt),
                 OpeningEntry(OnePoly(), NonHiding(1)), OpeningEntry(OnePoly(), NonHiding(1))];
    var zeros5 := seq(5, _ => ZeroEntry());
    var wit := [OpeningEntry(witnessPoly, FixedHiding(1))];
    var zerosC := seq(COLUMNS - 1, _ => ZeroEntry());
    var one := [OpeningEntry(OnePoly(), NonHiding(1))];
    var shifts := seq(PERMUTS - 1, i requires 0 <= i < PERMUTS - 1 => OpeningEntry(ShiftPoly(shift[i]), NonHiding(1)));
    assert l == rec + four + zeros5 + wit + zerosC + one + zerosC + shifts;
    assert FixedHiding(1) == [1];
    assert NonHiding(1) == [0];
    assert ZeroEntry() == OpeningEntry(Coeffs([]), [1]);
    forall q | b + 2 <= q < b + 7
      ensures l[q] == OpeningEntry(Coeffs([]), [1])
    {
      assert l[q] == zeros5[q - b - 2];
    }
    forall q | b + 8 <= q < b + 7 + COLUMNS
      ensures l[q] == OpeningEntry(Coeffs([]), [1])
    {
      assert l[q] == zerosC[q - b - 8];
    }
    forall q | b + 8 + COLUMNS <= q < b + 7 + 2 * COLUMNS
      ensures l[q] == OpeningEntry(Coeffs([]), [1])
    {
      assert l[q] == zerosC[q - b - 8 - COLUMNS];
    }
    forall i | 0 <= i < PERMUTS - 1
      ensures l[b + 7 + 2 * COLUMNS + i] == OpeningEntry(Coeffs([0, shift[i]]), [0])
    {
      assert l[b + 7 + 2 * COLUMNS + i] == shifts[i];
    }
  }

  // ------------------------------------------------------------ agreement with the verifier

  /** The commitments the verifier pairs with the openings after `ft`, in
      order: `z`, the six selectors of the index, the witness columns, the
      coefficient columns and the first PERMUTS - 1 permutation columns. */
  function VerifierCommitments(idx: VerifierIndex, cm: ProverCommitments): seq<PolyComm> {
    [cm.zComm, idx.genericComm, idx.psmComm, idx.completeAddComm, idx.mulComm, idx.emulComm,
     idx.endomulScalarComm] + cm.wComm + idx.coefficientsComm + idx.sigmaComm[..PERMUTS - 1]
  }

  /** What an SRS commitment to an opened polynomial of this prover, with its
      blinding factors, is: the constant 1 without blinding is `g[0]`, `s * x`
      without blinding is `g[1] * s`, zero blinded by 1 is `h`, the
      interpolation of a witness blinded by 1 on every chunk is the non-hiding
      commitment to that witness plus `h` per chunk, and its negation so
      blinded is `h` minus that commitment per chunk. A blinding with a
      different number of factors than the commitment has chunks commits to
      nothing. */
  function CommitEntry(svc: Services, e: OpeningEntry): Option<PolyComm> {
    match e.poly
    case Coeffs(c) =>
      if c == [] && e.blinding == [1] then Some([H])
      else if c == [1] && e.blinding == [0] then Some([G0])
      else if |c| == 2 && c[0] == 0 && e.blinding == [0] then Some([G1Scaled(c[1])])
      else None
    case Interpolated(w, _) =>
      var unblinded := UnblindedWitnessCommitment(svc, w);
      if OnePerChunk(e.blinding, |unblinded|) then Some(BlindWithH(unblinded)) else None
    case Negated(Interpolated(w, _)) =>
      var unblinded := UnblindedWitnessCommitment(svc, w);
      if OnePerChunk(e.blinding, |unblinded|) then Some(PublicCommitment(unblinded)) else None
    case _ => None
  }

  /** An opening commits to the witness it interpolates: opening the
      interpolation of a witness other than `w` never yields the blinded
      commitment to `w`, whatever its blinding. */
  lemma CommitEntryBindsWitness(svc: Services, w: seq<Scalar>, other: seq<Scalar>, d: Domain, blinding: seq<Scalar>)
    requires other != w && svc.witnessChunks(other) >= 1
    ensures CommitEntry(svc, OpeningEntry(Interpolated(other, d), blinding)) != Some(BlindWithH(UnblindedWitnessCommitment(svc, w)))
  {
    var mine := UnblindedWitnessCommitment(svc, w);
    var theirs := UnblindedWitnessCommitment(svc, other);
    assert BlindWithH(theirs)[0] == Sum(WitnessChunk(other, 0), H);
    if |mine| > 0 {
      assert BlindWithH(mine)[0] == Sum(WitnessChunk(w, 0), H);
    }
    assert BlindWithH(theirs) != BlindWithH(mine);
  }

  /** The blinding factors are 1 for each of `chunks` chunks. */
  predicate OnePerChunk(blinding: seq<Scalar>, chunks: nat) {
    |blinding| == chunks && forall i :: 0 <= i < |blinding| ==> blinding[i] == 1
  }

  lemma VerifierCommitmentsAt(idx: VerifierIndex, cm: ProverCommitments, j: nat)
    requires j < OPENED_AFTER_FT
    ensures |VerifierCommitments(idx, cm)| == OPENED_AFTER_FT
    ensures 7 <= j < 7 + COLUMNS ==> VerifierCommitments(idx, cm)[j] == cm.wComm[j - 7]
    ensures 7 + COLUMNS <= j < 7 + 2 * COLUMNS ==> VerifierCommitments(idx, cm)[j] == idx.coefficientsComm[j - 7 - COLUMNS]
    ensures 7 + 2 * COLUMNS <= j ==> VerifierCommitments(idx, cm)[j] == idx.sigmaComm[j - 7 - 2 * COLUMNS]
  {
  }

  lemma ClaimedEvaluationsAt(e: ProofEvaluations, j: nat)
    requires |e.w| == COLUMNS && |e.coefficients| == COLUMNS && |e.s| == PERMUTS - 1 && j < OPENED_AFTER_FT
    ensures |ClaimedEvaluations(e)| == OPENED_AFTER_FT
    ensures 7 <= j < 7 + COLUMNS ==> ClaimedEvaluations(e)[j] == e.w[j - 7]
    ensures 7 + COLUMNS <= j < 7 + 2 * COLUMNS ==> ClaimedEvaluations(e)[j] == e.coefficients[j - 7 - COLUMNS]
    ensures 7 + 2 * COLUMNS <= j ==> ClaimedEvaluations(e)[j] == e.s[j - 7 - 2 * COLUMNS]
  {
  }

  /** Every opening after `ft`, committed with its blinding, is the commitment
      the verifier uses at that position (the index being the public-input-only
      one), and the public opening commits to the public commitment, provided
      the witness commitment has the single chunk that the one-element
      blindings presuppose. An opening is then blinded by 1 exactly when its
      commitment carries `h`, and by 0 exactly when it does not. */
  lemma OpeningsCommitToVerifierCommitments(
    svc: Services, fqSqueeze: seq<FqEvent> -> Scalar, frSqueeze: seq<FrEvent> -> Scalar,
    wit: seq<Scalar>, index: VerifierIndex, prev: seq<RecursionChallenge>)
    requires SingleChunkServices(svc)
    requires index.srs.Some? && index.srs.value.gLen > 0 && |wit| <= index.domain.size
    requires IdentityPermutation(index) && GenericGateOnly(index)
    ensures var run := Prove(svc, fqSqueeze, frSqueeze, wit, index, prev);
      var p := run.result.value;
      var l := p.proof.polys;
      var k := |prev|;
      var unblinded := UnblindedWitnessCommitment(svc, PadWitness(wit, index.domain.size).value);
      var m := VerifierCommitments(index, p.commitments);
      && run.result.Ok?
      && |m| == OPENED_AFTER_FT && |l| == k + 2 + OPENED_AFTER_FT
      && CommitEntry(svc, l[k]) == Some(PublicCommitment(unblinded))
      && (forall j :: 0 <= j < OPENED_AFTER_FT ==> CommitEntry(svc, l[k + 2 + j]) == Some(m[j]))
      && (forall j :: 0 <= j < OPENED_AFTER_FT ==>
            (l[k + 2 + j].blinding == [1] <==> Blinded(m[j])) && (l[k + 2 + j].blinding == [0] <==> Unblinded(m[j])))
  {
    var w := PadWitness(wit, index.domain.size).value;
    var unblinded := UnblindedWitnessCommitment(svc, w);
    var run := Prove(svc, fqSqueeze, frSqueeze, wit, index, prev);
    var p := run.result.value;
    var witnessPoly := Interpolated(w, index.domain);
    var l := p.proof.polys;
    assert l == OpeningList(prev, Negated(witnessPoly), l[|prev| + 1].poly, l[|prev| + 1].blinding, witnessPoly, index.shift);
    assert p.commitments == ProverCommitments(WitnessCommitments(unblinded), ZCommitment(), TCommitment(), None);
    OpeningListLayout(prev, Negated(witnessPoly), l[|prev| + 1].poly, l[|prev| + 1].blinding, witnessPoly, index.shift);
    WitnessCommitmentShapes(w, unblinded);
    assert |unblinded| == svc.witnessChunks(w) == 1;
    var m := VerifierCommitments(index, p.commitments);
    var k := |prev|;
    forall j | 0 <= j < OPENED_AFTER_FT
      ensures CommitEntry(svc, l[k + 2 + j]) == Some(m[j])
      ensures (l[k + 2 + j].blinding == [1] <==> Blinded(m[j])) && (l[k + 2 + j].blinding == [0] <==> Unblinded(m[j]))
    {
      VerifierCommitmentsAt(index, p.commitments, j);
      EntryMatchesCommitment(svc, l[k + 2 + j], m[j]);
    }
  }

  /** One position of the agreement: a constant-one, zero, `s * x` or witness
      opening against the matching commitment. */
  lemma EntryMatchesCommitment(svc: Services, e: OpeningEntry, c: PolyComm)
    requires || (e == OpeningEntry(Coeffs([1]), [0]) && c == [G0])
             || (e == OpeningEntry(Coeffs([]), [1]) && c == [H])
             || (exists s :: e == OpeningEntry(Coeffs([0, s]), [0]) && c == [G1Scaled(s)])
             || (&& e.poly.Interpolated? && e.blinding == [1] && svc.witnessChunks(e.poly.evals) == 1
                 && c == BlindWithH(UnblindedWitnessCommitment(svc, e.poly.evals)))
    ensures CommitEntry(svc, e) == Some(c)
    ensures (e.blinding == [1] <==> Blinded(c)) && (e.blinding == [0] <==> Unblinded(c))
  {
    if e.poly.Interpolated? {
      var unblinded := UnblindedWitnessCommitment(svc, e.poly.evals);
      assert c == [Sum(unblinded[0], H)] && MentionsH(c[0]);
    } else if e.blinding == [1] {
      assert c == [H] && MentionsH(c[0]);
    } else {
      assert !MentionsH(c[0]) && |c| == 1;
    }
  }

  // ------------------------------------------------------------ agreement with the evaluations

  /** One position of the agreement: a constant or `s * x` polynomial evaluates
      to the value claimed for it at both points. */
  lemma EntryMatchesEvaluation(poly: Poly, claimed: PointEvaluations, zeta: Scalar, zetaOmega: Scalar)
    requires || (poly == Coeffs([1]) && claimed == ConstantEvals(1))
             || (poly == Coeffs([]) && claimed == ConstantEvals(0))
             || (exists s :: poly == Coeffs([0, s]) && claimed == PointEvaluations([Mul(zeta, s)], [Mul(zetaOmega, s)]))
    ensures poly.Coeffs?
    ensures claimed == PointEvaluations([EvalCoeffs(poly.c, zeta)], [EvalCoeffs(poly.c, zetaOmega)])
  {
    EvalZero(zeta);
    EvalZero(zetaOmega);
    EvalOne(zeta);
    EvalOne(zetaOmega);
    if |poly.c| == 2 {
      EvalLinear(poly.c[1], zeta);
      EvalLinear(poly.c[1], zetaOmega);
      assert poly.c == [0, poly.c[1]];
    }
  }

  /** Every polynomial opened in coefficient form after `ft` takes, at zeta
      and at zeta * omega, exactly the value the proof claims for it; the
      witness polynomial is claimed at its chunked evaluations, the public
      polynomial is its negation, and `ft_eval1` is `ft` evaluated at zeta * omega. */
  lemma OpenedPolynomialsMatchEvaluations(
    svc: Services, fqSqueeze: seq<FqEvent> -> Scalar, frSqueeze: seq<FrEvent> -> Scalar,
    wit: seq<Scalar>, index: VerifierIndex, prev: seq<RecursionChallenge>)
    requires index.srs.Some? && index.srs.value.gLen > 0 && |wit| <= index.domain.size
    ensures var run := Prove(svc, fqSqueeze, frSqueeze, wit, index, prev);
      var p := run.result.value;
      var l := p.proof.polys;
      var k := |prev|;
      var ev := ClaimedEvaluations(p.evals);
      var zeta := p.proof.points[0];
      var zetaOmega := p.proof.points[1];
      && run.result.Ok?
      && |ev| == OPENED_AFTER_FT && |l| == k + 2 + OPENED_AFTER_FT
      && l[k + 9].poly == Interpolated(PadWitness(wit, index.domain.size).value, index.domain)
      && ev[7] == PointEvaluations(svc.evaluateChunks(l[k + 9].poly, index.maxPolySize, zeta),
                                   svc.evaluateChunks(l[k + 9].poly, index.maxPolySize, zetaOmega))
      && l[k].poly == Negated(l[k + 9].poly)
      && (forall j :: 0 <= j < OPENED_AFTER_FT && j != 7 ==>
            l[k + 2 + j].poly.Coeffs?
            && ev[j] == PointEvaluations([EvalCoeffs(l[k + 2 + j].poly.c, zeta)], [EvalCoeffs(l[k + 2 + j].poly.c, zetaOmega)]))
      && l[k + 1].poly.Coeffs? && p.ftEval1 == EvalCoeffs(l[k + 1].poly.c, zetaOmega)
  {
    var w := PadWitness(wit, index.domain.size).value;
    var run := Prove(svc, fqSqueeze, frSqueeze, wit, index, prev);
    var p := run.result.value;
    var witnessPoly := Interpolated(w, index.domain);
    var l := p.proof.polys;
    var k := |prev|;
    var zeta := p.proof.points[0];
    var zetaOmega := p.proof.points[1];
    assert l == OpeningList(prev, Negated(witnessPoly), l[k + 1].poly, l[k + 1].blinding, witnessPoly, index.shift);
    OpeningListLayout(prev, Negated(witnessPoly), l[k + 1].poly, l[k + 1].blinding, witnessPoly, index.shift);
    EvaluationsShape(svc, fqSqueeze, frSqueeze, wit, index, prev);
    var ev := ClaimedEvaluations(p.evals);
    forall j | 0 <= j < OPENED_AFTER_FT && j != 7
      ensures l[k + 2 + j].poly.Coeffs?
      ensures ev[j] == PointEvaluations([EvalCoeffs(l[k + 2 + j].poly.c, zeta)], [EvalCoeffs(l[k + 2 + j].poly.c, zetaOmega)])
    {
      ClaimedEvaluationsAt(p.evals, j);
      EntryMatchesEvaluation(l[k + 2 + j].poly, ev[j], zeta, zetaOmega);
    }
  }

  // ------------------------------------------------------------ the dummy Fq-sponge

  /** Run with the dummy Fq-sponge, whose every challenge and digest is 1, the
      prover evaluates at `to_field(1)` and `to_field(1) * omega`, whatever the
      witness and the recursion challenges, and hands the digest 1 to the Fr-sponge. */
  lemma ProveWithDummyFqSponge(
    svc: Services, frSqueeze: seq<FrEvent> -> Scalar,
    wit1: seq<Scalar>, wit2: seq<Scalar>, index: VerifierIndex, prev1: seq<RecursionChallenge>, prev2: seq<RecursionChallenge>)
    requires index.srs.Some? && index.srs.value.gLen > 0 && |wit1| <= index.domain.size && |wit2| <= index.domain.size
    ensures var run1 := Prove(svc, DummySponge.ConstantOne<FqEvent>, frSqueeze, wit1, index, prev1);
      var run2 := Prove(svc, DummySponge.ConstantOne<FqEvent>, frSqueeze, wit2, index, prev2);
      && run1.result.Ok? && run2.result.Ok?
      && run1.result.value.proof.points == [svc.toField(1), Mul(svc.toField(1), index.domain.groupGen)]
      && run1.result.value.proof.points == run2.result.value.proof.points
      && run1.frLog[0] == AbsorbFr(1)
  {
    FqTranscriptOrder(svc, DummySponge.ConstantOne<FqEvent>, frSqueeze, wit1, index, prev1);
    FqTranscriptOrder(svc, DummySponge.ConstantOne<FqEvent>, frSqueeze, wit2, index, prev2);
    FrTranscriptOrder(svc, DummySponge.ConstantOne<FqEvent>, frSqueeze, wit1, index, prev1);
  }

  // ------------------------------------------------------------ linearization

  /** `ft` is `x * (scalar * shift[PERMUTS - 1])`, where `scalar` is the
      permutation scalar at the claimed evaluations and the challenges beta,
      gamma (the first two Fq squeezes) and alpha (the third, through
      `to_field`); so `ft_eval1 = zeta * omega * scalar * shift[PERMUTS - 1]`.
      Its blinding is `0 - (zeta^n - 1) * blinding_t`, with `blinding_t` the
      7 quotient blinders of 1 chunk-combined at `zeta^max_poly_size`. */
  lemma LinearizationShape(
    svc: Services, fqSqueeze: seq<FqEvent> -> Scalar, frSqueeze: seq<FrEvent> -> Scalar,
    wit: seq<Scalar>, index: VerifierIndex, prev: seq<RecursionChallenge>)
    requires index.srs.Some? && index.srs.value.gLen > 0 && |wit| <= index.domain.size
    ensures var run := Prove(svc, fqSqueeze, frSqueeze, wit, index, prev);
      var p := run.result.value;
      var l := p.proof.polys;
      var t := run.fqLog;
      var k := |prev|;
      var c := COLUMNS;
      var zeta := p.proof.points[0];
      var zetaOmega := p.proof.points[1];
      var beta := fqSqueeze(t[..k + c + 3]);
      var gamma := fqSqueeze(t[..k + c + 4]);
      var alpha := svc.toField(fqSqueeze(t[..k + c + 6]));
      var scalar := svc.permScalars(PermScalarsInput(
        p.evals, Pow(zeta, index.maxPolySize), Pow(zetaOmega, index.maxPolySize), beta, gamma, alpha, zeta));
      && run.result.Ok?
      && |t| == k + c + 9 && |l| == k + 2 + OPENED_AFTER_FT
      && l[k + 1].poly == Coeffs([0, Mul(scalar, index.shift[PERMUTS - 1])])
      && p.ftEval1 == Mul(zetaOmega, Mul(scalar, index.shift[PERMUTS - 1]))
      && l[k + 1].blinding
           == [Sub(0, Mul(Sub(Pow(zeta, index.domain.size), 1),
                          svc.chunkBlinding(seq(QUOTIENT_CHUNKS, _ => 1), Pow(zeta, index.maxPolySize))))]
  {
    var w := PadWitness(wit, index.domain.size).value;
    var unblinded := UnblindedWitnessCommitment(svc, w);
    var pre := FqBeforeChallenges(svc.indexDigest(index), prev, PublicCommitment(unblinded), WitnessCommitments(unblinded));
    FqBeforeChallengesLayout(svc.indexDigest(index), prev, PublicCommitment(unblinded), WitnessCommitments(unblinded));
    var phase := RunFqSponge(svc, fqSqueeze, pre);
    var k := |prev|;
    var c := COLUMNS;
    assert phase.log[..k + c + 3] == pre + [FqChallenge];
    assert phase.log[..k + c + 4] == pre + [FqChallenge] + [FqChallenge];
    assert phase.log[..k + c + 6] == pre + [FqChallenge] + [FqChallenge] + [AbsorbCommitment(ZCommitment())] + [FqChallenge];
    assert phase.beta == fqSqueeze(phase.log[..k + c + 3]);
    assert phase.gamma == fqSqueeze(phase.log[..k + c + 4]);
    assert phase.alpha == svc.toField(fqSqueeze(phase.log[..k + c + 6]));
    var run := Prove(svc, fqSqueeze, frSqueeze, wit, index, prev);
    assert run == ProveFromPadded(svc, fqSqueeze, frSqueeze, w, index, prev);
    assert run.fqLog == phase.log;
    var p := run.result.value;
    var zeta := phase.zeta;
    var zetaOmega := Mul(zeta, index.domain.groupGen);
    assert p.proof.points == [zeta, zetaOmega];
    var scalar := svc.permScalars(PermScalarsInput(
      p.evals, Pow(zeta, index.maxPolySize), Pow(zetaOmega, index.maxPolySize), phase.beta, phase.gamma, phase.alpha, zeta));
    var l := p.proof.polys;
    assert l[k + 1].poly == Ft(scalar, index.shift);
    EvalLinear(Mul(scalar, index.shift[PERMUTS - 1]), zetaOmega);
  }
}
