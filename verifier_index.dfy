/** `verifier_index`: the hard-coded verifier index that public-input-only proofs
    satisfy. It is built from shape parameters only: the SRS, the domain (with its
    permutation shifts), the endomorphism coefficient and two counts. */
module VerifierIndexBuild {
  import opened Wrappers
  import opened Field
  import opened Commitment
  import opened ProverTypes

  /** The feature flags of this index: every optional gate and lookup feature off. */
  function NoFeatures(): FeatureFlags {
    FeatureFlags(
      rangeCheck0 := false,
      rangeCheck1 := false,
      lookupFeatures := LookupFeatures(
        patterns := LookupPatterns(xor := false, lookup := false, rangeCheck := false, foreignFieldMul := false),
        jointLookupUsed := false,
        usesRuntimeTables := false),
      foreignFieldAdd := false,
      foreignFieldMul := false,
      xor := false,
      rot := false)
  }

  predicate AnyLookupFeature(f: LookupFeatures) {
    f.patterns.xor || f.patterns.lookup || f.patterns.rangeCheck || f.patterns.foreignFieldMul
      || f.jointLookupUsed || f.usesRuntimeTables
  }

  /** An optional commitment is present exactly when its feature flag is set. */
  predicate FeatureFlagsAgree(flags: FeatureFlags, idx: VerifierIndex) {
    && (flags.rangeCheck0 <==> idx.rangeCheck0Comm.Some?)
    && (flags.rangeCheck1 <==> idx.rangeCheck1Comm.Some?)
    && (flags.foreignFieldAdd <==> idx.foreignFieldAddComm.Some?)
    && (flags.foreignFieldMul <==> idx.foreignFieldMulComm.Some?)
    && (flags.xor <==> idx.xorComm.Some?)
    && (flags.rot <==> idx.rotComm.Some?)
    && (AnyLookupFeature(flags.lookupFeatures) <==> idx.lookupIndex.Some?)
  }

  /** Each permutation commitment commits, without blinding, to `x * shift[i]`:
      the identity permutation. */
  predicate IdentityPermutation(idx: VerifierIndex) {
    forall i :: 0 <= i < PERMUTS ==> idx.sigmaComm[i] == [G1Scaled(idx.shift[i])]
  }

  /** Only the generic gate is on, with coefficient column 0 fixed to 1: the
      constant-one polynomial (`g[0]`, unblinded) for the generic selector and
      the first coefficient, the zero polynomial blinded by 1 (`h`) for every
      other coefficient and for the five other selectors. */
  predicate GenericGateOnly(idx: VerifierIndex) {
    && idx.coefficientsComm[0] == [G0]
    && (forall i :: 1 <= i < COLUMNS ==> idx.coefficientsComm[i] == [H])
    && idx.genericComm == [G0]
    && idx.psmComm == [H]
    && idx.completeAddComm == [H]
    && idx.mulComm == [H]
    && idx.emulComm == [H]
    && idx.endomulScalarComm == [H]
  }

  /** The verifier index for public-input-only proofs; `None` where the source
      panics because the SRS has fewer than two generators. */
  function BuildVerifierIndex(
    srs: Srs, domain: Domain, shifts: PermutShifts, endoQ: Scalar,
    numPublicInputs: nat, numPrevChallenges: nat): (r: Option<VerifierIndex>)
    ensures r.None? <==> srs.gLen < 2
    ensures r.Some? ==>
      && IdentityPermutation(r.value)
      && GenericGateOnly(r.value)
      && FeatureFlagsAgree(r.value.linearization.flags, r.value)
      && r.value.linearization == ExprLinearization(NoFeatures(), true)
      && r.value.lookupIndex.None?
      && r.value.domain == domain && r.value.shift == shifts && r.value.endo == endoQ
      && r.value.maxPolySize == srs.gLen && r.value.srs == Some(srs)
      && r.value.public == numPublicInputs && r.value.prevChallenges == numPrevChallenges
  {
    if srs.gLen < 2 then None
    else
      var coefficientsComm: seq<PolyComm> := seq(COLUMNS, i => MakeComm(if i == 0 then G0 else H));
      assert |coefficientsComm| == COLUMNS;
      Some(VerifierIndex(
        domain := domain,
        maxPolySize := srs.gLen,
        srs := Some(srs),
        public := numPublicInputs,
        prevChallenges := numPrevChallenges,
        sigmaComm := seq(PERMUTS, i requires 0 <= i < PERMUTS => [G1Scaled(shifts[i])]),
        coefficientsComm := coefficientsComm,
        genericComm := MakeComm(G0),
        psmComm := MakeComm(H),
        completeAddComm := MakeComm(H),
        mulComm := MakeComm(H),
        emulComm := MakeComm(H),
        endomulScalarComm := MakeComm(H),
        rangeCheck0Comm := None,
        rangeCheck1Comm := None,
        foreignFieldAddComm := None,
        foreignFieldMulComm := None,
        xorComm := None,
        rotComm := None,
        shift := shifts,
        endo := endoQ,
        lookupIndex := None,
        linearization := ExprLinearization(NoFeatures(), true)))
  }

  /** Every fixed commitment of the index, in the order the verifier opens them
      after the witness columns: coefficients, then permutation. */
  function FixedCommitments(idx: VerifierIndex): seq<PolyComm> {
    [idx.genericComm, idx.psmComm, idx.completeAddComm, idx.mulComm, idx.emulComm, idx.endomulScalarComm]
      + idx.coefficientsComm + idx.sigmaComm
  }

  /** No commitment of the index depends on a witness; the permutation and the
      constant-one commitments are unblinded, the zero commitments blinded. */
  lemma IndexIsWitnessIndependent(
    srs: Srs, domain: Domain, shifts: PermutShifts, endoQ: Scalar,
    numPublicInputs: nat, numPrevChallenges: nat)
    requires srs.gLen >= 2
    ensures var idx := BuildVerifierIndex(srs, domain, shifts, endoQ, numPublicInputs, numPrevChallenges).value;
      && (forall j, k :: 0 <= j < |FixedCommitments(idx)| && 0 <= k < |FixedCommitments(idx)[j]|
            ==> !MentionsWitness(FixedCommitments(idx)[j][k]))
      && (forall i :: 0 <= i < PERMUTS ==> Unblinded(idx.sigmaComm[i]))
      && Unblinded(idx.genericComm) && Unblinded(idx.coefficientsComm[0])
      && (forall i :: 1 <= i < COLUMNS ==> Blinded(idx.coefficientsComm[i]))
  {
    var idx := BuildVerifierIndex(srs, domain, shifts, endoQ, numPublicInputs, numPrevChallenges).value;
    var fixed := FixedCommitments(idx);
    forall j, k | 0 <= j < |fixed| && 0 <= k < |fixed[j]|
      ensures !MentionsWitness(fixed[j][k])
    {
      if j < 6 {
      } else if j < 6 + COLUMNS {
        assert fixed[j] == idx.coefficientsComm[j - 6];
      } else {
        assert fixed[j] == idx.sigmaComm[j - 6 - COLUMNS];
      }
    }
  }
}
