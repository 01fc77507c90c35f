# Public-input-only kimchi prover, serialization lookup tables, dummy sponge

A Dafny model of three pieces of the proof-systems repository:

- **The public-input-only kimchi prover** (`kimchi/src/public_input_only_prover.rs`). `verifier_index` builds a hard-coded verifier index from shape parameters. `create_recursive_public_input_only` builds a proof whose witness column 0 is the public input and every other column is zero. The model covers:
  - witness padding and its error;
  - the commitments, as symbolic terms over `g[0]`, `g[1]`, `h` and the chunks of the non-hiding commitment to the padded witness (each chunk term carries the witness it commits to);
  - the exact order of every call on the Fq-sponge and the Fr-sponge;
  - the claimed evaluations and the linearization polynomial `ft`;
  - the list of (polynomial, blinding) pairs handed to the opening.

  The cryptographic work (index digest, the chunk count of `commit_evaluations_non_hiding`, chunked evaluation, `combine`, `perm_scalars`, chunk blinding, `to_field`) is passed in as opaque functions in `ProverTypes.Services`. Interpolation is the symbolic polynomial `ProverTypes.Poly.Interpolated`. A sponge is an append-only log of events whose squeezes answer a function of the whole history (`Transcript.Sponge`).

  The prover is written twice. `PublicInputOnlyProver.Prove` is a specification function. `CreateRecursivePublicInputOnly` is a method that pads, pushes and absorbs step by step as the source does, and it is proved equal to `Prove`. The lemmas in `ProverProperties` state what a proof looks like.
- **The MVLookup range-check tables** of the serialization circuit (`msm/src/serialization/mod.rs`). It covers:
  - the table identifiers and their round trip;
  - the table lengths;
  - the rows built by `entries` and `entries_ff_highest` over a domain of size `n` in a prime field of order `m`.

  The row index has the type of the domain size, `u64`; `length` returns a 64-bit `usize`, and identifiers are `u32`. Overflowing arithmetic fails, as it does with overflow checks on.
- **`DummySponge`** (`kimchi/src/dummy_sponge.rs`). This is a stateless `FqSponge` whose challenges and digests are all 1. The model proves its answers are those of the log sponge whose answer function is the constant 1. The model's prover, given that constant-one answer function for its Fq-sponge, evaluates at `to_field(1)`.

Fields are the Pasta fields, with their moduli written out in `Field`. The prover is taken over Pallas, so its scalars live in `Fq`. `COLUMNS = 15` and `PERMUTS = 7`. A panic in the source is a failure value in the model (`None` or `Err`).

## Model

The functions that model the source's functions one to one (`Serialization.IsFixed`, `Serialization.Length`, `Serialization.AbsEntryAsWritten`, `Serialization.EntriesFfHighest`, `Serialization.Entries`, `DummySponge.New`, `PublicInputOnlyProver.Prove` and the functions it is built from) have no rows of their own. Their contracts are the lemmas on the rows below that cite the same lines.

| member | source | states |
|---|---|---|
| Commitment.MakeComm | kimchi/src/public_input_only_prover.rs:77-80 | `make_comm` gives a one-chunk commitment holding its argument |
| VerifierIndexBuild.BuildVerifierIndex | kimchi/src/public_input_only_prover.rs:47-133 | fails exactly when the SRS has fewer than two generators. Otherwise: the SRS cell is set; the identity permutation (`sigma[i] = g[1]*shift[i]`); only the generic gate on (`coefficients[0] = generic = g[0]`, the other coefficients and the five selectors `h`); every feature flag false and every optional commitment and the lookup index absent; domain, shifts, endo, `max_poly_size = |g|`, public count and recursion count taken from the arguments |
| VerifierIndexBuild.IndexIsWitnessIndependent | kimchi/src/public_input_only_prover.rs:88-114 | no fixed commitment of the index depends on a witness; the permutation, generic and first coefficient commitments are unblinded; the other coefficients are blinded |
| Transcript.Sponge.constructor | kimchi/src/public_input_only_prover.rs:196 | a new sponge has an empty history |
| Transcript.Sponge.Absorb | kimchi/src/public_input_only_prover.rs:200 | an absorb appends exactly its event to the history |
| Transcript.Sponge.Squeeze | kimchi/src/public_input_only_prover.rs:253-254 | a squeeze appends its event and answers as a function of the history ending with it |
| Transcript.Sponge.Clone | kimchi/src/public_input_only_prover.rs:423 | a clone is a fresh sponge with the same history |
| PublicInputOnlyProver.PadWitness | kimchi/src/public_input_only_prover.rs:187-194 | fails with `NoRoomForZkInWitness` iff the witness is longer than the domain; otherwise has exactly domain-size entries, keeps the witness as its prefix, and is zero after it |
| PublicInputOnlyProver.AbsorbCommitments | kimchi/src/public_input_only_prover.rs:249-251 | absorbs the commitments one by one, in order, and nothing else |
| PublicInputOnlyProver.BuildWitnessCommitments | kimchi/src/public_input_only_prover.rs:230-247 | the push loop builds exactly the COLUMNS witness commitments: column 0 blinded by `h`, the rest `h` |
| PublicInputOnlyProver.DigestRecursionChallenges | kimchi/src/public_input_only_prover.rs:432-438 | the digest of a fresh Fr-sponge that absorbed every recursion challenge vector in list order |
| PublicInputOnlyProver.BuildOpeningList | kimchi/src/public_input_only_prover.rs:486-526 | the pushes and extends build exactly the opening list of the specification |
| PublicInputOnlyProver.RunFqTranscript | kimchi/src/public_input_only_prover.rs:196-292 | the Fq-sponge calls made step by step yield the specified challenges, history and clone |
| PublicInputOnlyProver.RunFrTranscript | kimchi/src/public_input_only_prover.rs:425-454 | the Fr-sponge calls made step by step yield the specified history and v, u |
| PublicInputOnlyProver.CreateRecursivePublicInputOnly | kimchi/src/public_input_only_prover.rs:172-553 | the imperative prover returns exactly the result and both sponge histories of the specification `Prove`, including its three failures |
| PublicInputOnlyProver.CreatePublicInputOnly | kimchi/src/public_input_only_prover.rs:147-161 | the same as the recursive prover with no recursion challenges |
| ProverProperties.ProveFailureCases | kimchi/src/public_input_only_prover.rs:185-261 | the prover fails iff the index's SRS cell is empty (the panic of `get().unwrap()`), the witness does not fit the domain (`NoRoomForZkInWitness`), or the SRS has no generator `g[0]` for `z_comm` (a panic), with the error of the first of these in source order; a failure leaves no sponge history; a proof carries the given recursion challenges |
| ProverProperties.FqBeforeChallengesLayout | kimchi/src/public_input_only_prover.rs:199-251 | before the first challenge, the Fq history is: the index digest, each recursion commitment in order, the public commitment, each witness commitment in order |
| ProverProperties.FqTranscriptOrder | kimchi/src/public_input_only_prover.rs:196-295 | the whole Fq history, position by position: digest, recursion commitments, public commitment, COLUMNS witness commitments, beta, gamma, `z_comm`, alpha, `t_comm`, zeta, digest. The opening receives the history before the digest. The evaluation points are `to_field` of the zeta squeeze and that times omega |
| ProverProperties.FqTranscriptSeesWitness | kimchi/src/public_input_only_prover.rs:206-253 | two different padded witnesses give different public-commitment absorbs, so beta and every later Fq challenge are squeezed from different histories |
| ProverProperties.FrTranscriptOrder | kimchi/src/public_input_only_prover.rs:425-454 | the whole Fr history: the Fq digest, the recursion-challenge digest, `ft_eval1`, `-w[0](zeta)`, `-w[0](zeta*omega)`, the evaluations, then v and u, each `to_field` of its squeeze |
| ProverProperties.RecursionDigestSeesChallenges | kimchi/src/public_input_only_prover.rs:432-438 | the history the recursion digest is squeezed from is the same for two recursion-challenge lists exactly when they hold the same challenge vectors in the same order |
| ProverProperties.CommitmentShapes | kimchi/src/public_input_only_prover.rs:223-286 | public commitment `h - witness_chunk`, `w_comm[0]` is `witness_chunk + h` chunk by chunk (chunks of the commitment to the padded witness), other columns `h`, `z_comm = g[0]` (unblinded), `t_comm` is 7 chunks of `h`, no lookup commitments; given that a commitment has at least one chunk, every witness column and the public commitment are blinded |
| ProverProperties.WitnessCommitmentShapes | kimchi/src/public_input_only_prover.rs:225-247 | the same shapes, stated over any non-hiding witness commitment |
| ProverProperties.EvaluationsShape | kimchi/src/public_input_only_prover.rs:297-366 | `z`, generic selector and `coefficients[0]` are 1; the other five selectors, coefficients and `w[1..]` are 0; `w[0]` is the witness polynomial's chunked evaluations; `s[i] = (zeta*shift[i], zeta*omega*shift[i])`; every optional selector and lookup field is absent |
| ProverProperties.OpeningListLayout | kimchi/src/public_input_only_prover.rs:458-526 | position by position, a list of length k + 9 + 2·COLUMNS + PERMUTS - 1: recursion polynomials with non-hiding blinding of their commitment's size, public (1), ft, one (0) twice, five zeros (1), witness (1), COLUMNS - 1 zeros (1), one (0), COLUMNS - 1 zeros (1), `x*shift[i]` (0) for the first PERMUTS - 1 shifts |
| ProverProperties.OpeningsCommitToVerifierCommitments | kimchi/src/public_input_only_prover.rs:489-525 | against a public-input-only index, each opened polynomial with its blinding commits to exactly the commitment the verifier pairs with it (public, z, selectors, witness, coefficients, permutation), reading a blinding as one factor per chunk and building the witness and public commitments from the witness the opened polynomial interpolates. This holds given that the witness commitment has the single chunk the one-element `fixed_hiding(1)` blindings presuppose. The blinding is then 1 exactly when the commitment carries `h`, and 0 exactly when it does not |
| ProverProperties.CommitEntryBindsWitness | kimchi/src/public_input_only_prover.rs:508 | opening the interpolation of a witness other than the committed one never yields the blinded commitment to the committed witness, whatever the blinding |
| ProverProperties.OpenedPolynomialsMatchEvaluations | kimchi/src/public_input_only_prover.rs:297-526 | every polynomial opened in coefficient form takes at zeta and zeta*omega exactly the value the proof claims for it; the witness polynomial is claimed at its chunked evaluations; the public polynomial is its negation; `ft_eval1` is `ft` at zeta*omega |
| ProverProperties.LinearizationShape | kimchi/src/public_input_only_prover.rs:381-421 | `ft = x * (scalar * shift[PERMUTS-1])`, with `scalar` being `perm_scalars` of the claimed evaluations and the first, second and (through `to_field`) third Fq squeezes; `ft_eval1 = zeta*omega*scalar*shift[PERMUTS-1]`; blinding `0 - (zeta^n - 1) * blinding_t` |
| ProverProperties.ProveWithDummyFqSponge | kimchi/src/dummy_sponge.rs:18-32 | with an Fq-sponge that answers 1 to every challenge and digest, as the dummy sponge does, the evaluation points are `to_field(1)` and `to_field(1)*omega` whatever the witness and recursion challenges, and the Fr-sponge first absorbs 1 |
| Serialization.ToU32 | msm/src/serialization/mod.rs:24-31 | every table's identifier is in 1..4 |
| Serialization.ToU32Injective | msm/src/serialization/mod.rs:24-31 | two tables have the same identifier iff they are the same table |
| Serialization.FromU32 | msm/src/serialization/mod.rs:33-41 | decoding succeeds iff the value is in 1..4 (otherwise the source panics) |
| Serialization.FromToU32 | msm/src/serialization/mod.rs:24-41 | decoding an encoded table gives it back |
| Serialization.ToFromU32 | msm/src/serialization/mod.rs:24-41 | encoding a decoded identifier gives it back; every other value fails |
| Serialization.AllTablesFixed | msm/src/serialization/mod.rs:43-46 | every table is fixed |
| Serialization.TableLengths | msm/src/serialization/mod.rs:48-58 | lengths 2^15, 2^4, 2^5; the highest-limb table has the top limb's length exactly when it fits in `usize` (64 bits) |
| Serialization.EntriesCount | msm/src/serialization/mod.rs:107-127 | every table fails with the size assertion on a domain below 2^15; the 15- and 4-bit tables fail on nothing else, and otherwise have one row per domain element |
| Serialization.RangeCheck15Rows | msm/src/serialization/mod.rs:107-110 | row i holds i: every value below 2^15 occurs, and no value occurs twice |
| Serialization.RangeCheck4Rows | msm/src/serialization/mod.rs:111-113 | rows 0..15 hold 0..15, later rows 0; every row is below 16 |
| Serialization.FfHighestRows | msm/src/serialization/mod.rs:94-105 | fails iff the top limb is not a field element; otherwise row i holds i below the top limb and 0 from it on |
| Serialization.AbsGuardAlwaysTrue | msm/src/serialization/mod.rs:119 | for 16 <= i < 2^59 the guard `i < 2*(i<<4)` holds and does not overflow, so the zero branch is dead |
| Serialization.AbsRowsAsWritten | msm/src/serialization/mod.rs:114-126 | as written, row i is i below 16, an underflow (panic) from 16 to 31, and i - 32 from 32 up to 2^59 |
| Serialization.RangeCheck4AbsEntriesFail | msm/src/serialization/mod.rs:107-126 | as written, the signed 4-bit table fails on every domain: too small below 2^15, an underflow at row 16 otherwise |
| Serialization.RangeCheck4AbsIntendedCovers | msm/src/serialization/mod.rs:114-126 | the corrected table holds each value v of [-16, 16) at row v (v >= 0) or v + 32 (v < 0), and 0 from row 32 on |
| DummySponge.NewIgnoresParameters | kimchi/src/dummy_sponge.rs:8-10 | `new` gives the same stateless sponge whatever its parameters |
| DummySponge.AbsorbG | kimchi/src/dummy_sponge.rs:12 | `absorb_g` leaves the sponge unchanged |
| DummySponge.AbsorbFq | kimchi/src/dummy_sponge.rs:14 | `absorb_fq` leaves the sponge unchanged |
| DummySponge.AbsorbFr | kimchi/src/dummy_sponge.rs:16 | `absorb_fr` leaves the sponge unchanged |
| DummySponge.Challenge | kimchi/src/dummy_sponge.rs:18-20 | `challenge` answers 1 and leaves the sponge unchanged |
| DummySponge.ChallengeFq | kimchi/src/dummy_sponge.rs:22-24 | `challenge_fq` answers 1 and leaves the sponge unchanged |
| DummySponge.Digest | kimchi/src/dummy_sponge.rs:26-28 | `digest` answers 1 |
| DummySponge.DigestFq | kimchi/src/dummy_sponge.rs:30-32 | `digest_fq` answers 1 |
| DummySponge.ReplayMatchesConstantLog | kimchi/src/dummy_sponge.rs:7-33 | after any sequence of calls the sponge is unchanged and has answered 1 to every challenge, exactly what the log sponge with the constant-one answer function answers |
| DummySponge.DigestAfterReplay | kimchi/src/dummy_sponge.rs:26-32 | the digests are 1 after any history |

## Left out

- Field and curve arithmetic. Commitments are symbolic terms and are never computed. Points are not normalised (`into_affine`), and sums are not simplified.
- The opaque library calls are parameters of `ProverTypes.Services`. Only their inputs and the order in which their results are used are modelled. They are: `index.digest`, `commit_evaluations_non_hiding` (its number of chunks; each chunk is a symbol naming the witness it commits to), `to_chunked_polynomial` / `evaluate_chunks`, `combine`, `perm_scalars` (with `eval_zk_polynomial` and the powers of alpha folded into it), `chunk_blinding` and `ScalarChallenge::to_field`. `interpolate` is not a parameter: the witness polynomial is the symbolic term `ProverTypes.Poly.Interpolated(evaluations, domain)`.
- `b_poly_coefficients` is kept symbolic as the recursion entry's polynomial `BPoly(chals)`. `absorb_commitment` is one event per commitment.
- `srs.open` is not computed. The opening proof records what it is given: the list, the points, v, u and the cloned Fq-sponge history.
- The Poseidon sponges are not modelled. A sponge is its call history, and its answers are any function of that history.
- `permutation::Shifts::new` and `endos` are not modelled. The shifts and the endomorphism coefficient are parameters of `VerifierIndexBuild.BuildVerifierIndex`.
- `expr_linearization` is recorded only as its inputs: the feature flags and the generic flag. The powers of alpha are not modelled.
- The `OnceCell` caches (`zkpm`, `w`) and the `Arc` around the SRS are not modelled. The SRS is just its number of generators; the SRS cell is an `Option`, and its empty case, where the source panics in `index.srs.get().unwrap()`, is the model's failure `SrsNotSet`, which is not a `ProverError` of the source. Likewise an SRS with no generators, where the source panics reading `srs.g[0]` for `z_comm` after it has absorbed the witness commitments, is the failure `SrsHasNoGenerators`. The model reports it with empty sponge histories, because a panic discards the sponges.
- `OsRng` in the opening is not modelled: it affects only the opening proof's randomness.
- `kimchi/src/public_input.rs` (`hash_public_input`) is not part of this model.
- The test harnesses `test_public_input_only_prover` and `test_completeness` are not part of this model.
- `COLUMNS` and `PERMUTS` come from the circuit wiring module, which is not part of this model. They are fixed here at 15 and 7.
- `ff_modulus_highest_limb` is a parameter (`topLimb`) of `Serialization.Length`, `Serialization.Entries` and `Serialization.EntriesFfHighest`.
- Serialization.FfHighestRows, Serialization.RangeCheck15Rows: the row values are stated for domains no larger than the field order. Above it, `F::from(i)` wraps; the model computes `i % m` but the lemmas do not describe those rows.
- Serialization.AbsGuardAlwaysTrue, Serialization.AbsRowsAsWritten: stated for rows below 2^59. Above that, `i << 4` drops high bits. The model computes the wrapped shift and the checked doubling, but the lemma does not describe those rows.
- ProverProperties.ProveWithDummyFqSponge: runs the model's Pallas prover with the constant-one answer function for its Fq-sponge. The source's `DummySponge` cannot itself be that sponge: it implements the Vesta-typed `FqSponge<Fq, Vesta, Fp>` and is not `Clone`, while this prover needs a `Clone` Fq-sponge over Pallas. Its challenges are `Fp` values, whereas the model's answer functions give `Fq`; `DummySponge.ReplayMatchesConstantLog` relates them only as integers (both are 1).
- ProverProperties.CommitmentShapes: the blinding claims assume `ValidServices`, i.e. that `commit_evaluations_non_hiding` returns at least one chunk. The SRS library guarantees this, but the library is not part of this model.
- ProverProperties.OpeningsCommitToVerifierCommitments: assumes `SingleChunkServices`, i.e. that the witness commitment has exactly one chunk. The witness and public openings carry the one-element blinding `fixed_hiding(1)`, while their commitments carry one `h` per chunk. With several chunks the two do not agree (`CommitEntry` then gives `None`), and the model promises nothing for that case.
- No multiplicity check between lookups and tables exists in the code modelled, and none is modelled.

## Findings

| source | as written | input that shows it | evidently intended | confidence | as-written member | corrected member |
|---|---|---|---|---|---|---|
| msm/src/serialization/mod.rs:119-121 | the signed 4-bit table guards row i with `i < 2 * (i << 4)`, which holds for every i >= 16, then computes `i - 2 * (1 << 4)` in `u64` | row 16 of any accepted domain (size >= 2^15): `16 - 32` underflows `u64` and panics. Past row 31, the rows hold `i - 32` instead of 0 | rows 16..31 hold -16..-1 as field elements (the comment on line 120 and the table length 2^5), and later rows 0. That needs two changes: the guard compared against `2 * (1 << 4)` instead of `2 * (i << 4)` (else rows from 32 on are not 0), and the difference taken in the field, `F::from(i) - F::from(2 * (1 << 4))`, instead of in `u64` (else rows 16..31 still panic) | not executed | Serialization.RangeCheck4AbsEntriesFail | Serialization.RangeCheck4AbsIntendedCovers |

`Serialization.Entries` keeps the code as written. `Serialization.RangeCheck4AbsIntended` is the corrected table, and `Serialization.RangeCheck4AbsIntendedCovers` is proved about it.
