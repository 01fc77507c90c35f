/** The two Pasta prime fields, as integers in canonical range.
    Only the operations the prover applies to scalars are given: they stand for
    the external field arithmetic and are not themselves the object of proof. */
module Field {
  /** Order of Fp, the base field of the Pallas curve (scalar field of Vesta). */
  const P: nat := 0x40000000000000000000000000000000224698fc094cf91b992d30ed00000001
  /** Order of Fq, the scalar field of the Pallas curve (base field of Vesta). */
  const Q: nat := 0x40000000000000000000000000000000224698fc0994a8dd8c46eb2100000001

  type Fp = x: int | 0 <= x < P
  type Fq = x: int | 0 <= x < Q

  function Add(a: Fq, b: Fq): Fq { (a + b) % Q }
  function Sub(a: Fq, b: Fq): Fq { (a - b) % Q }
  function Neg(a: Fq): Fq { (0 - a) % Q }
  function Mul(a: Fq, b: Fq): Fq { (a * b) % Q }

  function Pow(a: Fq, e: nat): Fq
    decreases e
  {
    if e == 0 then 1 else Mul(a, Pow(a, e - 1))
  }
}
