/** The fixed lookup tables of the foreign-field serialization circuit: their
    identifiers, their lengths and the values their rows hold. Table rows are
    field elements of a prime field F of order `m`, written as their canonical
    integer `x % m`. The row index has the type of the domain size, `u64`;
    `usize` (the type of `length`) is 64 bits wide and `u32` 32 bits. Arithmetic
    that overflows them panics (overflow checks on, as in test builds). */
module Serialization {
  import opened Wrappers

  /** 2^64: `u64` values are below this bound. */
  const U64_MODULUS: nat := 0x1_0000_0000_0000_0000
  /** 2^64: `usize` values are below this bound (a 64-bit target). */
  const USIZE_MODULUS: nat := U64_MODULUS
  /** 2^32: `u32` values are below this bound. */
  const U32_MODULUS: nat := 0x1_0000_0000

  type U64 = x: nat | x < U64_MODULUS
  type Usize = x: nat | x < USIZE_MODULUS
  type U32 = x: nat | x < U32_MODULUS

  /** `1 << k` for the small shifts used by the tables. */
  function Shl1(k: nat): nat {
    if k == 0 then 1 else 2 * Shl1(k - 1)
  }

  datatype LookupTable =
    | RangeCheck15          // 15-bit range check
    | RangeCheck4           // 4-bit range check
    | RangeCheck4Abs        // 4-bit signed range check
    | RangeCheckFfHighest   // range of the highest limb of the foreign modulus

  /** `to_u32`: the table's identifier. */
  function ToU32(t: LookupTable): (id: U32)
    ensures 1 <= id <= 4
  {
    match t
    case RangeCheck15 => 1
    case RangeCheck4 => 2
    case RangeCheck4Abs => 3
    case RangeCheckFfHighest => 4
  }

  /** `from_u32`: the table with this identifier; `None` where the source panics
      with "Invalid lookup table id". */
  function FromU32(value: U32): (r: Option<LookupTable>)
    ensures r.Some? <==> 1 <= value <= 4
  {
    match value
    case 1 => Some(RangeCheck15)
    case 2 => Some(RangeCheck4)
    case 3 => Some(RangeCheck4Abs)
    case 4 => Some(RangeCheckFfHighest)
    case _ => None
  }

  /** `is_fixed`: all tables are fixed tables. */
  function IsFixed(t: LookupTable): bool {
    true
  }

  /** `length`: the number of rows of the table. The highest-limb table has
      `topLimb` rows, converted to `usize` (a panic when it does not fit). */
  function Length(t: LookupTable, topLimb: nat): Option<Usize> {
    match t
    case RangeCheck15 => Some(Shl1(15))
    case RangeCheck4 => Some(Shl1(4))
    case RangeCheck4Abs => Some(Shl1(5))
    case RangeCheckFfHighest => if topLimb < USIZE_MODULUS then Some(topLimb) else None
  }

  datatype EntriesError =
    | DomainTooSmall       // the `assert!` on the domain size fails
    | ArithmeticOverflow   // a `u64` operation overflows or underflows
    | LimbNotInField       // `from_biguint(..).unwrap()` fails

  /** Row `i` of the 4-bit signed table, as written: the guard compares `i`
      with `2 * (i << 4)` in `u64` (the shift drops high bits, the product and
      the difference are checked). */
  function AbsEntryAsWritten(i: U64, m: nat): Result<int, EntriesError>
    requires m > 1
  {
    if i < Shl1(4) then Ok(i % m)
    else
      var shifted := (i * Shl1(4)) % U64_MODULUS;
      if 2 * shifted >= U64_MODULUS then Err(ArithmeticOverflow)
      else if i < 2 * shifted then
        (if i < 2 * Shl1(4) then Err(ArithmeticOverflow) else Ok((i - 2 * Shl1(4)) % m))
      else Ok(0)
  }

  /** `entries_ff_highest`: row `i` holds `i` while `F::from(i)` is below the
      top limb (as a field element), and 0 after. */
  function EntriesFfHighest(n: U64, topLimb: nat, m: nat): Result<seq<int>, EntriesError>
    requires m > 1
  {
    if topLimb >= m then Err(LimbNotInField)
    else Ok(seq(n, i requires 0 <= i < n => if i % m < topLimb then i % m else 0))
  }

  /** `entries`: the rows of a table over a domain of size `n`, which must be
      at least 2^15. */
  function Entries(t: LookupTable, n: U64, topLimb: nat, m: nat): Result<seq<int>, EntriesError>
    requires m > 1
  {
    if n < Shl1(15) then Err(DomainTooSmall)
    else
      match t
      case RangeCheck15 => Ok(seq(n, i requires 0 <= i < n => i % m))
      case RangeCheck4 => Ok(seq(n, i requires 0 <= i < n => if i < Shl1(4) then i % m else 0))
      case RangeCheck4Abs =>
        if exists i :: 0 <= i < n && AbsEntryAsWritten(i, m).Err? then Err(ArithmeticOverflow)
        else Ok(seq(n, i requires 0 <= i < n => AbsEntryAsWritten(i, m).value))
      case RangeCheckFfHighest => EntriesFfHighest(n, topLimb, m)
  }

  // ---------------------------------------------------------------- properties

  /** Identifiers are pairwise distinct. */
  lemma ToU32Injective(a: LookupTable, b: LookupTable)
    ensures ToU32(a) == ToU32(b) <==> a == b
  {
  }

  /** Decoding an encoded identifier gives the table back. */
  lemma FromToU32(t: LookupTable)
    ensures FromU32(ToU32(t)) == Some(t)
  {
  }

  /** Encoding a decoded identifier gives the identifier back; every other value fails. */
  lemma ToFromU32(value: U32)
    ensures FromU32(value).Some? ==> ToU32(FromU32(value).value) == value
    ensures FromU32(value).None? <==> !(1 <= value <= 4)
  {
  }

  /** Every table is a fixed table. */
  lemma AllTablesFixed(t: LookupTable)
    ensures IsFixed(t)
  {
  }

  /** The table lengths: 2^15, 2^4, 2^5, and the top limb when it fits in `usize`. */
  lemma TableLengths(topLimb: nat)
    ensures Length(RangeCheck15, topLimb) == Some(32768)
    ensures Length(RangeCheck4, topLimb) == Some(16)
    ensures Length(RangeCheck4Abs, topLimb) == Some(32)
    ensures Length(RangeCheckFfHighest, topLimb).Some? <==> topLimb < USIZE_MODULUS
    ensures Length(RangeCheckFfHighest, topLimb).Some? ==> Length(RangeCheckFfHighest, topLimb).value == topLimb
  {
    assert Shl1(4) == 16;
    assert Shl1(5) == 32;
    assert Shl1(15) == 32768 by {
      assert Shl1(8) == 256;
      assert Shl1(12) == 4096;
    }
  }

  /** `entries` of every table fails with `DomainTooSmall` on a domain below
      2^15. The 15- and 4-bit tables fail on nothing else and otherwise yield
      one row per domain element. */
  lemma EntriesCount(t: LookupTable, n: U64, topLimb: nat, m: nat)
    requires m > 1
    ensures n < 32768 ==> Entries(t, n, topLimb, m) == Err(DomainTooSmall)
    ensures t == RangeCheck15 || t == RangeCheck4 ==>
      && (Entries(t, n, topLimb, m).Err? <==> n < 32768)
      && (Entries(t, n, topLimb, m).Ok? ==> |Entries(t, n, topLimb, m).value| == n)
  {
    TableLengths(topLimb);
  }

  /** A natural number below the field order is its own field element. */
  lemma ModSmall(i: int, m: nat)
    requires 0 <= i < m
    ensures i % m == i
  {
  }

  /** The 15-bit table: row i holds i, so over a domain no larger than the field
      each value of [0, 2^15) occurs, and no value occurs twice. */
  lemma RangeCheck15Rows(n: U64, m: nat)
    requires 32768 <= n <= m
    ensures Entries(RangeCheck15, n, 0, m).Ok?
    ensures var r := Entries(RangeCheck15, n, 0, m).value;
      && |r| == n
      && (forall i :: 0 <= i < n ==> r[i] == i)
      && (forall v :: 0 <= v < 32768 ==> r[v] == v)
      && (forall i, j :: 0 <= i < j < n ==> r[i] != r[j])
  {
    TableLengths(0);
    var r := Entries(RangeCheck15, n, 0, m).value;
    forall i | 0 <= i < n
      ensures r[i] == i
    {
      ModSmall(i, m);
    }
  }

  /** The 4-bit table: rows 0..15 hold 0..15, every later row holds 0. */
  lemma RangeCheck4Rows(n: U64, m: nat)
    requires 32768 <= n && m > 16
    ensures Entries(RangeCheck4, n, 0, m).Ok?
    ensures var r := Entries(RangeCheck4, n, 0, m).value;
      && |r| == n
      && (forall i :: 0 <= i < n ==> r[i] == if i < 16 then i else 0)
      && (forall i :: 0 <= i < n ==> 0 <= r[i] < 16)
  {
    TableLengths(0);
    var r := Entries(RangeCheck4, n, 0, m).value;
    forall i | 0 <= i < n
      ensures r[i] == if i < 16 then i else 0
    {
      if i < 16 {
        ModSmall(i, m);
      }
    }
  }

  /** The highest-limb table: it fails exactly when the top limb is not a field
      element; otherwise row i holds i below the top limb and 0 from there on. */
  lemma FfHighestRows(n: U64, topLimb: nat, m: nat)
    requires 32768 <= n <= m
    ensures Entries(RangeCheckFfHighest, n, topLimb, m).Err? <==> topLimb >= m
    ensures topLimb < m ==>
      var r := Entries(RangeCheckFfHighest, n, topLimb, m).value;
      && |r| == n
      && (forall i :: 0 <= i < n ==> r[i] == if i < topLimb then i else 0)
      && (forall v :: 0 <= v < topLimb && v < n ==> r[v] == v)
  {
    TableLengths(0);
    if topLimb < m {
      var r := Entries(RangeCheckFfHighest, n, topLimb, m).value;
      forall i | 0 <= i < n
        ensures r[i] == if i < topLimb then i else 0
      {
        ModSmall(i, m);
      }
    }
  }

  /** As written, the guard `i < 2 * (i << 4)` holds for every row from 16 on
      (below 2^59, where the shift loses no bits), so the zero branch is dead. */
  lemma AbsGuardAlwaysTrue(i: U64)
    requires 16 <= i < 0x800_0000_0000_0000
    ensures var shifted := (i * Shl1(4)) % U64_MODULUS;
      2 * shifted < U64_MODULUS && i < 2 * shifted
  {
    assert Shl1(4) == 16;
    assert i * 16 < U64_MODULUS;
  }

  /** As written, row i of the 4-bit signed table is i below 16, a `u64`
      underflow (a panic) from 16 to 31, and i - 32 from 32 on. */
  lemma AbsRowsAsWritten(i: U64, m: nat)
    requires m > 1 && i < 0x800_0000_0000_0000
    ensures i < 16 ==> AbsEntryAsWritten(i, m) == Ok(i % m)
    ensures 16 <= i < 32 ==> AbsEntryAsWritten(i, m) == Err(ArithmeticOverflow)
    ensures 32 <= i ==> AbsEntryAsWritten(i, m) == Ok((i - 32) % m)
  {
    assert Shl1(4) == 16;
    if 16 <= i {
      AbsGuardAlwaysTrue(i);
    }
  }

  /** As written, `entries` of the 4-bit signed table panics on every domain it
      accepts: row 16 computes `16 - 32` in `u64`. */
  lemma RangeCheck4AbsEntriesFail(n: U64, m: nat)
    requires m > 1
    ensures Entries(RangeCheck4Abs, n, 0, m) == Err(if n < 32768 then DomainTooSmall else ArithmeticOverflow)
  {
    TableLengths(0);
    if n >= 32768 {
      AbsRowsAsWritten(16, m);
      assert 0 <= 16 < n && AbsEntryAsWritten(16, m).Err?;
    }
  }

  /** Row i of the 4-bit signed table as its comment and its length of 2^5 say it
      is meant to be: 0..15, then -16..-1 (as field elements), then 0. */
  function AbsEntryIntended(i: nat, m: nat): int
    requires m > 1
  {
    if i < Shl1(4) then i % m
    else if i < 2 * Shl1(4) then (i - 2 * Shl1(4)) % m
    else 0
  }

  /** `entries` of the 4-bit signed table with the guard compared against the
      bound `2 * (1 << 4)` and the difference taken as a signed field element. */
  function RangeCheck4AbsIntended(n: U64, m: nat): Result<seq<int>, EntriesError>
    requires m > 1
  {
    if n < Shl1(15) then Err(DomainTooSmall)
    else Ok(seq(n, i requires 0 <= i < n => AbsEntryIntended(i, m)))
  }

  /** The intended table holds every value of [-16, 16) exactly at rows 0..31
      (row v for v >= 0, row v + 32 for v < 0) and 0 on every later row. */
  lemma RangeCheck4AbsIntendedCovers(n: U64, m: nat)
    requires 32768 <= n && m > 32
    ensures RangeCheck4AbsIntended(n, m).Ok?
    ensures var r := RangeCheck4AbsIntended(n, m).value;
      && |r| == n
      && (forall v :: -16 <= v < 16 ==> r[if v >= 0 then v else v + 32] == v % m)
      && (forall i :: 32 <= i < n ==> r[i] == 0)
  {
    TableLengths(0);
    var r := RangeCheck4AbsIntended(n, m).value;
    forall v | -16 <= v < 16
      ensures r[if v >= 0 then v else v + 32] == v % m
    {
      var i := if v >= 0 then v else v + 32;
      assert r[i] == AbsEntryIntended(i, m);
    }
  }
}
