/**
 * The `ResearchComponents` bit flags: UNIVERSE, ALPHA, PORTFOLIO, EXECUTION
 * and RISK are bits 0 to 4 of an integer mask.  A mask is an unbounded
 * natural, as a Python int is; `mask & FLAG` is non-zero exactly when the
 * flag's bit is set.
 */
module Components {
  import opened Wrappers

  datatype Component = Universe | Alpha | Portfolio | Execution | Risk

  /** Declaration order, which is also the order the nodes decode a mask in. */
  const DeclarationOrder: seq<Component> := [Universe, Alpha, Portfolio, Execution, Risk]

  function BitIndex(c: Component): nat
  {
    match c
    case Universe => 0
    case Alpha => 1
    case Portfolio => 2
    case Execution => 3
    case Risk => 4
  }

  function Pow2(k: nat): (r: nat)
    ensures r >= 1
  {
    if k == 0 then 1 else 2 * Pow2(k - 1)
  }

  /** The flag's integer value `1 << i`. */
  function Flag(c: Component): (r: nat)
    ensures r == Pow2(BitIndex(c))
  {
    SmallPowers();
    match c
    case Universe => 1
    case Alpha => 2
    case Portfolio => 4
    case Execution => 8
    case Risk => 16
  }

  lemma SmallPowers()
    ensures Pow2(0) == 1 && Pow2(1) == 2 && Pow2(2) == 4 && Pow2(3) == 8 && Pow2(4) == 16 && Pow2(5) == 32
  {
    assert Pow2(1) == 2 * Pow2(0);
    assert Pow2(2) == 2 * Pow2(1);
    assert Pow2(3) == 2 * Pow2(2);
    assert Pow2(4) == 2 * Pow2(3);
    assert Pow2(5) == 2 * Pow2(4);
  }

  /** Bit `k` of `m`, i.e. `m >> k & 1 == 1`. */
  predicate Bit(m: nat, k: nat)
    decreases k
  {
    if k == 0 then m % 2 == 1 else Bit(m / 2, k - 1)
  }

  /** `mask & c` is non-zero. */
  predicate Has(mask: nat, c: Component)
  {
    Bit(mask, BitIndex(c))
  }

  /** The upper-case member name, as the nodes and prompts spell it. */
  function Name(c: Component): string
  {
    match c
    case Universe => "UNIVERSE"
    case Alpha => "ALPHA"
    case Portfolio => "PORTFOLIO"
    case Execution => "EXECUTION"
    case Risk => "RISK"
  }

  function FromName(s: string): (r: Option<Component>)
    ensures r.Some? ==> Name(r.value) == s
    ensures r.None? ==> forall c :: Name(c) != s
  {
    if s == "UNIVERSE" then Some(Universe)
    else if s == "ALPHA" then Some(Alpha)
    else if s == "PORTFOLIO" then Some(Portfolio)
    else if s == "EXECUTION" then Some(Execution)
    else if s == "RISK" then Some(Risk)
    else None
  }

  /** `mask | c`. */
  function With(mask: nat, c: Component): nat
  {
    if Has(mask, c) then mask else mask + Flag(c)
  }

  /** The names of the flags set in `mask`, in declaration order. */
  function Decode(mask: nat): (r: seq<string>)
    ensures |r| <= 5
    ensures forall c :: Name(c) in r <==> Has(mask, c)
    ensures r == [] <==> forall c :: !Has(mask, c)
  {
    (if Has(mask, Universe) then ["UNIVERSE"] else [])
    + (if Has(mask, Alpha) then ["ALPHA"] else [])
    + (if Has(mask, Portfolio) then ["PORTFOLIO"] else [])
    + (if Has(mask, Execution) then ["EXECUTION"] else [])
    + (if Has(mask, Risk) then ["RISK"] else [])
  }

  /** The component names a mask selects, appended flag by flag. */
  method DecodeFlag(flag: nat) returns (names: seq<string>)
    ensures names == Decode(flag)
  {
    var u, a, p, e, k := Has(flag, Universe), Has(flag, Alpha), Has(flag, Portfolio), Has(flag, Execution), Has(flag, Risk);
    names := [];
    if u { names := names + ["UNIVERSE"]; }
    if a { names := names + ["ALPHA"]; }
    if p { names := names + ["PORTFOLIO"]; }
    if e { names := names + ["EXECUTION"]; }
    if k { names := names + ["RISK"]; }
    assert names == (if u then ["UNIVERSE"] else []) + (if a then ["ALPHA"] else [])
      + (if p then ["PORTFOLIO"] else []) + (if e then ["EXECUTION"] else []) + (if k then ["RISK"] else []);
  }

  /** The five flags are distinct single bits: each has its own bit and no other. */
  lemma FlagsAreDistinctBits(c: Component, d: Component)
    ensures Has(Flag(c), d) <==> c == d
  {
    PowerBit(BitIndex(c), BitIndex(d));
  }

  /** `2^i` has bit `i` and no other. */
  lemma {:induction false} PowerBit(i: nat, k: nat)
    ensures Bit(Pow2(i), k) <==> i == k
    decreases i
  {
    if i == 0 {
      if k > 0 {
        NoBitOfZero(k - 1);
      }
    } else {
      assert Pow2(i) / 2 == Pow2(i - 1) && Pow2(i) % 2 == 0;
      if k > 0 {
        PowerBit(i - 1, k - 1);
      }
    }
  }

  /** Setting bit `k` of a number whose bit `k` is clear changes no other bit. */
  lemma {:induction false} AddClearBit(m: nat, k: nat, j: nat)
    requires !Bit(m, k)
    ensures Bit(m + Pow2(k), j) <==> Bit(m, j) || j == k
    decreases k
  {
    if k == 0 {
      if j > 0 {
        assert (m + 1) / 2 == m / 2;
      }
    } else {
      if j > 0 {
        assert (m + Pow2(k)) / 2 == m / 2 + Pow2(k - 1);
        AddClearBit(m / 2, k - 1, j - 1);
      }
    }
  }

  /** Setting a clear bit below `n` keeps a number below `2^n`. */
  lemma {:induction false} AddClearBitBound(m: nat, k: nat, n: nat)
    requires m < Pow2(n) && k < n && !Bit(m, k)
    ensures m + Pow2(k) < Pow2(n)
    decreases k
  {
    var half := Pow2(n - 1);
    assert Pow2(n) == 2 * half;
    assert m == 2 * (m / 2) + m % 2;
    if k == 0 {
      assert m % 2 == 0;
      assert m + 1 < 2 * half;
    } else {
      assert Pow2(k) == 2 * Pow2(k - 1);
      assert m / 2 < half;
      AddClearBitBound(m / 2, k - 1, n - 1);
      assert m / 2 + Pow2(k - 1) + 1 <= half;
    }
  }

  /** Zero has no bit set. */
  lemma {:induction false} NoBitOfZero(k: nat)
    ensures !Bit(0, k)
    decreases k
  {
    if k > 0 {
      NoBitOfZero(k - 1);
    }
  }

  /** An OR of flags contains each operand and no other flag. */
  lemma WithSpec(mask: nat, c: Component, d: Component)
    ensures Has(With(mask, c), d) <==> Has(mask, d) || c == d
  {
    if !Has(mask, c) {
      AddClearBit(mask, BitIndex(c), BitIndex(d));
    }
  }

  /** OR-ing flags into a mask below 32 stays below 32. */
  lemma WithBound(mask: nat, c: Component)
    requires mask < 32
    ensures With(mask, c) < 32
  {
    if !Has(mask, c) {
      SmallPowers();
      AddClearBitBound(mask, BitIndex(c), 5);
    }
  }

  /** The OR of all five flags is 31. */
  lemma AllFlags()
    ensures With(With(With(With(With(0, Universe), Alpha), Portfolio), Execution), Risk) == 31
  {
  }
}
