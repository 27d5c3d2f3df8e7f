/** The base matcher data (matcher_data.hpp): the ordered registry of
    subsystems the matcher walks (the first one is dominant) and the count
    selection that shrinks a request's max by its operator until it fits the
    quantity a subtree qualifies for. */
module MatcherData {
  import opened Jobspec
  import opened ResourceData

  // ---------------------------------------------------------------------
  // match_score_t, match_op_t
  // ---------------------------------------------------------------------

  const MATCH_UNMET: int := 0
  const MATCH_MET: int := 1

  datatype MatchOp = MatchAllocate | MatchAllocateOrElseReserve

  // ---------------------------------------------------------------------
  // prev_pwr
  // ---------------------------------------------------------------------

  /** x squared n times: x^(2^n), the effect of the inner loop of prev_pwr. */
  function SquareN(x: nat, n: nat): nat
    decreases n
  {
    if n == 0 then x else SquareN(x * x, n - 1)
  }

  /** The terms min, min^(2^operand), ... that prev_pwr walks through. */
  function PowTerm(min: nat, operand: nat, k: nat): nat
  {
    if k == 0 then min else SquareN(PowTerm(min, operand, k - 1), operand)
  }

  /** The walk of prev_pwr from term i, with sol the previous term. */
  function PrevPwrFrom(i: nat, count: nat, operand: nat, sol: nat): nat
    requires i < count ==> i >= 2 && operand >= 1
    decreases count - i
  {
    if i < count then
      SquareNGrows(i, operand);
      PrevPwrFrom(SquareN(i, operand), count, operand, i)
    else sol
  }

  /** prev_pwr over unbounded integers: the last term below count, or 0 when
      min is not below count. */
  function PrevPwrOf(min: nat, count: nat, operand: nat): nat
    requires count <= min || (min >= 2 && operand >= 1)
  {
    PrevPwrFrom(min, count, operand, 0)
  }

  lemma {:induction false} SquareNGrows(x: nat, n: nat)
    requires x >= 2 && n >= 1
    ensures SquareN(x, n) > x
    decreases n
  {
    if n > 1 {
      SquareNGrows(x * x, n - 1);
    }
  }

  /** The terms increase strictly when min >= 2 and operand >= 1. */
  lemma {:induction false} PowTermIncreasing(min: nat, operand: nat, k: nat)
    requires min >= 2 && operand >= 1
    ensures PowTerm(min, operand, k) >= 2
    ensures PowTerm(min, operand, k + 1) > PowTerm(min, operand, k)
  {
    if k > 0 {
      PowTermIncreasing(min, operand, k - 1);
    }
    SquareNGrows(PowTerm(min, operand, k), operand);
  }

  /** prev_pwr returns the largest term of min, min^(2^operand), ... that is
      below count, or 0 when min >= count. */
  lemma PrevPwrIsLargestTermBelow(min: nat, count: nat, operand: nat)
    requires count <= min || (min >= 2 && operand >= 1)
    ensures min >= count ==> PrevPwrOf(min, count, operand) == 0
    ensures min < count ==>
              exists k: nat :: PrevPwrOf(min, count, operand) == PowTerm(min, operand, k)
                          && PowTerm(min, operand, k) < count <= PowTerm(min, operand, k + 1)
  {
    if min < count {
      PowTermIncreasing(min, operand, 0);
      PrevPwrWalk(min, count, operand, 1);
    }
  }

  /** So a count above min strictly decreases and stays at least min. */
  lemma PrevPwrBounds(min: nat, count: nat, operand: nat)
    requires count <= min || (min >= 2 && operand >= 1)
    ensures min >= count ==> PrevPwrOf(min, count, operand) == 0
    ensures min < count ==> min <= PrevPwrOf(min, count, operand) < count
  {
    if min < count {
      PowTermIncreasing(min, operand, 0);
      PrevPwrWalk(min, count, operand, 1);
    }
  }

  /** The walk from term k (k >= 1, all earlier terms below count) ends at
      the largest term below count. */
  lemma {:induction false} PrevPwrWalk(min: nat, count: nat, operand: nat, k: nat)
    requires min >= 2 && operand >= 1 && k >= 1
    requires PowTerm(min, operand, k - 1) < count
    ensures PowTerm(min, operand, k) >= 2
    ensures exists j: nat :: j >= k - 1
              && PrevPwrFrom(PowTerm(min, operand, k), count, operand, PowTerm(min, operand, k - 1))
                 == PowTerm(min, operand, j)
              && PowTerm(min, operand, j) < count <= PowTerm(min, operand, j + 1)
    ensures min <= PrevPwrFrom(PowTerm(min, operand, k), count, operand, PowTerm(min, operand, k - 1)) < count
    decreases count - PowTerm(min, operand, k - 1)
  {
    PowTermIncreasing(min, operand, k - 1);
    PowTermIncreasing(min, operand, k);
    PowTermAtLeastMin(min, operand, k - 1);
    var t := PowTerm(min, operand, k);
    if t < count {
      PrevPwrWalk(min, count, operand, k + 1);
    }
  }

  lemma {:induction false} PowTermAtLeastMin(min: nat, operand: nat, k: nat)
    requires min >= 2 && operand >= 1
    ensures PowTerm(min, operand, k) >= min
  {
    if k > 0 {
      PowTermAtLeastMin(min, operand, k - 1);
      PowTermIncreasing(min, operand, k - 1);
    }
  }

  /** prev_pwr AS WRITTEN: `i *= i` on a 32-bit unsigned, so the k-th value of
      i wraps around modulo 2^32. */
  function PowTerm32(min: nat, operand: nat, k: nat): nat
  {
    if k == 0 then min % UINT_LIMIT else SquareN32(PowTerm32(min, operand, k - 1), operand)
  }

  function SquareN32(x: nat, n: nat): nat
    decreases n
  {
    if n == 0 then x else SquareN32((x * x) % UINT_LIMIT, n - 1)
  }

  /** With min 2, operand 1 and count 70000 (all accepted by the count
      parser), the 32-bit i runs 2, 4, 16, 256, 65536 and then wraps to 0 and
      stays there: `i < count` holds for ever, so prev_pwr never returns. */
  lemma {:induction false} PrevPwrWrapsAround(k: nat)
    ensures k <= 4 ==> PowTerm32(2, 1, k) == PowTerm(2, 1, k)
    ensures k >= 5 ==> PowTerm32(2, 1, k) == 0
    ensures PowTerm32(2, 1, k) < 70000
  {
    FirstTermsOfTwo();
    if k > 5 {
      PrevPwrWrapsAround(k - 1);
      assert PowTerm32(2, 1, k) == SquareN32(PowTerm32(2, 1, k - 1), 1);
      assert SquareN32(0, 1) == 0;
    }
  }

  /** The first six values of i, 32-bit and unbounded, for min 2 and
      operand 1. */
  lemma FirstTermsOfTwo()
    ensures PowTerm32(2, 1, 0) == PowTerm(2, 1, 0) == 2
    ensures PowTerm32(2, 1, 1) == PowTerm(2, 1, 1) == 4
    ensures PowTerm32(2, 1, 2) == PowTerm(2, 1, 2) == 16
    ensures PowTerm32(2, 1, 3) == PowTerm(2, 1, 3) == 256
    ensures PowTerm32(2, 1, 4) == PowTerm(2, 1, 4) == 65536
    ensures PowTerm32(2, 1, 5) == 0
  {
    assert SquareN32(65536, 1) == (65536 * 65536) % UINT_LIMIT == 0;
  }

  /** Over unbounded integers the same call returns 65536, the largest term
      below 70000. */
  lemma PrevPwrUnboundedExample()
    ensures PrevPwrOf(2, 70000, 1) == 65536
  {
    assert SquareN(65536, 1) == 4294967296;
    assert PrevPwrFrom(4294967296, 70000, 1, 65536) == 65536;
    assert PrevPwrFrom(65536, 70000, 1, 256) == 65536;
    assert PrevPwrFrom(256, 70000, 1, 16) == 65536;
    assert PrevPwrFrom(16, 70000, 1, 4) == 65536;
    assert PrevPwrFrom(4, 70000, 1, 2) == 65536;
    assert PrevPwrFrom(2, 70000, 1, 0) == 65536;
  }

  // ---------------------------------------------------------------------
  // select_count
  // ---------------------------------------------------------------------

  /** The operators select_count knows; any other leaves the count at max. */
  predicate Shrinking(oper: char)
  {
    oper == '+' || oper == '*' || oper == '^'
  }

  /** The unsigned value of an int operand. */
  function AsUnsigned32(operand: int32): uint
  {
    operand % UINT_LIMIT
  }

  /** One pass of the loop body can be taken. A '+' pass always can: it
      subtracts in unsigned arithmetic. A '*' pass by an unsigned divisor of
      0 divides by zero. A '^' pass calls prev_pwr on a count above min,
      whose loop never ends unless min >= 2 and operand >= 1. */
  predicate StepOk(c: Count)
  {
    if c.oper == '*' then AsUnsigned32(c.operand) != 0
    else if c.oper == '^' then c.min >= 2 && c.operand >= 1
    else true
  }

  /** One pass of the loop body, in unsigned arithmetic. A '^' pass uses the
      corrected prev_pwr over unbounded integers (PrevPwrOf), not the 32-bit
      one of the source (PrevPwrWrapsAround). */
  function Step(c: Count, count: uint): uint
    requires Shrinking(c.oper) && StepOk(c)
  {
    if c.oper == '+' then (count - c.operand) % UINT_LIMIT
    else if c.oper == '*' then
      DivAtMost(count, AsUnsigned32(c.operand));
      count / AsUnsigned32(c.operand)
    else
      PrevPwrBounds(c.min, count, c.operand);
      PrevPwrOf(c.min, count, c.operand)
  }

  lemma DivAtMost(x: nat, d: nat)
    requires d >= 1
    ensures 0 <= x / d <= x
    ensures x >= 1 && d >= 2 ==> x / d < x
  {
  }

  /** The count after k passes of the loop body from x. */
  function Iter(c: Count, x: uint, k: nat): uint
    requires Shrinking(c.oper) && StepOk(c)
    decreases k
  {
    if k == 0 then x else Iter(c, Step(c, x), k - 1)
  }

  /** The loop from x against qc ends: some number of passes reaches a value
      at most qc. Nothing else stops the loop, so on any other input it runs
      for ever. */
  ghost predicate Ends(c: Count, x: uint, qc: uint)
    requires Shrinking(c.oper) && StepOk(c)
  {
    exists k: nat :: Iter(c, x, k) <= qc
  }

  /** k passes from x reach qc, and fewer passes do not. */
  ghost predicate FirstFit(c: Count, x: uint, qc: uint, k: nat)
    requires Shrinking(c.oper) && StepOk(c)
  {
    Iter(c, x, k) <= qc && forall j :: 0 <= j < k ==> Iter(c, x, j) > qc
  }

  /** A loop that ends reaches qc after a least number of passes. */
  lemma LeastPasses(c: Count, x: uint, qc: uint)
    requires Shrinking(c.oper) && StepOk(c) && Ends(c, x, qc)
    ensures exists k: nat :: FirstFit(c, x, qc, k)
  {
    var k0: nat :| Iter(c, x, k0) <= qc;
    var k: nat := 0;
    while Iter(c, x, k) > qc
      invariant k <= k0
      invariant forall j :: 0 <= j < k ==> Iter(c, x, j) > qc
      decreases k0 - k
    {
      k := k + 1;
    }
    assert FirstFit(c, x, qc, k);
  }

  /** The number of passes the loop from x makes against qc. */
  ghost function Passes(c: Count, x: uint, qc: uint): (k: nat)
    requires Shrinking(c.oper) && StepOk(c) && Ends(c, x, qc)
    ensures FirstFit(c, x, qc, k)
  {
    LeastPasses(c, x, qc);
    var k: nat :| FirstFit(c, x, qc, k);
    k
  }

  /** A pass from a count above qc leaves one pass fewer. */
  lemma PassesStep(c: Count, x: uint, qc: uint)
    requires Shrinking(c.oper) && StepOk(c) && Ends(c, x, qc) && x > qc
    ensures Ends(c, Step(c, x), qc) && Passes(c, Step(c, x), qc) == Passes(c, x, qc) - 1
  {
    var k := Passes(c, x, qc);
    assert Iter(c, x, 0) == x;
    assert k >= 1;
    assert Iter(c, Step(c, x), k - 1) == Iter(c, x, k);
    var k' := Passes(c, Step(c, x), qc);
    assert k' <= k - 1;
    assert Iter(c, x, k' + 1) == Iter(c, Step(c, x), k');
  }

  /** The loop run from count: the first value of the chain that is <= qc. */
  function Shrink(c: Count, count: uint, qc: uint): uint
    requires Shrinking(c.oper) && StepOk(c) && Ends(c, count, qc)
    decreases Passes(c, count, qc)
  {
    if count <= qc then count
    else
      PassesStep(c, count, qc);
      Shrink(c, Step(c, count), qc)
  }

  /** select_count returns before the loop, or the loop does not run, or it
      ends. This is exactly the set of inputs on which select_count
      returns. */
  ghost predicate SelectCountTerminates(c: Count, qc: uint)
  {
    c.max < c.min || c.min > qc || c.max <= qc || !Shrinking(c.oper) || (StepOk(c) && Ends(c, c.max, qc))
  }

  /** The result select_count computes. */
  function SelectCountSpec(c: Count, qc: uint): uint
    requires SelectCountTerminates(c, qc)
  {
    if c.max < c.min || c.min > qc then 0
    else
      var count := if Shrinking(c.oper) && c.max > qc then Shrink(c, c.max, qc) else c.max;
      if count >= c.min then count else 0
  }

  /** Above qc >= min: a '^' pass strictly lowers the count and stays at
      least min; a '*' pass strictly lowers it exactly when the divisor is 2
      or more; a '+' pass by an operand between 0 and the count subtracts it
      without wrapping. */
  lemma StepDecreases(c: Count, count: uint, qc: uint)
    requires Shrinking(c.oper) && StepOk(c)
    requires c.min <= qc < count
    ensures c.oper == '^' ==> c.min <= Step(c, count) < count
    ensures c.oper == '*' ==> (Step(c, count) < count <==> AsUnsigned32(c.operand) >= 2)
    ensures c.oper == '+' && 0 <= c.operand <= count ==> Step(c, count) == count - c.operand
  {
    if c.oper == '^' {
      PrevPwrBounds(c.min, count, c.operand);
    } else if c.oper == '*' {
      DivAtMost(count, AsUnsigned32(c.operand));
    }
  }

  /** Shrinking ends at a value <= qc and <= the start. */
  lemma {:induction false} ShrinkFits(c: Count, count: uint, qc: uint)
    requires Shrinking(c.oper) && StepOk(c) && Ends(c, count, qc) && c.min <= qc
    ensures Shrink(c, count, qc) <= qc && Shrink(c, count, qc) <= count
    ensures c.oper == '^' && count >= c.min ==> Shrink(c, count, qc) >= c.min
    decreases Passes(c, count, qc)
  {
    if count > qc {
      PassesStep(c, count, qc);
      StepDecreases(c, count, qc);
      ShrinkFits(c, Step(c, count), qc);
    }
  }

  /** select_count returns 0 when max < min or min > qc; any other result is
      between min and max; with a shrinking operator it is at most qc, and a
      '^' count never ends below min. */
  lemma SelectCountBounds(c: Count, qc: uint)
    requires SelectCountTerminates(c, qc)
    ensures c.max < c.min || c.min > qc ==> SelectCountSpec(c, qc) == 0
    ensures SelectCountSpec(c, qc) != 0 ==> c.min <= SelectCountSpec(c, qc) <= c.max
    ensures Shrinking(c.oper) ==> SelectCountSpec(c, qc) <= qc
    ensures c.oper == '^' && c.min <= c.max && c.min <= qc ==> SelectCountSpec(c, qc) >= c.min
  {
    if !(c.max < c.min || c.min > qc) && Shrinking(c.oper) && c.max > qc {
      ShrinkFits(c, c.max, qc);
    }
  }

  /** The k-th value the loop would reach from max. */
  function Term(c: Count, k: nat): uint
    requires Shrinking(c.oper) && StepOk(c)
  {
    if k == 0 then c.max else Step(c, Term(c, k - 1))
  }

  lemma {:induction false} IterLast(c: Count, x: uint, k: nat)
    requires Shrinking(c.oper) && StepOk(c)
    ensures Iter(c, x, k + 1) == Step(c, Iter(c, x, k))
    decreases k
  {
    if k > 0 {
      IterLast(c, Step(c, x), k - 1);
    }
  }

  lemma {:induction false} TermIsIter(c: Count, k: nat)
    requires Shrinking(c.oper) && StepOk(c)
    ensures Term(c, k) == Iter(c, c.max, k)
  {
    if k > 0 {
      TermIsIter(c, k - 1);
      IterLast(c, c.max, k - 1);
    }
  }

  /** Shrinking from x stops after exactly Passes(c, x, qc) passes. */
  lemma {:induction false} ShrinkIsIter(c: Count, x: uint, qc: uint)
    requires Shrinking(c.oper) && StepOk(c) && Ends(c, x, qc)
    ensures Shrink(c, x, qc) == Iter(c, x, Passes(c, x, qc))
    decreases Passes(c, x, qc)
  {
    if x > qc {
      PassesStep(c, x, qc);
      ShrinkIsIter(c, Step(c, x), qc);
      assert Iter(c, x, Passes(c, x, qc)) == Iter(c, Step(c, x), Passes(c, x, qc) - 1);
    } else {
      assert Iter(c, x, 0) == x;
    }
  }

  /** The loop result is the FIRST value of max, Step(max), Step(Step(max)),
      ... that is <= qc. */
  lemma ShrinkIsFirstFit(c: Count, qc: uint)
    requires Shrinking(c.oper) && StepOk(c) && Ends(c, c.max, qc)
    ensures exists k: nat :: Shrink(c, c.max, qc) == Term(c, k) && Term(c, k) <= qc
                        && forall j :: 0 <= j < k ==> Term(c, j) > qc
  {
    var k := Passes(c, c.max, qc);
    ShrinkIsIter(c, c.max, qc);
    TermIsIter(c, k);
    forall j | 0 <= j < k
      ensures Term(c, j) > qc
    {
      TermIsIter(c, j);
    }
  }

  /** With '+' by a positive operand and count % operand <= qc, the loop
      ends without wrapping below 0: at count - k * operand for some k >= 1,
      and one operand more exceeds qc. */
  lemma {:induction false} PlusShrink(c: Count, count: uint, qc: uint)
    requires c.oper == '+' && 1 <= c.operand && count % c.operand <= qc < count
    ensures Ends(c, count, qc)
    ensures exists k: nat :: k >= 1 && Shrink(c, count, qc) == count - k * c.operand
    ensures Shrink(c, count, qc) <= qc < Shrink(c, count, qc) + c.operand
    decreases count
  {
    var q, r := count / c.operand, count % c.operand;
    assert count == q * c.operand + r;
    MulMonotone(0, c.operand, q);
    assert q >= 1;
    var next := count - c.operand;
    assert next == (q - 1) * c.operand + r;
    MulMonotone(q - 1, c.operand, 0);
    DivUnique(next, c.operand, q - 1, r);
    assert Step(c, count) == next;
    assert Iter(c, count, 1) == next;
    if next > qc {
      PlusShrink(c, next, qc);
      var k0: nat :| Iter(c, next, k0) <= qc;
      assert Iter(c, count, k0 + 1) == Iter(c, next, k0);
      var k: nat :| k >= 1 && Shrink(c, next, qc) == next - k * c.operand;
      assert Shrink(c, count, qc) == Shrink(c, next, qc);
      assert Shrink(c, count, qc) == count - (k + 1) * c.operand;
    } else {
      assert Shrink(c, count, qc) == Shrink(c, next, qc) == next;
      assert Shrink(c, count, qc) == count - 1 * c.operand;
    }
  }

  /** Worked examples of select_count's '+' pass: min 2, max 8, '+' 2 gives 4 against 5
      (8, 6, 4) and 0 against 1 (1 is below min); min 1, max 10, '+' 3 gives
      1 against 2 (10, 7, 4, 1). */
  lemma PlusExample()
    ensures SelectCountTerminates(Count(2, 8, '+', 2), 5) && SelectCountSpec(Count(2, 8, '+', 2), 5) == 4
    ensures SelectCountSpec(Count(2, 8, '+', 2), 1) == 0
    ensures SelectCountTerminates(Count(1, 10, '+', 3), 2) && SelectCountSpec(Count(1, 10, '+', 3), 2) == 1
  {
    var c := Count(2, 8, '+', 2);
    assert Iter(c, 8, 2) == Iter(c, 6, 1) == Iter(c, 4, 0) == 4;
    assert Shrink(c, 8, 5) == Shrink(c, 6, 5) == Shrink(c, 4, 5) == 4;
    var d := Count(1, 10, '+', 3);
    assert Iter(d, 10, 3) == Iter(d, 7, 2) == Iter(d, 4, 1) == Iter(d, 1, 0) == 1;
    assert Shrink(d, 10, 2) == Shrink(d, 7, 2) == Shrink(d, 4, 2) == Shrink(d, 1, 2) == 1;
  }

  /** A '+' pass by 4 keeps the count's residue modulo 4, since 2^32 is a
      multiple of 4. */
  lemma {:induction false} PlusKeepsResidue(c: Count, x: uint, k: nat)
    requires c.oper == '+' && c.operand == 4
    ensures Iter(c, x, k) % 4 == x % 4
    decreases k
  {
    if k > 0 {
      var y := Step(c, x);
      var m := (x - 4) / UINT_LIMIT;
      assert x - 4 == m * UINT_LIMIT + y;
      DivUnique(y, 4, x / 4 - 1 - m * 0x4000_0000, x % 4);
      PlusKeepsResidue(c, y, k - 1);
    }
  }

  /** Whether a '+' loop ends can depend on qc: min 1, max 10, '+' 4 gives 2
      against 2 (10, 6, 2), but against 1 every value it reaches is 2 modulo
      4, so the loop runs for ever. */
  lemma PlusEndsDependsOnQc()
    ensures SelectCountTerminates(Count(1, 10, '+', 4), 2) && SelectCountSpec(Count(1, 10, '+', 4), 2) == 2
    ensures !SelectCountTerminates(Count(1, 10, '+', 4), 1)
  {
    var c := Count(1, 10, '+', 4);
    assert Iter(c, 10, 2) == Iter(c, 6, 1) == Iter(c, 2, 0) == 2;
    assert Shrink(c, 10, 2) == Shrink(c, 6, 2) == Shrink(c, 2, 2) == 2;
    forall k: nat
      ensures Iter(c, 10, k) > 1
    {
      PlusKeepsResidue(c, 10, k);
    }
  }

  /** A '*' loop by an unsigned divisor of 2 or more ends against any qc. */
  lemma {:induction false} TimesEnds(c: Count, x: uint, qc: uint)
    requires c.oper == '*' && AsUnsigned32(c.operand) >= 2
    ensures Ends(c, x, qc)
    decreases x
  {
    if x > qc {
      DivAtMost(x, AsUnsigned32(c.operand));
      TimesEnds(c, Step(c, x), qc);
      var k: nat :| Iter(c, Step(c, x), k) <= qc;
      assert Iter(c, x, k + 1) <= qc;
    } else {
      assert Iter(c, x, 0) <= qc;
    }
  }

  lemma {:induction false} TimesByOneStays(c: Count, x: uint, k: nat)
    requires c.oper == '*' && AsUnsigned32(c.operand) == 1
    ensures Iter(c, x, k) == x
  {
    if k > 0 {
      assert Step(c, x) == x;
      TimesByOneStays(c, x, k - 1);
    }
  }

  /** A '*' loop by an unsigned divisor of 1 never ends from above qc. */
  lemma TimesByOneNeverEnds(c: Count, x: uint, qc: uint)
    requires c.oper == '*' && AsUnsigned32(c.operand) == 1 && x > qc
    ensures !Ends(c, x, qc)
  {
    forall k: nat
      ensures Iter(c, x, k) > qc
    {
      TimesByOneStays(c, x, k);
    }
  }

  /** A '^' loop whose passes can be taken ends against any qc >= min. */
  lemma {:induction false} PowEnds(c: Count, x: uint, qc: uint)
    requires c.oper == '^' && StepOk(c) && c.min <= qc
    ensures Ends(c, x, qc)
    decreases x
  {
    if x > qc {
      StepDecreases(c, x, qc);
      PowEnds(c, Step(c, x), qc);
      var k: nat :| Iter(c, Step(c, x), k) <= qc;
      assert Iter(c, x, k + 1) <= qc;
    } else {
      assert Iter(c, x, 0) <= qc;
    }
  }

  function Pow(d: nat, k: nat): (p: nat)
  {
    if k == 0 then 1 else Pow(d, k - 1) * d
  }

  /** With '*' and unsigned divisor d the chain is max / d^k: each step is an
      integer division by the operand, and repeated divisions compose. */
  lemma {:induction false} TimesTerms(c: Count, k: nat)
    requires c.oper == '*' && StepOk(c)
    ensures Pow(AsUnsigned32(c.operand), k) >= 1
    ensures Term(c, k) == c.max / Pow(AsUnsigned32(c.operand), k)
  {
    var d := AsUnsigned32(c.operand);
    if k > 0 {
      TimesTerms(c, k - 1);
      MulAtLeast(Pow(d, k - 1), d);
      DivDiv(c.max, Pow(d, k - 1), d);
    }
  }

  lemma DivUnique(x: int, d: int, q: int, r: int)
    requires d >= 1 && 0 <= r < d && x == q * d + r
    ensures x / d == q && x % d == r
  {
    var q0, r0 := x / d, x % d;
    assert x == q0 * d + r0 && 0 <= r0 < d;
    assert (q - q0) * d == r0 - r;
    MulAtLeast(q - q0, d);
    MulAtLeast(q0 - q, d);
    assert (q0 - q) * d == r - r0;
  }

  lemma MulAtLeast(k: int, d: int)
    ensures k >= 1 && d >= 1 ==> k * d >= d && k * d >= k
  {
  }

  lemma MulMonotone(p: int, a: int, b: int)
    ensures p >= b && a >= 0 ==> p * a >= b * a
  {
  }

  lemma DivDiv(x: nat, a: nat, b: nat)
    requires a >= 1 && b >= 1
    ensures x / a / b == x / (a * b)
  {
    var q := x / (a * b);
    var r := x % (a * b);
    var r1 := r % a;
    var r2 := r / a;
    assert r2 < b by {
      MulMonotone(r2, a, b);
      assert r2 * a <= r < b * a;
    }
    assert x == (q * b + r2) * a + r1 by {
      assert x == q * (a * b) + r;
      assert r == r2 * a + r1;
      assert q * (a * b) == (q * b) * a;
    }
    DivUnique(x, a, q * b + r2, r1);
    DivUnique(q * b + r2, b, q, r2);
  }

  /** Any other operator, '-' included, leaves the count at max, which can
      exceed qc: min 1, max 8, '-' 2 gives 8 against 5. */
  lemma OtherOperatorKeepsMax(c: Count, qc: uint)
    requires !Shrinking(c.oper) && c.min <= c.max && c.min <= qc
    ensures SelectCountSpec(c, qc) == c.max
    ensures SelectCountSpec(Count(1, 8, '-', 2), 5) == 8
  {
  }

  // ---------------------------------------------------------------------
  // Subsystem registry
  // ---------------------------------------------------------------------

  /** add_subsystem on the ordered list: appended when new. */
  function Register(ss: seq<Subsystem>, s: Subsystem): seq<Subsystem>
  {
    if s in ss then ss else ss + [s]
  }

  /** The registry after the given add_subsystem calls, in order. */
  function RegisterAll(adds: seq<Subsystem>): seq<Subsystem>
  {
    if |adds| == 0 then [] else Register(RegisterAll(adds[..|adds| - 1]), adds[|adds| - 1])
  }

  predicate Distinct(ss: seq<Subsystem>)
  {
    forall i, j :: 0 <= i < j < |ss| ==> ss[i] != ss[j]
  }

  /** After any sequence of add_subsystem calls the registry holds each added
      subsystem exactly once. */
  lemma {:induction false} RegisterAllIsDedup(adds: seq<Subsystem>)
    ensures Distinct(RegisterAll(adds))
    ensures forall s :: s in RegisterAll(adds) <==> s in adds
  {
    if |adds| > 0 {
      var init := adds[..|adds| - 1];
      RegisterAllIsDedup(init);
      assert adds == init + [adds[|adds| - 1]];
    }
  }

  /** The first subsystem added comes first (it is the dominant subsystem),
      and the registry after a prefix of the calls is a prefix of the final
      one: insertion order is kept. */
  lemma {:induction false} RegisterAllKeepsOrder(adds: seq<Subsystem>)
    ensures |adds| > 0 ==> |RegisterAll(adds)| > 0 && RegisterAll(adds)[0] == adds[0]
    ensures forall k :: 0 <= k <= |adds| ==> RegisterAll(adds[..k]) <= RegisterAll(adds)
  {
    if |adds| > 0 {
      var init := adds[..|adds| - 1];
      RegisterAllKeepsOrder(init);
      assert RegisterAll(init) <= RegisterAll(adds);
      forall k | 0 <= k <= |adds|
        ensures RegisterAll(adds[..k]) <= RegisterAll(adds)
      {
        if k < |adds| {
          assert adds[..k] == init[..k];
        } else {
          assert adds[..k] == adds;
        }
      }
      if |init| > 0 {
        assert init[0] == adds[0];
      }
    }
  }

  /** The matcher's subsystem data. */
  class MatcherData {
    var name: string
    var subsystems: seq<Subsystem>
    var subsystemsMap: map<Subsystem, set<string>>
    var sdauResourceTypes: map<Subsystem, set<string>>

    /** The ordered list holds no duplicate and lists exactly the keys of the
        selector map. */
    ghost predicate Valid()
      reads this
    {
      Distinct(subsystems) && (forall s :: s in subsystems <==> s in subsystemsMap)
    }

    constructor (name: string)
      ensures Valid()
      ensures this.name == name && subsystems == [] && subsystemsMap == map[]
      ensures sdauResourceTypes == map[]
    {
      this.name := name;
      subsystems := [];
      subsystemsMap := map[];
      sdauResourceTypes := map[];
    }

    /** The copy constructor copies all four members. */
    constructor Copy(o: MatcherData)
      ensures name == o.name && subsystems == o.subsystems
      ensures subsystemsMap == o.subsystemsMap && sdauResourceTypes == o.sdauResourceTypes
    {
      name := o.name;
      subsystems := o.subsystems;
      subsystemsMap := o.subsystemsMap;
      sdauResourceTypes := o.sdauResourceTypes;
    }

    /** Copy assignment copies all four members. */
    method Assign(o: MatcherData)
      modifies this
      ensures name == old(o.name) && subsystems == old(o.subsystems)
      ensures subsystemsMap == old(o.subsystemsMap)
      ensures sdauResourceTypes == old(o.sdauResourceTypes)
    {
      sdauResourceTypes, name, subsystems, subsystemsMap
        := o.sdauResourceTypes, o.name, o.subsystems, o.subsystemsMap;
    }

    /** `add_subsystem`: a new subsystem is appended with the relation filter
        {tf} and 0 is returned; a known one returns -1 and changes nothing. */
    method AddSubsystem(s: Subsystem, tf: string) returns (rc: int)
      requires Valid()
      modifies this
      ensures Valid()
      ensures subsystems == Register(old(subsystems), s)
      ensures s !in old(subsystemsMap) ==> rc == 0 && subsystemsMap == old(subsystemsMap)[s := {tf}]
      ensures s in old(subsystemsMap) ==> rc == -1 && subsystemsMap == old(subsystemsMap)
      ensures name == old(name) && sdauResourceTypes == old(sdauResourceTypes)
    {
      if s !in subsystemsMap {
        subsystems := subsystems + [s];
        subsystemsMap := subsystemsMap[s := {tf}];
        return 0;
      }
      return -1;
    }

    /** `subsystems()`. */
    function Subsystems(): seq<Subsystem>
      reads this
    {
      subsystems
    }

    /** `dom_subsystem()`: the first subsystem added. */
    function DomSubsystem(): (s: Subsystem)
      requires |subsystems| > 0
      reads this
      ensures s == subsystems[0] && s in subsystems
    {
      subsystems[0]
    }

    /** `prev_pwr`, over unbounded integers. */
    method PrevPwr(min: uint, count: uint, operand: uint) returns (sol: uint)
      requires count <= min || (min >= 2 && operand >= 1)
      ensures sol == PrevPwrOf(min, count, operand)
    {
      var i: nat := min;
      sol := 0;
      while i < count
        invariant i < count ==> i >= 2 && operand >= 1
        invariant PrevPwrFrom(i, count, operand, sol) == PrevPwrOf(min, count, operand)
        decreases count - i
      {
        sol := i;
        var i0 := i;
        var j := 0;
        while j < operand
          invariant 0 <= j <= operand
          invariant SquareN(i, operand - j) == SquareN(i0, operand)
        {
          i := i * i;
          j := j + 1;
        }
        SquareNGrows(i0, operand);
      }
    }

    /** `select_count`. */
    method SelectCount(resource: Resource, qc: uint) returns (r: uint)
      requires SelectCountTerminates(resource.count, qc)
      ensures r == SelectCountSpec(resource.count, qc)
    {
      var c := resource.count;
      var count: uint := c.max;
      if count < c.min || c.min > qc {
        return 0;
      }
      if Shrinking(c.oper) && count > qc {
        if c.oper == '+' {
          while count > qc
            invariant Ends(c, count, qc) && Shrink(c, count, qc) == Shrink(c, c.max, qc)
            decreases Passes(c, count, qc)
          {
            PassesStep(c, count, qc);
            count := (count - c.operand) % UINT_LIMIT;
          }
        } else if c.oper == '*' {
          while count > qc
            invariant Ends(c, count, qc) && Shrink(c, count, qc) == Shrink(c, c.max, qc)
            decreases Passes(c, count, qc)
          {
            PassesStep(c, count, qc);
            count := count / AsUnsigned32(c.operand);
          }
        } else {
          while count > qc
            invariant Ends(c, count, qc) && Shrink(c, count, qc) == Shrink(c, c.max, qc)
            decreases Passes(c, count, qc)
          {
            PassesStep(c, count, qc);
            count := PrevPwr(c.min, count, c.operand);
          }
        }
      }
      return if count >= c.min then count else 0;
    }
  }
}
