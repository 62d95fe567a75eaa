/** The six problem generators of `Game.getProblems` in script.js, one per
    difficulty tier, each a function of the injected draws. */
module Problems {
  import opened Wrappers
  import opened Rand
  import opened QuestionText

  /** `{question, accessibleQuestion, answer}`: both texts are renderings of
      the expression `expr`. */
  datatype Problem = Problem(expr: Expr, answer: int)

  /** `question`, e.g. `3 + 4 = ?` */
  function Question(p: Problem): (q: string)
    // the visible text reads as the value of the expression
    ensures Evaluate(Symbols, q) == Value(p.expr)
  {
    ReadBack(Symbols, p.expr);
    Render(Symbols, p.expr)
  }

  /** `accessibleQuestion`, e.g. `3 plus 4` */
  function AccessibleQuestion(p: Problem): (q: string)
    // the spoken text reads as the value of the expression
    ensures Evaluate(Words, q) == Value(p.expr)
  {
    ReadBack(Words, p.expr);
    Render(Words, p.expr)
  }

  /** A generated problem, the operand values drawn for it (num1, num2 and,
      for the three-operand tiers, num3) and the position of the next unread draw. */
  datatype Generated = Generated(problem: Problem, operands: seq<int>, next: nat)

  /** `problems.length`: tier 0 addition, 1 subtraction, 2 three-operand
      addition, 3 addition and subtraction, 4 multiplication, 5 division. */
  const Tiers: nat := 6

  /** The answer is the value of the problem's expression. */
  predicate Sound(p: Problem) {
    Value(p.expr) == Some(p.answer)
  }

  /** The answer of a sound problem is what both of its texts read as. */
  lemma SoundTexts(p: Problem)
    requires Sound(p)
    ensures States(Question(p), AccessibleQuestion(p), p.answer)
  {
    ReadBack(Symbols, p.expr);
    ReadBack(Words, p.expr);
  }

  /** Tier 0: `${num1} + ${num2} = ?`. */
  function Addition(src: Source, pos: nat): (g: Generated)
    ensures |g.operands| == 2 && 0 <= g.operands[0] <= 10 && 0 <= g.operands[1] <= 10
    ensures g.problem.expr == Expr(g.operands[0], [Step(Plus, g.operands[1])])
    ensures Sound(g.problem) && 0 <= g.problem.answer <= 20
    ensures pos < g.next <= pos + 4
  {
    var num1 := Random(src, pos, 0, 10, IsZero, 1);
    var num2 := Random(src, num1.next, 0, 10, IsZero, 1);
    var a, b: nat := num1.value, num2.value;
    FoldOne(Acc(0, a), Step(Plus, b), Acc(a, b));
    Generated(Problem(Expr(a, [Step(Plus, b)]), a + b), [a, b], num2.next)
  }

  /** Tier 1: `${num1 + num2} - ${num2} = ?`, whose answer `num1` is never
      negative. */
  function Subtraction(src: Source, pos: nat): (g: Generated)
    ensures |g.operands| == 2 && 0 <= g.operands[0] <= 10 && 0 <= g.operands[1] <= 10
    ensures g.problem.expr == Expr(g.operands[0] + g.operands[1], [Step(Minus, g.operands[1])])
    ensures Sound(g.problem) && g.problem.answer == g.operands[0] >= 0
    ensures pos < g.next <= pos + 4
  {
    var num1 := Random(src, pos, 0, 10, IsZero, 1);
    var num2 := Random(src, num1.next, 0, 10, IsZero, 1);
    var a, b: nat := num1.value, num2.value;
    FoldOne(Acc(0, a + b), Step(Minus, b), Acc(a + b, -(b as int)));
    Generated(Problem(Expr(a + b, [Step(Minus, b)]), a), [a, b], num2.next)
  }

  /** Tier 2: `${num1} + ${num2} + ${num3} = ?`; a zero operand earns the
      later operands one more chance to be non-zero. */
  function ThreeTermAddition(src: Source, pos: nat): (g: Generated)
    ensures |g.operands| == 3 && 0 <= g.operands[0] <= 10 && 0 <= g.operands[1] <= 10 && 0 <= g.operands[2] <= 10
    ensures g.problem.expr == Expr(g.operands[0], [Step(Plus, g.operands[1]), Step(Plus, g.operands[2])])
    ensures Sound(g.problem) && 0 <= g.problem.answer <= 30
    ensures pos < g.next <= pos + 9
  {
    var num1 := Random(src, pos, 0, 10, IsZero, 1);
    var num2 := Random(src, num1.next, 0, 10, IsZero, if num1.value == 0 then 2 else 1);
    var num3 := Random(src, num2.next, 0, 10, IsZero, if num1.value * num2.value == 0 then 2 else 1);
    SumProblem(num1.value, num2.value, num3.value, num3.next)
  }

  function SumProblem(a: nat, b: nat, c: nat, next: nat): (g: Generated)
    ensures g.operands == [a, b, c] && g.next == next
    ensures g.problem.expr == Expr(a, [Step(Plus, b), Step(Plus, c)])
    ensures Sound(g.problem) && g.problem.answer == a + b + c
  {
    FoldTwo(Acc(0, a), Step(Plus, b), Step(Plus, c), Acc(a, b), Acc(a + b, c));
    Generated(Problem(Expr(a, [Step(Plus, b), Step(Plus, c)]), a + b + c), [a, b, c], next)
  }

  // Tier 3: `${num1} + ${num2} - ${num3} = ?`, drawn again (at most five
  // times in all) while the answer would be negative.

  /** `let retry = 5`: the most passes through the do-while body. */
  const Passes: nat := 5

  /** The three draws of one pass through the do-while body. */
  datatype Triple = Triple(num1: int, num2: int, num3: int, next: nat)

  function DrawTriple(src: Source, pos: nat): (t: Triple)
    ensures 0 <= t.num1 <= 10 && 0 <= t.num2 <= 10 && 0 <= t.num3 <= 10
    ensures pos < t.next <= pos + 4
  {
    // `retry` is left at its default 0 for num1 and num2, so their
    // predicate is never consulted.
    var num1 := Random(src, pos, 0, 10, IsZero, 0);
    var num2 := Random(src, num1.next, 0, 10, IsZero, 0);
    var num3 := Random(src, num2.next, 0, 10, AmongZeroAnd(num1.value, num2.value), 1);
    Triple(num1.value, num2.value, num3.value, num3.next)
  }

  predicate Negative(t: Triple) {
    t.num1 + t.num2 < t.num3
  }

  datatype Tried = Tried(last: Triple, retry: nat)

  /** The do-while `while (num1 + num2 < num3 && --retry)`, from the pass
      at `pos` with `retry` passes left: the last pass's draws and the
      value `retry` ends with, 0 exactly when every pass was negative. */
  function MixedLoop(src: Source, pos: nat, retry: nat): (r: Tried)
    requires 1 <= retry
    ensures r.retry <= retry
    ensures r.retry == 0 <==> Negative(r.last)
    ensures 0 <= r.last.num1 <= 10 && 0 <= r.last.num2 <= 10 && 0 <= r.last.num3 <= 10
    ensures pos < r.last.next <= pos + 4 * retry
    decreases retry
  {
    var t := DrawTriple(src, pos);
    if !Negative(t) then Tried(t, retry)
    else if retry - 1 == 0 then Tried(t, 0)
    else MixedLoop(src, t.next, retry - 1)
  }

  /** A negative pass with retries left goes on from the next draw. */
  lemma MixedLoopNegative(src: Source, pos: nat, retry: nat)
    requires 2 <= retry && Negative(DrawTriple(src, pos))
    ensures MixedLoop(src, pos, retry) == MixedLoop(src, DrawTriple(src, pos).next, retry - 1)
  {
  }

  /** The fallback after five negative passes, with num3 clamped to
      `Math.min(10, num1 + num2)`. */
  function Fallback(src: Source, pos: nat): (t: Triple)
    ensures 0 <= t.num1 <= 10 && 0 <= t.num2 <= 10 && 0 <= t.num3 <= 10
    ensures !Negative(t)
    ensures pos < t.next == pos + 3
  {
    var num1 := Random(src, pos, 0, 10, Nothing, 0);
    var num2 := Random(src, num1.next, 0, 10, Nothing, 0);
    var num3 := Random(src, num2.next, 0, Min(10, num1.value + num2.value), Nothing, 0);
    Triple(num1.value, num2.value, num3.value, num3.next)
  }

  function Min(a: int, b: int): int {
    if a < b then a else b
  }

  function MixedProblem(t: Triple): (g: Generated)
    requires 0 <= t.num1 && 0 <= t.num2 && 0 <= t.num3
    ensures g.operands == [t.num1, t.num2, t.num3] && g.next == t.next
    ensures g.problem.expr == Expr(t.num1, [Step(Plus, t.num2), Step(Minus, t.num3)])
    ensures Sound(g.problem) && g.problem.answer == t.num1 + t.num2 - t.num3
  {
    var a, b, c: nat := t.num1, t.num2, t.num3;
    FoldTwo(Acc(0, a), Step(Plus, b), Step(Minus, c), Acc(a, b), Acc(a + b, -(c as int)));
    Generated(Problem(Expr(a, [Step(Plus, b), Step(Minus, c)]), a + b - c), [a, b, c], t.next)
  }

  /** The answer is never negative, whether the loop ends early, runs out
      of passes, or takes the fallback. */
  function Mixed(src: Source, pos: nat): (g: Generated)
    ensures |g.operands| == 3 && 0 <= g.operands[0] <= 10 && 0 <= g.operands[1] <= 10 && 0 <= g.operands[2] <= 10
    ensures g.problem.expr == Expr(g.operands[0], [Step(Plus, g.operands[1]), Step(Minus, g.operands[2])])
    ensures Sound(g.problem) && 0 <= g.problem.answer <= 20
    ensures pos < g.next <= pos + 23
  {
    var r := MixedLoop(src, pos, Passes);
    MixedProblem(if r.retry == 0 then Fallback(src, r.last.next) else r.last)
  }

  /** The do-while loop of tier 3: the draws of its last pass and the
      value `retry` is left with. */
  method RetryMixed(src: Source, pos: nat) returns (t: Triple, retry: nat)
    ensures Tried(t, retry) == MixedLoop(src, pos, Passes)
  {
    ghost var goal := MixedLoop(src, pos, Passes);
    retry := Passes;
    var at := pos;
    t := DrawTriple(src, at);
    // `num1 + num2 < num3 && --retry`: a negative pass costs one retry,
    // and the loop goes on while some are left
    while t.num1 + t.num2 < t.num3 && retry - 1 != 0
      invariant 1 <= retry <= Passes
      invariant t == DrawTriple(src, at)
      invariant MixedLoop(src, at, retry) == goal
      decreases retry
    {
      MixedLoopNegative(src, at, retry);
      retry := retry - 1;
      at := t.next;
      t := DrawTriple(src, at);
    }
    if t.num1 + t.num2 < t.num3 {
      retry := retry - 1;
    }
  }

  /** The tier 3 generator as script.js runs it. */
  method GenerateMixed(src: Source, pos: nat) returns (g: Generated)
    ensures g == Mixed(src, pos)
  {
    var t, retry := RetryMixed(src, pos);
    if retry == 0 {
      t := Fallback(src, t.next);
    }
    g := MixedProblem(t);
  }

  /** Tier 4: `${num1} × ${num2} = ?`, with factors 0, 1 and 10 given two
      more chances to be avoided. */
  function Multiplication(src: Source, pos: nat): (g: Generated)
    ensures |g.operands| == 2 && 0 <= g.operands[0] <= 10 && 0 <= g.operands[1] <= 10
    ensures g.problem.expr == Expr(g.operands[0], [Step(Times, g.operands[1])])
    ensures Sound(g.problem) && 0 <= g.problem.answer <= 100
    ensures pos < g.next <= pos + 6
  {
    var num1 := Random(src, pos, 0, 10, AtMostOneOrTen, 2);
    var num2 := Random(src, num1.next, 0, 10, AtMostOneOrTen, 2);
    ProductProblem(num1.value, num2.value, num2.next)
  }

  function ProductProblem(a: nat, b: nat, next: nat): (g: Generated)
    requires a <= 10 && b <= 10
    ensures g.operands == [a, b] && g.next == next
    ensures g.problem.expr == Expr(a, [Step(Times, b)])
    ensures Sound(g.problem) && 0 <= g.problem.answer == a * b <= 100
  {
    FoldOne(Acc(0, a), Step(Times, b), Acc(0, a * b));
    ProductBound(a, b);
    Generated(Problem(Expr(a, [Step(Times, b)]), a * b), [a, b], next)
  }

  /** Tier 5: `${num1 * num2} ÷ ${num1} = ?`. Both predicates are passed
      with the default `retry` 0, so neither draw is ever redrawn: the
      divisor is the first draw in [1, 10], possibly 1. The division is
      exact and its answer is `num2`. */
  function Division(src: Source, pos: nat): (g: Generated)
    ensures g.operands == [Pick(src(pos), 1, 10), Pick(src(pos + 1), 0, 10)]
    ensures g.next == pos + 2
    ensures g.problem.expr == Expr(g.operands[0] * g.operands[1], [Step(Divide, g.operands[0])])
    ensures Sound(g.problem) && g.problem.answer == g.operands[1]
  {
    var num1 := Random(src, pos, 1, 10, IsOne, 0);
    var num2 := Random(src, num1.next, 0, 10, AtMostOne, 0);
    var a, b: nat := num1.value, num2.value;
    ExactQuotient(a, b);
    FoldOne(Acc(0, a * b), Step(Divide, a), Acc(0, b));
    Generated(Problem(Expr(a * b, [Step(Divide, a)]), b), [a, b], num2.next)
  }

  lemma ProductBound(a: nat, b: nat)
    requires a <= 10 && b <= 10
    ensures a * b <= 100
  {
    assert a * b <= 10 * b;
  }

  lemma ExactQuotient(a: nat, b: nat)
    requires 1 <= a
    ensures (a * b) % a == 0 && (a * b) / a == b
  {
    RemainderUnique(a * b, a, b, 0);
  }

  /** Euclidean division has one quotient and remainder. */
  lemma RemainderUnique(d: int, n: int, q: int, k: int)
    requires 0 < n && 0 <= k < n && d == q * n + k
    ensures d % n == k && d / n == q
  {
    var q', k' := d / n, d % n;
    assert d == q' * n + k';
    assert (q - q') * n == k' - k;
    SmallMultiple(q - q', n);
  }

  lemma SmallMultiple(m: int, n: int)
    requires 0 < n && -n < m * n < n
    ensures m == 0
  {
    if m >= 1 {
      MulAtLeast(m, n);
      assert false;
    } else if m <= -1 {
      MulAtLeast(-m, n);
      assert false;
    }
  }

  lemma {:induction false} MulAtLeast(m: int, n: int)
    requires 1 <= m && 0 < n
    ensures n <= m * n
    decreases m
  {
    if m > 1 {
      MulAtLeast(m - 1, n);
      assert m * n == (m - 1) * n + n;
    }
  }

  /** The divisor can be 1 even though the code passes a predicate rejecting it. */
  lemma DivisionByOne()
    ensures Division((i: nat) => 0, 0).operands[0] == 1
  {
    assert Pick(0, 1, 10) == 1;
  }

  /** The problem of a tier, as a function of the draws. */
  function GenerateSpec(src: Source, pos: nat, tier: nat): (g: Generated)
    requires tier < Tiers
    ensures Sound(g.problem) && 0 <= g.problem.answer
    ensures pos < g.next
  {
    match tier
    case 0 => Addition(src, pos)
    case 1 => Subtraction(src, pos)
    case 2 => ThreeTermAddition(src, pos)
    case 3 => Mixed(src, pos)
    case 4 => Multiplication(src, pos)
    case _ => Division(src, pos)
  }

  /** `problems[tier]()` */
  method Generate(src: Source, pos: nat, tier: nat) returns (g: Generated)
    requires tier < Tiers
    ensures g == GenerateSpec(src, pos, tier)
  {
    if tier == 3 {
      g := GenerateMixed(src, pos);
    } else {
      g := GenerateSpec(src, pos, tier);
    }
  }
}
