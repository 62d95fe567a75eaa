/** An evaluator for the question texts the generators print, written
    independently of the generators: it reads a flat arithmetic expression
    (numbers separated by spaced operators, with the usual precedence of
    multiplication and division over addition and subtraction) and gives its
    value, or None when the text is not such an expression or a division is
    not exact. It reads both the visible notation (`3 × 4 = ?`) and the
    spoken one (`3 times 4`). */
module QuestionText {
  import opened Wrappers
  import opened Decimal

  datatype Op = Plus | Minus | Times | Divide

  /** The visible question (symbols, ending in " = ?") or the accessible
      question read aloud (words, no ending). */
  datatype Notation = Symbols | Words

  function Spelling(n: Notation, op: Op): string {
    match n
    case Symbols => (match op case Plus => "+" case Minus => "-" case Times => "×" case Divide => "÷")
    case Words => (match op case Plus => "plus" case Minus => "minus" case Times => "times" case Divide => "divided by")
  }

  function Ending(n: Notation): string {
    match n
    case Symbols => " = ?"
    case Words => ""
  }

  /** An operator as printed between two numbers, with a space on each side. */
  function Pad(n: Notation, op: Op): string {
    " " + Spelling(n, op) + " "
  }

  /** The operator whose padded spelling starts `s`, if any. */
  function ReadOp(n: Notation, s: string): Option<Op> {
    if Pad(n, Plus) <= s then Some(Plus)
    else if Pad(n, Minus) <= s then Some(Minus)
    else if Pad(n, Times) <= s then Some(Times)
    else if Pad(n, Divide) <= s then Some(Divide)
    else None
  }

  /** The value read so far: `sum` of the finished additive terms plus the
      signed multiplicative `term` still being built. */
  datatype Acc = Acc(sum: int, term: int)

  function Apply(acc: Acc, op: Op, x: int): Option<Acc> {
    match op
    case Plus => Some(Acc(acc.sum + acc.term, x))
    case Minus => Some(Acc(acc.sum + acc.term, -x))
    case Times => Some(Acc(acc.sum, acc.term * x))
    case Divide => if x != 0 && acc.term % x == 0 then Some(Acc(acc.sum, acc.term / x)) else None
  }

  /** The value of the expression text `s`. */
  function Evaluate(n: Notation, s: string): Option<int> {
    var k := DigitRun(s);
    if k == 0 then None else EvalFrom(n, Acc(0, DigitsValue(s[..k])), s[k..])
  }

  /** What is left after reading one operator and the number after it. */
  datatype Reading = Reading(acc: Acc, rest: string)

  function ReadStep(n: Notation, acc: Acc, s: string): (r: Option<Reading>)
    ensures r.Some? ==> |r.value.rest| < |s|
  {
    match ReadOp(n, s)
    case None => None
    case Some(op) =>
      var t := s[|Pad(n, op)|..];
      var k := DigitRun(t);
      if k == 0 then None
      else match Apply(acc, op, DigitsValue(t[..k]))
        case None => None
        case Some(a) => Some(Reading(a, t[k..]))
  }

  function EvalFrom(n: Notation, acc: Acc, s: string): Option<int>
    decreases |s|
  {
    if s == Ending(n) then Some(acc.sum + acc.term)
    else match ReadStep(n, acc, s)
      case None => None
      case Some(r) => EvalFrom(n, r.acc, r.rest)
  }

  /** A problem's texts state its answer: both the visible and the spoken
      question evaluate to it. */
  predicate States(question: string, spoken: string, answer: int) {
    Evaluate(Symbols, question) == Some(answer) && Evaluate(Words, spoken) == Some(answer)
  }

  // Reading a rendered text, piece by piece.

  predicate StartsOutsideNumber(s: string) {
    s == [] || !IsDigit(s[0])
  }

  lemma ReadOpSpelled(n: Notation, op: Op, s: string)
    requires Pad(n, op) <= s
    ensures ReadOp(n, s) == Some(op)
  {
    assert s[1] == Pad(n, op)[1];
  }

  /** The first number of a text. */
  lemma {:induction false} EvaluateFirst(n: Notation, x: nat, rest: string)
    requires StartsOutsideNumber(rest)
    ensures Evaluate(n, Show(x) + rest) == EvalFrom(n, Acc(0, x), rest)
  {
    DigitRunAfterShow(x, rest);
    ShowRoundTrip(x);
  }

  /** One operator and the number after it. */
  lemma {:induction false} ReadSpelled(n: Notation, acc: Acc, op: Op, x: nat, rest: string, r: Acc)
    requires StartsOutsideNumber(rest)
    requires Apply(acc, op, x) == Some(r)
    ensures ReadStep(n, acc, Pad(n, op) + Show(x) + rest) == Some(Reading(r, rest))
  {
    var p := Pad(n, op);
    var t := Show(x) + rest;
    assert p + Show(x) + rest == p + t;
    assert p <= p + t;
    ReadOpSpelled(n, op, p + t);
    assert (p + t)[|p|..] == t;
    DigitRunAfterShow(x, rest);
    ShowRoundTrip(x);
  }

  /** An operator whose division is not exact stops the reading. */
  lemma {:induction false} ReadUnapplied(n: Notation, acc: Acc, op: Op, x: nat, rest: string)
    requires StartsOutsideNumber(rest)
    requires Apply(acc, op, x) == None
    ensures EvalFrom(n, acc, Pad(n, op) + Show(x) + rest) == None
  {
    var s := Pad(n, op) + Show(x) + rest;
    assert s != Ending(n) by {
      if n == Symbols { assert s[1] != Ending(n)[1]; }
    }
    var p := Pad(n, op);
    var t := Show(x) + rest;
    assert p + Show(x) + rest == p + t;
    assert p <= p + t;
    ReadOpSpelled(n, op, p + t);
    assert (p + t)[|p|..] == t;
    DigitRunAfterShow(x, rest);
    ShowRoundTrip(x);
  }

  lemma {:induction false} EvalStep(n: Notation, acc: Acc, op: Op, x: nat, rest: string, r: Acc)
    requires StartsOutsideNumber(rest)
    requires Apply(acc, op, x) == Some(r)
    ensures EvalFrom(n, acc, Pad(n, op) + Show(x) + rest) == EvalFrom(n, r, rest)
  {
    var s := Pad(n, op) + Show(x) + rest;
    assert s != Ending(n) by {
      if n == Symbols { assert s[1] != Ending(n)[1]; }
    }
    ReadSpelled(n, acc, op, x, rest, r);
  }

  /** The last operator and number of a text. */
  lemma {:induction false} EvalLast(n: Notation, acc: Acc, op: Op, x: nat, r: Acc)
    requires Apply(acc, op, x) == Some(r)
    ensures EvalFrom(n, acc, Pad(n, op) + Show(x) + Ending(n)) == Some(r.sum + r.term)
  {
    assert StartsOutsideNumber(Ending(n));
    EvalStep(n, acc, op, x, Ending(n), r);
    EvalEnd(n, r);
  }

  lemma EvalEnd(n: Notation, acc: Acc)
    ensures EvalFrom(n, acc, Ending(n)) == Some(acc.sum + acc.term)
  {
  }

  lemma Associate(a: string, b: string, c: string)
    ensures a + b + c == a + (b + c)
  {
  }

  /** A flat expression as the generators print it: a first number, then
      operator and number pairs. */
  datatype Expr = Expr(first: nat, rest: seq<Step>)

  datatype Step = Step(op: Op, operand: nat)

  /** The text of an expression in a notation: `${num1} + ${num2} = ?` is
      `Render(Symbols, Expr(num1, [Step(Plus, num2)]))` and
      `${num1} plus ${num2}` is `Render(Words, Expr(num1, [Step(Plus, num2)]))`. */
  function Render(n: Notation, e: Expr): (r: string)
    // the text opens with the first operand, read as one whole number
    ensures DigitRun(r) == |Show(e.first)| && r[..|Show(e.first)|] == Show(e.first)
    // and closes with the notation's ending
    ensures |Ending(n)| <= |r| && r[|r| - |Ending(n)|..] == Ending(n)
  {
    TailStartsOutsideNumber(n, e.rest);
    Associate(Show(e.first), Tail(n, e.rest), Ending(n));
    DigitRunAfterShow(e.first, Tail(n, e.rest) + Ending(n));
    Show(e.first) + Tail(n, e.rest) + Ending(n)
  }

  function Tail(n: Notation, steps: seq<Step>): string
    decreases |steps|
  {
    if |steps| == 0 then "" else Pad(n, steps[0].op) + Show(steps[0].operand) + Tail(n, steps[1..])
  }

  /** The arithmetic value of an expression, with the same precedence. */
  function Value(e: Expr): Option<int> {
    Fold(Acc(0, e.first), e.rest)
  }

  function Fold(acc: Acc, steps: seq<Step>): Option<int>
    decreases |steps|
  {
    if |steps| == 0 then Some(acc.sum + acc.term)
    else match Apply(acc, steps[0].op, steps[0].operand)
      case None => None
      case Some(a) => Fold(a, steps[1..])
  }

  lemma FoldOne(acc: Acc, s: Step, r: Acc)
    requires Apply(acc, s.op, s.operand) == Some(r)
    ensures Fold(acc, [s]) == Some(r.sum + r.term)
  {
    assert [s][1..] == [];
  }

  lemma FoldTwo(acc: Acc, s1: Step, s2: Step, r1: Acc, r2: Acc)
    requires Apply(acc, s1.op, s1.operand) == Some(r1)
    requires Apply(r1, s2.op, s2.operand) == Some(r2)
    ensures Fold(acc, [s1, s2]) == Some(r2.sum + r2.term)
  {
    assert [s1, s2][1..] == [s2];
    FoldOne(r1, s2, r2);
  }

  /** Reading a rendered expression back gives its value, in both notations. */
  lemma {:induction false} ReadBack(n: Notation, e: Expr)
    ensures Evaluate(n, Render(n, e)) == Value(e)
  {
    var rest := Tail(n, e.rest) + Ending(n);
    Associate(Show(e.first), Tail(n, e.rest), Ending(n));
    TailStartsOutsideNumber(n, e.rest);
    EvaluateFirst(n, e.first, rest);
    ReadTail(n, Acc(0, e.first), e.rest);
  }

  lemma TailStartsOutsideNumber(n: Notation, steps: seq<Step>)
    ensures StartsOutsideNumber(Tail(n, steps) + Ending(n))
  {
    if |steps| > 0 {
      var s := Tail(n, steps) + Ending(n);
      assert s[0] == Pad(n, steps[0].op)[0];
    }
  }

  lemma {:induction false} ReadTail(n: Notation, acc: Acc, steps: seq<Step>)
    ensures EvalFrom(n, acc, Tail(n, steps) + Ending(n)) == Fold(acc, steps)
    decreases |steps|
  {
    if |steps| == 0 {
      assert Tail(n, steps) + Ending(n) == Ending(n);
      EvalEnd(n, acc);
    } else {
      var op, x := steps[0].op, steps[0].operand;
      var rest := Tail(n, steps[1..]) + Ending(n);
      Associate(Pad(n, op) + Show(x), Tail(n, steps[1..]), Ending(n));
      TailStartsOutsideNumber(n, steps[1..]);
      match Apply(acc, op, x)
      case None =>
        ReadUnapplied(n, acc, op, x, rest);
      case Some(r) =>
        EvalStep(n, acc, op, x, rest, r);
        ReadTail(n, r, steps[1..]);
    }
  }
}
