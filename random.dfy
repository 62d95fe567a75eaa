/** The rejection-sampling helper `random(min, max, reject, retry)` of
    script.js, over an injected stream of draws in place of `Math.random`. */
module Rand {
  /** The injected random source: the raw value of the i-th draw. */
  type Source = nat -> nat

  /** One call to `Math.random` scaled into `[min, max]`: the raw draw `d`,
      reduced modulo the `max + 1 - min` possible values, stands for
      `Math.floor(Math.random() * (max + 1 - min))`. */
  function Pick(d: nat, min: int, max: int): (v: int)
    requires min <= max
    ensures min <= v <= max
  {
    min + d % (max + 1 - min)
  }

  /** Every value of the range is some draw's value. */
  lemma PickCoversRange(v: int, min: int, max: int)
    requires min <= v <= max
    ensures Pick(v - min, min, max) == v
  {
  }

  /** The predicates the generators pass to `random`, by name; `Nothing`
      is the default `null`. */
  datatype Reject = Nothing | IsZero | AtMostOneOrTen | IsOne | AtMostOne
                  | AmongZeroAnd(num1: int, num2: int)

  /** Whether `reject` rejects `v`: `num === 0`, `num <= 1 || num === 10`,
      `num === 1`, `num <= 1`, `[0, num1, num2].includes(num)`. */
  predicate Rejects(reject: Reject, v: int)
    // the default rejects nothing; every predicate but `num === 1` rejects 0
    ensures reject == Nothing ==> !Rejects(reject, v)
    ensures reject != Nothing && reject != IsOne && v == 0 ==> Rejects(reject, v)
    // no predicate rejects a value above 1 other than 10 or one already drawn
    ensures Rejects(reject, v) && 1 < v && v != 10 ==> reject.AmongZeroAnd? && (v == reject.num1 || v == reject.num2)
  {
    match reject
    case Nothing => false
    case IsZero => v == 0
    case AtMostOneOrTen => v <= 1 || v == 10
    case IsOne => v == 1
    case AtMostOne => v <= 1
    case AmongZeroAnd(num1, num2) => v == 0 || v == num1 || v == num2
  }

  /** A drawn value and the position of the next unread draw. */
  datatype Drawn = Drawn(value: int, next: nat)

  /** `random(min, max, reject, retry)` reading draws from position `pos`:
      while retries remain and the draw is rejected, draw again. */
  function Random(src: Source, pos: nat, min: int, max: int,
                  reject: Reject, retry: nat): (r: Drawn)
    requires min <= max
    ensures min <= r.value <= max
    // at most retry + 1 draws are read
    ensures pos < r.next <= pos + retry + 1
    // without retries or without a predicate, the first draw is the result
    ensures retry == 0 || reject == Nothing ==> r == Drawn(Pick(src(pos), min, max), pos + 1)
    decreases retry
  {
    var num := Pick(src(pos), min, max);
    if retry != 0 && Rejects(reject, num) then
      Random(src, pos + 1, min, max, reject, retry - 1)
    else
      Drawn(num, pos + 1)
  }

  /** The result is the last draw read; every draw before it was rejected,
      and it is rejected itself only when every retry was used. */
  lemma {:induction false} RandomFirstAccepted(src: Source, pos: nat, min: int, max: int,
                                               reject: Reject, retry: nat)
    requires min <= max
    ensures Random(src, pos, min, max, reject, retry).value
            == Pick(src(Random(src, pos, min, max, reject, retry).next - 1), min, max)
    ensures forall j :: pos <= j < Random(src, pos, min, max, reject, retry).next - 1
                        ==> Rejects(reject, Pick(src(j), min, max))
    ensures Random(src, pos, min, max, reject, retry).next < pos + retry + 1
            ==> !Rejects(reject, Random(src, pos, min, max, reject, retry).value)
    decreases retry
  {
    if retry != 0 && Rejects(reject, Pick(src(pos), min, max)) {
      RandomFirstAccepted(src, pos + 1, min, max, reject, retry - 1);
    }
  }

  /** The worked case: rejecting 0 with one retry, on draws 0 then 5, gives 5. */
  lemma RandomRetriesOnce()
    ensures Random((i: nat) => if i == 0 then 0 else 5, 0, 0, 10, IsZero, 1).value == 5
  {
  }
}
