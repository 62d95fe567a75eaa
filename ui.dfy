/** The parts of `class UI` in script.js that decide something: the submit
    handler that drives the game, and the rendering of a duration. */
module Ui {
  import opened Decimal
  import opened Wrappers
  import opened Rand
  import opened Problems
  import opened Quiz

  // ---------------------------------------------------------------------
  // onSubmit(event)

  /** One submission of the answer form: start a game when none is running;
      otherwise score `response` and, if the game goes on, ask the next
      question. */
  function SubmitSpec(src: Source, s: GameState, response: int, now: int): (o: Outcome)
    requires Consistent(s)
    ensures Consistent(o.state)
  {
    if s.done then
      RestartSpec(src, s, now)
    else
      var answered := AnswerSpec(s, response, now).outcome;
      AnswerCounts(s, response, now);
      if answered.state.done then
        answered
      else
        var asked := NewQuestionSpec(src, answered.state);
        Outcome(asked.state, answered.emitted + asked.emitted)
  }

  /** A submission outside a game starts one; inside a game it is judged
      first and counts as one more question; a question is asked exactly
      when the game goes on. */
  lemma SubmitSteps(src: Source, s: GameState, response: int, now: int)
    requires Consistent(s)
    ensures var o := SubmitSpec(src, s, response, now);
            s.done ==> o == RestartSpec(src, s, now)
    ensures var o := SubmitSpec(src, s, response, now);
            !s.done ==> && |o.emitted| >= 1
                        && o.emitted[0] == (if s.answer == Some(response) then Correct else Wrong(s.answer))
                        && o.state.score == s.score + (if s.answer == Some(response) then 1 else 0)
                        && Total(o.state) == Total(s) + 1
    ensures var o := SubmitSpec(src, s, response, now);
            !o.state.done ==> |o.emitted| >= 1 && o.emitted[|o.emitted| - 1].Ask?
    // an answer that ends the game is all that happens: no question follows
    ensures var o := SubmitSpec(src, s, response, now);
            var answered := AnswerSpec(s, response, now).outcome;
            !s.done && answered.state.done
            ==> o == answered && forall i :: 0 <= i < |o.emitted| ==> !o.emitted[i].Ask?
  {
    if !s.done {
      AnswerCounts(s, response, now);
    }
  }

  /** No submission makes the record worse or lowers its level. */
  lemma SubmitKeepsRecord(src: Source, s: GameState, response: int, now: int)
    requires Consistent(s)
    ensures var t := SubmitSpec(src, s, response, now).state;
            NoWorse(t.record, s.record) && s.record.level <= t.record.level
  {
    if !s.done {
      AnswerKeepsRecord(s, response, now);
    }
  }

  /** `onSubmit(event)`; `response` is `Number(input.value)`. */
  method OnSubmit(game: Game, response: int, now: int)
    modifies game
    requires game.Valid()
    ensures game.Valid()
    ensures var o := SubmitSpec(game.source, old(game.State()), response, now);
            game.State() == o.state && game.signals == old(game.signals) + o.emitted
  {
    ghost var s0 := game.State();
    if !game.IsStarted() {
      game.Restart(now);
      assert SubmitSpec(game.source, s0, response, now) == RestartSpec(game.source, s0, now);
      return;
    }
    AnswerThenAsk(game, response, now);
  }

  /** The rest of `onSubmit` in a running game: score the response and ask
      again unless that ended the game. */
  method AnswerThenAsk(game: Game, response: int, now: int)
    modifies game
    requires game.Valid() && game.IsStarted()
    ensures var o := SubmitSpec(game.source, old(game.State()), response, now);
            game.State() == o.state && game.signals == old(game.signals) + o.emitted
  {
    ghost var s0 := game.State();
    var _ := game.OnAnswer(response, now);
    AnswerCounts(s0, response, now);
    ghost var answered := AnswerSpec(s0, response, now).outcome;
    if game.IsStarted() {
      ghost var signals1 := game.signals;
      game.NewQuestion();
      ghost var asked := NewQuestionSpec(game.source, answered.state);
      assert game.signals == signals1 + asked.emitted;
    }
  }

  // ---------------------------------------------------------------------
  // formatInterval(t)

  /** The factors of `intervals`: milliseconds per second, seconds per
      minute, minutes per hour, hours per day. */
  const Factors: seq<nat> := [1000, 60, 60, 24]
  const Singular: seq<string> := ["second", "minute", "hour", "day"]
  const Plural: seq<string> := ["seconds", "minutes", "hours", "days"]

  /** Milliseconds per unit of the i-th entry of `split`, before the
      milliseconds are shifted out. */
  function Scale(i: nat): (m: nat)
    requires i <= 4
    ensures m > 0
  {
    if i == 0 then 1 else if i == 1 then 1000 else if i == 2 then 60000
    else if i == 3 then 3600000 else 86400000
  }

  /** The whole seconds, minutes, hours and days in `t` milliseconds, each
      unit but the last reduced by the next one. */
  function Parts(t: nat): seq<nat> {
    [t / 1000 % 60, t / 60000 % 60, t / 3600000 % 24, t / 86400000]
  }

  /** `${num} ${unit}`, singular exactly for 1. */
  function Phrase(num: nat, unit: nat): string
    requires unit < 4
  {
    Show(num) + " " + (if num == 1 then Singular[unit] else Plural[unit])
  }

  /** The phrases of the non-zero parts, smallest unit first. */
  function Phrases(parts: seq<nat>): seq<string>
    requires |parts| <= 4
    decreases |parts|
  {
    if |parts| == 0 then []
    else
      var last := |parts| - 1;
      Phrases(parts[..last]) + (if parts[last] != 0 then [Phrase(parts[last], last)] else [])
  }

  function Reverse<T>(s: seq<T>): (r: seq<T>)
    ensures |r| == |s|
  {
    if |s| == 0 then [] else Reverse(s[1..]) + [s[0]]
  }

  /** `.slice(0, n)` */
  function Slice<T>(s: seq<T>, n: nat): seq<T> {
    if |s| <= n then s else s[..n]
  }

  /** `.join(' ')` */
  function Join(words: seq<string>): string {
    if |words| == 0 then ""
    else if |words| == 1 then words[0]
    else words[0] + " " + Join(words[1..])
  }

  /** The text of a duration: below a second "0 seconds", otherwise its two
      largest non-zero units, largest first. */
  function IntervalText(t: nat): string {
    if t < 1000 then "0 seconds" else Join(Slice(Reverse(Phrases(Parts(t))), 2))
  }

  /** Under a minute, the seconds alone. */
  lemma SecondsOnly(t: nat)
    requires 1000 <= t < 60000
    ensures IntervalText(t) == Phrase(t / 1000, 0)
  {
    var p := Parts(t);
    assert p[..1] == [t / 1000] && p[1] == p[2] == p[3] == 0;
    PhrasesPadded(p[..1], p);
    PhrasesSnoc(p, 0);
    assert p[..0] == [];
  }

  /** The text skips a zero unit between two non-zero ones. */
  lemma HourAndSecond()
    ensures IntervalText(3601000) == "1 hour 1 second"
  {
    var p := Parts(3601000);
    assert p == [1, 0, 1, 0];
    PhrasesPadded(p[..3], p);
    PhrasesSnoc(p, 2);
    PhrasesSnoc(p, 1);
    PhrasesSnoc(p, 0);
    assert p[..0] == [];
    assert Show(1) == "1";
    assert Phrase(1, 0) == "1 second" && Phrase(1, 2) == "1 hour";
    assert Phrases(p) == [Phrase(1, 0), Phrase(1, 2)];
  }

  /** `(x - x % f) / f`, the code's step to the next unit, is `x / f`. */
  lemma WholeUnits(x: nat, f: nat)
    requires f > 0
    ensures (x - x % f) / f == x / f
  {
    RemainderUnique(x - x % f, f, x / f, 0);
  }

  /** Dividing by the scale of one entry then by its factor gives the scale
      of the next. */
  lemma NextScale(t: nat, i: nat)
    requires i < 4
    ensures t / Scale(i) / Factors[i] == t / Scale(i + 1)
  {
    var q := t / Scale(i) / Factors[i];
    var r := t / Scale(i) % Factors[i];
    var r0 := t % Scale(i);
    assert t / Scale(i) == q * Factors[i] + r;
    assert t == (q * Factors[i] + r) * Scale(i) + r0;
    assert Scale(i) * Factors[i] == Scale(i + 1);
    assert t == q * Scale(i + 1) + (r * Scale(i) + r0) by {
      assert (q * Factors[i] + r) * Scale(i) == q * (Factors[i] * Scale(i)) + r * Scale(i);
    }
    assert r * Scale(i) + r0 < Scale(i + 1) by {
      assert r <= Factors[i] - 1;
      assert r * Scale(i) <= (Factors[i] - 1) * Scale(i);
    }
    RemainderUnique(t, Scale(i + 1), q, r * Scale(i) + r0);
  }

  /** A duration shorter than a unit has none of it nor of any larger one. */
  lemma NoLargerUnits(t: nat, i: nat)
    requires 1 <= i <= 4 && t / Scale(i) == 0
    ensures forall k :: i - 1 <= k < 4 ==> Parts(t)[k] == 0
  {
    assert t < Scale(i);
  }

  /** Padding the parts with zero units adds no phrase. */
  lemma {:induction false} PhrasesPadded(p: seq<nat>, q: seq<nat>)
    requires |p| <= |q| <= 4 && p == q[..|p|]
    requires forall k :: |p| <= k < |q| ==> q[k] == 0
    ensures Phrases(p) == Phrases(q)
    decreases |q|
  {
    if |p| < |q| {
      var shorter := q[..|q| - 1];
      assert shorter[..|p|] == p;
      PhrasesPadded(p, shorter);
    } else {
      assert p == q;
    }
  }

  /** One more part adds its phrase when it is not zero. */
  lemma PhrasesSnoc(p: seq<nat>, k: nat)
    requires k < |p| <= 4
    ensures Phrases(p[..k + 1]) == Phrases(p[..k]) + (if p[k] != 0 then [Phrase(p[k], k)] else [])
  {
    assert p[..k + 1][..k] == p[..k];
  }

  /** The units of a duration of at least a second, up to its largest
      non-zero one. */
  predicate UpToLargest(t: nat, units: seq<nat>) {
    && 1 <= |units| <= 4
    && units == Parts(t)[..|units|]
    && units[|units| - 1] != 0
    && forall k :: |units| <= k < 4 ==> Parts(t)[k] == 0
  }

  /** What the first loop of `formatInterval` leaves, with the milliseconds
      shifted out: nothing below a second, otherwise the units up to the
      largest non-zero one. */
  lemma ShiftedParts(t: nat, i: nat, rest: nat, split: seq<nat>)
    requires 1 <= i <= 4 && rest == t / Scale(i)
    requires i == 1 || t / Scale(i - 1) != 0
    requires i == 4 || rest == 0
    requires |split| == (if rest != 0 then i + 1 else i)
    requires forall j :: 0 <= j < i ==> split[j] == t / Scale(j) % Factors[j]
    requires rest != 0 ==> split[i] == rest
    ensures t < 1000 ==> |split| == 1
    ensures t >= 1000 ==> UpToLargest(t, split[1..])
  {
    var shifted := split[1..];
    var parts := Parts(t);
    assert forall j :: 0 <= j < |shifted| ==> shifted[j] == parts[j];
    assert shifted == parts[..|shifted|];
    if rest == 0 {
      NoLargerUnits(t, i);
      if i >= 2 {
        assert t / Scale(i - 1) < Factors[i - 1] by {
          NextScale(t, i - 1);
        }
      }
    }
  }

  /** The first loop of `formatInterval`, the shift of the milliseconds and
      the padding of an empty split. */
  method SplitUnits(t: nat) returns (split: seq<nat>)
    ensures t < 1000 ==> split == [0]
    ensures t >= 1000 ==> UpToLargest(t, split)
  {
    split := [];
    var rest := t;
    var i := 0;
    while i < |Factors| && (i == 0 || rest != 0)
      invariant 0 <= i <= 4 && |split| == i
      invariant rest == t / Scale(i)
      invariant i <= 1 || t / Scale(i - 1) != 0
      invariant forall j :: 0 <= j < i ==> split[j] == t / Scale(j) % Factors[j]
    {
      var mod := rest % Factors[i];
      split := split + [mod];
      WholeUnits(rest, Factors[i]);
      NextScale(t, i);
      rest := (rest - mod) / Factors[i];
      i := i + 1;
    }
    if rest != 0 {
      split := split + [rest];
    }
    ShiftedParts(t, i, rest, split);
    split := split[1..];
    if |split| == 0 {
      split := [0];
    }
  }

  /** The second loop of `formatInterval`: a lone unit is always named,
      otherwise only the non-zero ones are. */
  method UnitWords(split: seq<nat>) returns (strings: seq<string>)
    requires |split| <= 4
    ensures |split| == 1 ==> strings == [Phrase(split[0], 0)]
    ensures |split| != 1 ==> strings == Phrases(split)
  {
    strings := [];
    var k := 0;
    while k < |split|
      invariant 0 <= k <= |split|
      invariant |split| == 1 ==> strings == [Phrase(split[0], 0)][..k]
      invariant |split| != 1 ==> strings == Phrases(split[..k])
    {
      var num := split[k];
      if |split| == 1 || num != 0 {
        var unit := if num == 1 then Singular[k] else Plural[k];
        strings := strings + [Show(num) + " " + unit];
      }
      PhrasesSnoc(split, k);
      k := k + 1;
    }
    assert split[..k] == split;
  }

  /** `formatInterval(t)` */
  method FormatInterval(t: nat) returns (text: string)
    ensures text == IntervalText(t)
  {
    var split := SplitUnits(t);
    var strings := UnitWords(split);
    if t < 1000 {
      assert Phrase(0, 0) == "0 seconds";
    } else {
      PhrasesPadded(split, Parts(t));
      if |split| == 1 {
        PhrasesSnoc(split, 0);
        assert split[..0] == [] && split[..1] == split;
      }
    }
    text := Join(Slice(Reverse(strings), 2));
  }
}
