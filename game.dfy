/** The game of script.js (`class Game`): levels of ten questions, the
    score, level completion, question selection and the best-run record.
    The calls the game makes into the page (emojis, sounds, texts) are
    recorded as a log of `Signal`s; `Date.now()` is the `now` parameter. */
module Quiz {
  import opened Wrappers
  import opened Rand
  import opened QuestionText
  import opened Problems

  /** `questionsPerLevel` */
  const QuestionsPerLevel: int := 10

  /** `maxLevel()`: the index of the last problem tier. */
  const MaxLevel: int := Tiers - 1

  /** `maxScore()`: every question of every level answered correctly. */
  const PerfectScore: int := (MaxLevel + 1) * QuestionsPerLevel

  /** The best run so far, as `loadRecord` reads it and `finished` and
      `onCompleteLevel` update it. */
  datatype Record = Record(score: int, total: int, time: int, level: int)

  /** What the game tells the page. */
  datatype Signal =
    | Correct                              // setEmoji('✔', …, 'correct')
    | Wrong(shown: Option<int>)            // setEmoji(`${this.answer}`, …, 'wrong')
    | Unlock                               // levelUpUnlock()
    | LevelUp                              // levelUpNormal()
    | FinishLastLevel                      // finishLastLevel()
    | GameOver(perfect: bool)              // setGameOver('PERFECT!' or 'GAME OVER')
    | NewRecord                            // the new-record branch of finished()
    | Ask(problem: Problem)                // setNewQuestion(question, accessibleQuestion) of problem

  /** The fields of a `Game`; `cursor` is the position of the next unread
      draw of the random source. */
  datatype GameState = GameState(answer: Option<int>, score: int, level: int, total: int,
                                 done: bool, used: set<string>, startTime: int,
                                 record: Record, cursor: nat)

  /** The state an operation leaves and the signals it emits, in order. */
  datatype Outcome = Outcome(state: GameState, emitted: seq<Signal>)

  /** `getTotal()`: the answers given so far in the whole game. */
  function Total(s: GameState): (n: int)
    // the level and its count are the quotient and remainder of the total
    ensures 0 <= s.total < QuestionsPerLevel ==> n / QuestionsPerLevel == s.level && n % QuestionsPerLevel == s.total
  {
    var n := s.level * QuestionsPerLevel + s.total;
    if 0 <= s.total < QuestionsPerLevel then
      RemainderUnique(n, QuestionsPerLevel, s.level, s.total);
      n
    else
      n
  }

  /** `maxLevelScore()`: the score of a perfect game up to the current level. */
  function LevelScore(s: GameState): (m: int)
    // ten points for every level up to the current one, all of them on the last
    ensures 0 <= s.level <= MaxLevel ==> QuestionsPerLevel <= m <= PerfectScore
    ensures s.level == MaxLevel ==> m == PerfectScore
    ensures m == Total(s.(total := QuestionsPerLevel))
  {
    (s.level + 1) * QuestionsPerLevel
  }

  /** What holds between answers: the level indexes a tier, a level is never
      over-full, a running game has fewer than ten answers in its level and a
      question on display, and the score counts correct answers among all. */
  predicate Consistent(s: GameState) {
    && 0 <= s.level <= MaxLevel
    && 0 <= s.total <= QuestionsPerLevel
    && 0 <= s.score <= Total(s)
    && (!s.done ==> s.total < QuestionsPerLevel && s.answer.Some?)
  }

  /** The state the constructor leaves: not started, nothing asked. */
  function Initial(record: Record): (s: GameState)
    ensures Consistent(s) && s.done
  {
    GameState(None, 0, 0, 0, true, {}, 0, record, 0)
  }

  /** The score never exceeds the perfect score of the level reached, nor
      that of the whole game, which only the last level's tenth answer reaches. */
  lemma ScoreBounds(s: GameState)
    requires Consistent(s)
    ensures s.score <= LevelScore(s) <= PerfectScore
    ensures s.score == PerfectScore ==> s.level == MaxLevel && s.total == QuestionsPerLevel
  {
  }

  // ---------------------------------------------------------------------
  // finished()

  /** A run of `score` taking `time` beats the record. */
  predicate Beats(score: int, time: int, record: Record)
    // exactly when the record is not at least as good as the run
    ensures Beats(score, time, record) <==> !NoWorse(record, Record(score, record.total, time, record.level))
  {
    score > record.score || (score == record.score && time < record.time)
  }

  /** Record `a` is at least as good as record `b`. */
  predicate NoWorse(a: Record, b: Record) {
    a.score > b.score || (a.score == b.score && a.time <= b.time)
  }

  /** Only `done` and `record` differ between `s` and `t`. */
  predicate OnlyOutcome(s: GameState, t: GameState) {
    t.(done := s.done, record := s.record) == s
  }

  /** `finished()`: the game is over, perfect iff the score is `maxScore()`;
      a run that beats the record replaces its score, total and time but not
      its level, and the record never gets worse. */
  function FinishedSpec(s: GameState, now: int): (o: Outcome)
    ensures o.state.done && OnlyOutcome(s, o.state)
    ensures |o.emitted| >= 1 && o.emitted[0] == GameOver(s.score == PerfectScore)
    ensures Beats(s.score, now - s.startTime, s.record) <==> o.state.record != s.record
    ensures Beats(s.score, now - s.startTime, s.record)
            <==> o.emitted == [GameOver(s.score == PerfectScore), NewRecord]
    ensures !Beats(s.score, now - s.startTime, s.record)
            ==> o.emitted == [GameOver(s.score == PerfectScore)]
    ensures o.state.record != s.record
            ==> o.state.record == Record(s.score, Total(s), now - s.startTime, s.record.level)
    ensures NoWorse(o.state.record, s.record) && o.state.record.level == s.record.level
  {
    var timeTaken := now - s.startTime;
    var over := s.(done := true);
    if Beats(s.score, timeTaken, s.record) then
      Outcome(over.(record := s.record.(score := s.score, total := Total(s), time := timeTaken)),
              [GameOver(s.score == PerfectScore), NewRecord])
    else
      Outcome(over, [GameOver(s.score == PerfectScore)])
  }

  // ---------------------------------------------------------------------
  // onCompleteLevel() and incrementTotal()

  /** The condition of `onCompleteLevel` for going on to the next level: one
      exists and the player has been past this level before, or the score is
      perfect so far. */
  predicate Advances(s: GameState)
    ensures Advances(s) ==> s.level < MaxLevel
    // below the last level, a level already passed before is always left
    ensures s.level < s.record.level && s.level < MaxLevel ==> Advances(s)
    // a level not passed before is left only on a perfect score so far
    ensures s.record.level <= s.level ==> (Advances(s) <==> s.level < MaxLevel && s.score == LevelScore(s))
  {
    s.level < MaxLevel && (s.level < s.record.level || s.score == LevelScore(s))
  }

  function Max(a: int, b: int): int {
    if a < b then b else a
  }

  /** `onCompleteLevel()`: either the next level starts, raising the record's
      level and signalling an unlock the first time it is reached, or the game
      finishes, announcing the last level when it was the last. */
  function CompleteLevelSpec(s: GameState, now: int): (o: Outcome)
    ensures Advances(s) ==>
              && o.state == s.(total := 0, level := s.level + 1,
                               record := s.record.(level := Max(s.record.level, s.level + 1)))
              && o.emitted == [if s.record.level < s.level + 1 then Unlock else LevelUp]
    ensures !Advances(s) ==>
              && o.state.done && OnlyOutcome(s, o.state)
              && NoWorse(o.state.record, s.record) && o.state.record.level == s.record.level
              && |o.emitted| >= 1
              && o.emitted[0] == (if s.level == MaxLevel then FinishLastLevel
                                  else GameOver(s.score == PerfectScore))
    // the last level is announced only when it was the last
    ensures !Advances(s) && s.level != MaxLevel ==> FinishLastLevel !in o.emitted
  {
    if Advances(s) then
      var next := s.level + 1;
      if next > s.record.level then
        Outcome(s.(total := 0, level := next, record := s.record.(level := next)), [Unlock])
      else
        Outcome(s.(total := 0, level := next), [LevelUp])
    else
      var over := FinishedSpec(s, now);
      Outcome(over.state, (if s.level == MaxLevel then [FinishLastLevel] else []) + over.emitted)
  }

  /** `incrementTotal()`: one more answer, counted once in `getTotal()`; in
      a running game the level is completed, moving to another level or
      ending the game, exactly when its count reaches ten. Nothing about
      the score, the question or the draws changes. */
  function IncrementTotalSpec(s: GameState, now: int): (o: Outcome)
    ensures o.state.score == s.score && o.state.answer == s.answer
    ensures o.state.used == s.used && o.state.cursor == s.cursor && o.state.startTime == s.startTime
    ensures s.total < QuestionsPerLevel ==> Total(o.state) == Total(s) + 1
    ensures !s.done ==> (s.total + 1 >= QuestionsPerLevel <==> o.state.level != s.level || o.state.done)
    ensures s.total + 1 < QuestionsPerLevel ==> o.emitted == []
  {
    var counted := s.(total := s.total + 1);
    if counted.total >= QuestionsPerLevel then CompleteLevelSpec(counted, now) else Outcome(counted, [])
  }

  // ---------------------------------------------------------------------
  // onAnswer(response)

  datatype Answered = Answered(outcome: Outcome, correct: bool)

  /** `onAnswer(response)`: score a correct answer, count the answer, and
      complete the level on the tenth. The result says whether `response` was
      the expected answer. */
  function AnswerSpec(s: GameState, response: int, now: int): (a: Answered)
    ensures a.correct <==> s.answer == Some(response)
    ensures a.outcome.state.score == s.score + (if a.correct then 1 else 0)
    ensures |a.outcome.emitted| >= 1
    ensures a.outcome.emitted[0] == if a.correct then Correct else Wrong(s.answer)
    ensures a.outcome.state.answer == s.answer && a.outcome.state.used == s.used
    ensures a.outcome.state.cursor == s.cursor && a.outcome.state.startTime == s.startTime
  {
    var correct := s.answer == Some(response);
    var marked := if correct then s.(score := s.score + 1) else s;
    var counted := IncrementTotalSpec(marked, now);
    Answered(Outcome(counted.state, [if correct then Correct else Wrong(s.answer)] + counted.emitted),
             correct)
  }

  /** Every answer counts once in `getTotal()`, and the state stays consistent. */
  lemma AnswerCounts(s: GameState, response: int, now: int)
    requires Consistent(s) && !s.done
    ensures var t := AnswerSpec(s, response, now).outcome.state;
            Total(t) == Total(s) + 1 && Consistent(t)
  {
  }

  /** `onAnswer` never makes the record worse nor lowers its level. */
  lemma AnswerKeepsRecord(s: GameState, response: int, now: int)
    ensures var t := AnswerSpec(s, response, now).outcome.state;
            NoWorse(t.record, s.record) && s.record.level <= t.record.level
  {
  }

  /** Ten correct answers in a level move the game on, to a level the record
      then includes. */
  lemma PerfectLevelAdvances(s: GameState, now: int)
    requires Consistent(s) && !s.done
    requires s.total == QuestionsPerLevel - 1 && s.score == Total(s) && s.level < MaxLevel
    ensures var t := AnswerSpec(s, s.answer.value, now).outcome.state;
            && !t.done && t.level == s.level + 1 && t.total == 0 && t.score == Total(t)
            && s.level + 1 <= t.record.level
  {
    assert Advances(s.(score := s.score + 1, total := s.total + 1));
  }

  /** A level the player has not been past before ends the game unless all of
      its answers, and all before it, were correct. */
  lemma ImperfectNewLevelEnds(s: GameState, response: int, now: int)
    requires Consistent(s) && !s.done
    requires s.total == QuestionsPerLevel - 1 && s.record.level <= s.level
    requires AnswerSpec(s, response, now).outcome.state.score < LevelScore(s)
    ensures AnswerSpec(s, response, now).outcome.state.done
    ensures AnswerSpec(s, response, now).outcome.state.level == s.level
  {
    var a := AnswerSpec(s, response, now);
    var marked := if a.correct then s.(score := s.score + 1) else s;
    assert !Advances(marked.(total := s.total + 1));
  }

  /** The tenth answer of the last level always ends the game, announcing the
      last level finished. */
  lemma LastLevelEnds(s: GameState, response: int, now: int)
    requires Consistent(s) && !s.done
    requires s.level == MaxLevel && s.total == QuestionsPerLevel - 1
    ensures var o := AnswerSpec(s, response, now).outcome;
            o.state.done && |o.emitted| >= 2 && o.emitted[1] == FinishLastLevel
  {
  }

  // ---------------------------------------------------------------------
  // newQuestion()

  /** A tier and the position of the next unread draw. */
  datatype Tier = Tier(tier: nat, next: nat)

  /** `(total % questionsPerLevel && random(0, 2)) ? random(0, level) : level`:
      the first question of a level is always of the level's own tier; later
      ones review a tier up to the current one unless the first draw is 0. */
  function ChooseTier(src: Source, pos: nat, total: int, level: int): (c: Tier)
    requires 0 <= level <= MaxLevel
    ensures c.tier <= level
    ensures total % QuestionsPerLevel == 0 ==> c == Tier(level, pos)
    ensures total % QuestionsPerLevel != 0 && Pick(src(pos), 0, 2) == 0 ==> c == Tier(level, pos + 1)
    ensures total % QuestionsPerLevel != 0 && Pick(src(pos), 0, 2) != 0
            ==> c == Tier(Pick(src(pos + 1), 0, level), pos + 2)
  {
    if total % QuestionsPerLevel == 0 then
      Tier(level, pos)
    else
      var review := Random(src, pos, 0, 2, Nothing, 0);
      if review.value == 0 then
        Tier(level, review.next)
      else
        var t := Random(src, review.next, 0, level, Nothing, 0);
        Tier(t.value, t.next)
  }

  /** `let tries = 6`: the most problems `newQuestion()` draws. */
  const Tries: nat := 6

  /** One pass of the do-while loop: the tier chosen, the position of the
      draw the generator started from, and the problem drawn. */
  datatype Attempt = Attempt(tier: nat, at: nat, problem: Problem)

  /** The problem kept, the next unread draw and every attempt made. */
  datatype Selected = Selected(problem: Problem, next: nat, tried: seq<Attempt>)

  /** The do-while loop of `newQuestion` with `tries` passes left: draw until
      a problem whose question was not asked yet, giving up after `tries`
      passes. */
  function Select(src: Source, pos: nat, total: int, level: int, used: set<string>,
                  tries: nat): (r: Selected)
    requires 0 <= level <= MaxLevel && 1 <= tries
    ensures 1 <= |r.tried| <= tries
    ensures r.problem == r.tried[|r.tried| - 1].problem && Sound(r.problem)
    // a repeat is kept only when every pass drew one
    ensures |r.tried| < tries ==> Question(r.problem) !in used
    ensures pos < r.next
    decreases tries
  {
    var c := ChooseTier(src, pos, total, level);
    var g := GenerateSpec(src, c.next, c.tier);
    var here := Attempt(c.tier, c.next, g.problem);
    if Question(g.problem) in used && tries - 1 != 0 then
      var r := Select(src, g.next, total, level, used, tries - 1);
      Selected(r.problem, r.next, [here] + r.tried)
    else
      Selected(g.problem, g.next, [here])
  }

  /** Every pass but the last drew a question already asked. */
  predicate Repeats(tried: seq<Attempt>, used: set<string>) {
    forall i :: 0 <= i < |tried| - 1 ==> Question(tried[i].problem) in used
  }

  /** Every pass drew from a tier up to `level`. */
  predicate WithinLevel(tried: seq<Attempt>, level: int) {
    forall i :: 0 <= i < |tried| ==> tried[i].tier <= level
  }

  /** Every pass drew from the tier of `level` itself. */
  predicate AtLevel(tried: seq<Attempt>, level: int) {
    forall i :: 0 <= i < |tried| ==> tried[i].tier == level
  }

  /** Every pass's problem is what the generator of its tier gives from its
      draw position. */
  predicate DrawnFromTiers(src: Source, tried: seq<Attempt>) {
    forall i :: 0 <= i < |tried| ==>
      tried[i].tier < Tiers && tried[i].problem == GenerateSpec(src, tried[i].at, tried[i].tier).problem
  }

  lemma AttemptsCons(src: Source, a: Attempt, tried: seq<Attempt>, used: set<string>, level: int)
    requires |tried| >= 1
    ensures Question(a.problem) in used && Repeats(tried, used) ==> Repeats([a] + tried, used)
    ensures a.tier <= level && WithinLevel(tried, level) ==> WithinLevel([a] + tried, level)
    ensures a.tier == level && AtLevel(tried, level) ==> AtLevel([a] + tried, level)
    ensures a.tier < Tiers && a.problem == GenerateSpec(src, a.at, a.tier).problem && DrawnFromTiers(src, tried)
            ==> DrawnFromTiers(src, [a] + tried)
  {
    var all := [a] + tried;
    assert forall i :: 0 < i < |all| ==> all[i] == tried[i - 1];
  }

  /** Every pass but the last drew a question already asked, and every pass
      drew its problem from a tier up to the level, the level's own one at
      the start of a level. */
  lemma {:induction false} SelectTried(src: Source, pos: nat, total: int, level: int,
                                       used: set<string>, tries: nat)
    requires 0 <= level <= MaxLevel && 1 <= tries
    ensures var r := Select(src, pos, total, level, used, tries);
            && Repeats(r.tried, used) && WithinLevel(r.tried, level)
            && (total % QuestionsPerLevel == 0 ==> AtLevel(r.tried, level))
            && DrawnFromTiers(src, r.tried)
    decreases tries
  {
    var c := ChooseTier(src, pos, total, level);
    var g := GenerateSpec(src, c.next, c.tier);
    var here := Attempt(c.tier, c.next, g.problem);
    if Question(g.problem) in used && tries - 1 != 0 {
      SelectTried(src, g.next, total, level, used, tries - 1);
      AttemptsCons(src, here, Select(src, g.next, total, level, used, tries - 1).tried, used, level);
    } else {
      assert Select(src, pos, total, level, used, tries).tried == [here];
    }
  }

  /** The do-while loop of `newQuestion()`, drawing at most `Tries` problems. */
  method DrawQuestion(src: Source, pos: nat, total: int, level: int, used: set<string>)
    returns (problem: Problem, next: nat)
    requires 0 <= level <= MaxLevel
    ensures var r := Select(src, pos, total, level, used, Tries);
            problem == r.problem && next == r.next
  {
    ghost var goal := Select(src, pos, total, level, used, Tries);
    problem := Problem(Expr(0, []), 0);
    next := pos;
    var tries := Tries;
    var searching := true;
    while searching
      invariant 1 <= tries <= Tries
      invariant searching ==> Select(src, next, total, level, used, tries).problem == goal.problem
      invariant searching ==> Select(src, next, total, level, used, tries).next == goal.next
      invariant !searching ==> problem == goal.problem && next == goal.next
      decreases searching, tries
    {
      var c := ChooseTier(src, next, total, level);
      var g := Generate(src, c.next, c.tier);
      problem := g.problem;
      next := g.next;
      if Question(problem) in used && tries - 1 != 0 {
        tries := tries - 1;
      } else {
        searching := false;
      }
    }
  }

  /** `newQuestion()`: select a problem, mark its question as used, expect
      its answer and put both of its texts on display. */
  function NewQuestionSpec(src: Source, s: GameState): (o: Outcome)
    requires 0 <= s.level <= MaxLevel
    ensures o.state.(answer := s.answer, used := s.used, cursor := s.cursor) == s
    ensures o.state.answer.Some? && s.cursor < o.state.cursor
    ensures |o.emitted| == 1 && o.emitted[0].Ask?
    ensures o.state.used == s.used + {Question(o.emitted[0].problem)}
    // the answer now expected is the asked problem's
    ensures o.state.answer == Some(o.emitted[0].problem.answer)
  {
    var r := Select(src, s.cursor, s.total, s.level, s.used, Tries);
    Outcome(s.(used := s.used + {Question(r.problem)}, answer := Some(r.problem.answer), cursor := r.next),
            [Ask(r.problem)])
  }

  /** Both texts put on display state the answer now expected. */
  lemma AskedStatesAnswer(src: Source, s: GameState)
    requires 0 <= s.level <= MaxLevel
    ensures var o := NewQuestionSpec(src, s);
            var shown := o.emitted[0].problem;
            States(Question(shown), AccessibleQuestion(shown), o.state.answer.value)
  {
    SoundTexts(Select(src, s.cursor, s.total, s.level, s.used, Tries).problem);
  }

  // ---------------------------------------------------------------------
  // restart()

  /** `restart()`: a fresh game at level 1 whose first question is an
      addition, the record kept. */
  function RestartSpec(src: Source, s: GameState, now: int): (o: Outcome)
    ensures Consistent(o.state) && !o.state.done
    ensures o.state.score == 0 && o.state.level == 0 && o.state.total == 0
    ensures o.state.startTime == now && o.state.record == s.record
  {
    NewQuestionSpec(src, Cleared(s, now))
  }

  /** The fields `restart()` resets before asking the first question. */
  function Cleared(s: GameState, now: int): (c: GameState)
    ensures !c.done && c.answer == None && c.used == {} && c.startTime == now
    ensures Total(c) == 0 && c.score == 0 && LevelScore(c) == QuestionsPerLevel
    ensures c.record == s.record && c.cursor == s.cursor
  {
    s.(answer := None, score := 0, level := 0, total := 0, used := {}, done := false, startTime := now)
  }

  /** The first question of a game is an addition, never a repeat. */
  lemma RestartAsksAddition(src: Source, s: GameState, now: int)
    ensures var o := RestartSpec(src, s, now);
            && o.state.used == {Question(Addition(src, s.cursor).problem)}
            && o.state.answer == Some(Addition(src, s.cursor).problem.answer)
            && o.emitted == [Ask(Addition(src, s.cursor).problem)]
  {
    assert ChooseTier(src, s.cursor, 0, 0) == Tier(0, s.cursor);
  }

  // ---------------------------------------------------------------------
  // The game object

  class Game {
    /** `Math.random`, as an injected stream of draws. */
    const source: Source

    var answer: Option<int>
    var score: int
    var level: int
    var total: int
    var done: bool
    var used: set<string>
    var startTime: int
    var record: Record
    var cursor: nat
    var signals: seq<Signal>

    function State(): GameState
      reads this
    {
      GameState(answer, score, level, total, done, used, startTime, record, cursor)
    }

    predicate Valid()
      reads this
    {
      Consistent(State())
    }

    /** `new Game(ui)` with `record` as `loadRecord()` returns it. */
    constructor(source: Source, record: Record)
      ensures this.source == source && State() == Initial(record) && signals == [] && Valid()
    {
      this.source := source;
      answer := None;
      score := 0;
      level := 0;
      total := 0;
      done := true;
      used := {};
      startTime := 0;
      this.record := record;
      cursor := 0;
      signals := [];
    }

    function IsStarted(): (started: bool)
      reads this
      // a running game has a question on display
      ensures Valid() && started ==> answer.Some? && total < QuestionsPerLevel
    {
      !done
    }

    function GetScore(): (n: int)
      reads this
      ensures Valid() ==> 0 <= n <= GetTotal() && n <= MaxLevelScore()
    {
      score
    }

    /** `getLevel()`: levels are shown counting from 1. */
    function GetLevel(): (n: int)
      reads this
      // levels are shown counting from 1, up to the number of tiers
      ensures Valid() ==> 1 <= n <= Tiers
      ensures n * QuestionsPerLevel == MaxLevelScore()
    {
      level + 1
    }

    function GetTotal(): (n: int)
      reads this
      ensures Valid() ==> 0 <= n <= MaxScore()
      // within a level, the total tells the level shown
      ensures Valid() && total < QuestionsPerLevel ==> n / QuestionsPerLevel + 1 == GetLevel()
    {
      Total(State())
    }

    function MaxScore(): (n: int)
      // ten questions in each of the six tiers
      ensures n == 60
    {
      PerfectScore
    }

    function MaxLevelScore(): (n: int)
      reads this
      ensures Valid() ==> QuestionsPerLevel <= n <= MaxScore()
    {
      LevelScore(State())
    }

    method Restart(now: int)
      modifies this
      ensures Valid()
      ensures var o := RestartSpec(source, old(State()), now);
              State() == o.state && signals == old(signals) + o.emitted
    {
      answer := None;
      score := 0;
      level := 0;
      total := 0;
      used := {};
      done := false;
      startTime := now;
      assert State() == Cleared(old(State()), now);
      NewQuestion();
    }

    method NewQuestion()
      modifies this
      requires 0 <= level <= MaxLevel
      ensures var o := NewQuestionSpec(source, old(State()));
              State() == o.state && signals == old(signals) + o.emitted
    {
      var problem, at := DrawQuestion(source, cursor, total, level, used);
      used := used + {Question(problem)};
      answer := Some(problem.answer);
      cursor := at;
      signals := signals + [Ask(problem)];
    }

    method OnAnswer(response: int, now: int) returns (correct: bool)
      modifies this
      ensures old(Valid()) && old(IsStarted()) ==> Valid()
      ensures var a := AnswerSpec(old(State()), response, now);
              correct == a.correct && State() == a.outcome.state
              && signals == old(signals) + a.outcome.emitted
    {
      ghost var s0 := State();
      correct := answer == Some(response);
      if correct {
        score := score + 1;
        signals := signals + [Correct];
      } else {
        signals := signals + [Wrong(answer)];
      }
      ghost var marked, signals1 := State(), signals;
      assert marked == if correct then s0.(score := s0.score + 1) else s0;
      ghost var mark := if correct then Correct else Wrong(s0.answer);
      assert signals1 == old(signals) + [mark];
      IncrementTotal(now);
      ghost var counted := IncrementTotalSpec(marked, now);
      assert AnswerSpec(s0, response, now).outcome == Outcome(counted.state, [mark] + counted.emitted);
      assert signals == old(signals) + ([mark] + counted.emitted);
      if s0.done == false && Consistent(s0) {
        AnswerCounts(s0, response, now);
      }
    }

    method IncrementTotal(now: int)
      modifies this
      ensures var o := IncrementTotalSpec(old(State()), now);
              State() == o.state && signals == old(signals) + o.emitted
    {
      total := total + 1;
      if total >= QuestionsPerLevel {
        OnCompleteLevel(now);
      }
    }

    method OnCompleteLevel(now: int)
      modifies this
      ensures var o := CompleteLevelSpec(old(State()), now);
              State() == o.state && signals == old(signals) + o.emitted
    {
      if level < MaxLevel && (level < record.level || score == MaxLevelScore()) {
        total := 0;
        level := level + 1;
        if level > record.level {
          record := record.(level := level);
          signals := signals + [Unlock];
        } else {
          signals := signals + [LevelUp];
        }
      } else {
        if level == MaxLevel {
          signals := signals + [FinishLastLevel];
        }
        Finished(now);
      }
    }

    method Finished(now: int)
      modifies this
      ensures var o := FinishedSpec(old(State()), now);
              State() == o.state && signals == old(signals) + o.emitted
    {
      var timeTaken := now - startTime;
      done := true;
      signals := signals + [GameOver(score == MaxScore())];
      if score > record.score || (score == record.score && timeTaken < record.time) {
        record := record.(score := GetScore(), total := GetTotal(), time := timeTaken);
        signals := signals + [NewRecord];
      }
    }
  }
}
