# A verified model of the maths quiz engine

The program is a browser arithmetic quiz (`script.js`). A game has six
levels of ten questions each. Level *n* asks problems of tier *n*:

| tier | problem |
|---|---|
| 0 | addition |
| 1 | subtraction |
| 2 | three-term addition |
| 3 | addition and subtraction |
| 4 | multiplication |
| 5 | division |

After the first question of a level, a question may review an earlier tier.
- **Advancing.** The player moves to the next level only with a perfect
  score so far, unless the record shows they have been past the level
  before. Reaching a level for the first time unlocks it in the record.
- **Best run.** The record keeps the best run by score, then by time.
- **Questions.** Every question has a visible text (`3 × 4 = ?`) and a
  spoken text (`3 times 4`). A question already asked in the game is drawn
  again, up to six draws in all.

This project models that engine in Dafny, in seven modules:

- `Rand` (`random.dfy`): `random(min, max, reject, retry)`. It draws again
  while `retry` is non-zero and the predicate rejects the draw. The draws
  come from an injected stream, and `Random` threads a cursor through it.
- `Decimal` (`decimal.dfy`): `${n}` for non-negative integers, and a reader
  that reads it back.
- `QuestionText` (`question_text.dfy`): an evaluator for the question texts
  in both notations. It is written independently of the generators, with
  precedence and exact division. It proves that reading a rendered
  expression back gives the arithmetic value of that expression.
- `Problems` (`problems.dfy`): the six generators of `getProblems`, as
  functions of the draws. Tier 3 also has the do-while loop as a method.
- `Quiz` (`game.dfy`): `class Game`.
  - Its fields become the fields of a Dafny `class`, and the calls it makes
    into the page become signals appended to a `signals` log.
  - Each method is proved against a specification function. The function
    maps the old state to the new state and to the signals emitted.
  - The properties are proved about those functions.
- `Ui` (`ui.dfy`): the two parts of `class UI` that decide anything.
  - `onSubmit` drives the game.
  - `formatInterval` renders a duration. Its two loops are separate methods,
    each proved against a specification function.
- `Wrappers` (`wrappers.dfy`): `Option`.

The model follows these behaviours of the code as written:
- `random` ignores its predicate when `retry` is 0. So in tier 3 the first
  two operands are never redrawn, and in tier 5 the divisor can be 1 even
  though a predicate rejecting 1 is passed.
- A level completes when its count of answers reaches 10 or more.
- "Perfect" in the game-over banner (script.js:448) means the score equals
  `maxScore()`, the score of a perfect six-level game.
- A level not passed before is left only when the score equals
  `maxLevelScore()` (script.js:304). That is the cumulative score of a perfect
  game up to the end of the current level, `(level + 1) * 10`, not a perfect
  score in this level alone.
- A review tier is used exactly when the draw `random(0, 2)` is non-zero.
- A new record keeps the record's level.
- The record's level is raised when a level is first reached, not when the
  game finishes.

## Model

| member | source | states |
|---|---|---|
| Rand.Pick | script.js:486 | One call to `Math.floor(Math.random() * (max + 1 - min))`, shifted by `min`, lies in `[min, max]`. |
| Rand.Rejects | script.js:339-402 | The predicates the generators pass. The default `null` rejects nothing. Every predicate but `num === 1` rejects 0. A value above 1 other than 10 is rejected only by the tier-3 predicate, and only when it is one of the operands already drawn. |
| Rand.Random | script.js:485-491 | The value lies in `[min, max]`. At most `retry + 1` draws are read. With `retry` 0 or no predicate, the value is the first draw. |
| Rand.RandomFirstAccepted | script.js:485-491 | The value is the last draw read. Every earlier draw was rejected. The value itself is rejected only when all retries were used. |
| Rand.PickCoversRange | script.js:486 | Every value of `[min, max]` is produced by some draw. |
| Rand.RandomRetriesOnce | script.js:487-488 | A rejected first draw followed by an accepted one gives the second. |
| Decimal.ShowRoundTrip | script.js:342 | Reading back the decimal text of `n` gives `n`. |
| Decimal.ShowDigits | script.js:342 | The decimal text is all digits, with no leading zero. |
| QuestionText.ReadBack | script.js:342-343 | Evaluating the rendered text of an expression gives its value, in both notations. |
| QuestionText.Render | script.js:342-343 | The template literal of a question. It opens with the first operand, read as one whole number, and closes with ` = ?` in the visible notation (nothing in the spoken one). |
| Problems.Question | script.js:342 | The visible question (`question`, at lines 342, 351, 361, 386, 395 and 404) reads as the value of the problem's expression. |
| Problems.AccessibleQuestion | script.js:343 | The spoken question (`accessibleQuestion`, at lines 343, 352, 362, 387, 396 and 405) reads as the value of the problem's expression. |
| Problems.SoundTexts | script.js:341-345 | When a problem's answer is its expression's value, both the visible and the spoken question read as that answer. |
| Problems.Addition | script.js:338-346 | The operands lie in 0..10, the text is `num1 + num2`, the answer is their value (0..20), and at most four draws are read. |
| Problems.Subtraction | script.js:347-355 | The text is `num1+num2 - num2` and the answer is `num1`, so it is never negative. |
| Problems.ThreeTermAddition | script.js:356-365 | The operands lie in 0..10, the text is `num1 + num2 + num3`, the answer is their sum (0..30), and at most nine draws are read. |
| Problems.DrawTriple | script.js:374-376 | One pass of the tier-3 loop gives three operands in 0..10 from at most four draws. |
| Problems.MixedLoop | script.js:372-377 | The loop ends with `retry` 0 exactly when its last draws give a negative answer. |
| Problems.Fallback | script.js:378-384 | The fallback draws clamp `num3` to `num1 + num2`, so the answer is not negative. |
| Problems.Mixed | script.js:366-390 | The tier-3 answer is the value of `num1 + num2 - num3` and lies in 0..20, whichever way it was drawn, from at most 23 draws. |
| Problems.RetryMixed | script.js:372-377 | The do-while loop ends with the last pass and the `retry` that `MixedLoop` gives. |
| Problems.MixedLoopNegative | script.js:377 | A negative pass with a retry left starts the loop again from the next draw, with one retry fewer. |
| Problems.GenerateMixed | script.js:366-390 | The tier-3 generator as a program gives the problem that `Mixed` specifies. |
| Problems.Multiplication | script.js:391-399 | The factors lie in 0..10, the text is `num1 × num2`, and the answer is their product (0..100). |
| Problems.Division | script.js:400-408 | The operands are the first draws in 1..10 and 0..10, with nothing redrawn. The division is exact and its answer is `num2`. |
| Problems.DivisionByOne | script.js:401 | The divisor can be 1 despite the predicate that rejects 1. |
| Problems.GenerateSpec | script.js:336-410 | Every tier's problem is sound, its answer is not negative, and at least one draw is read. |
| Problems.Generate | script.js:436 | `problems[tier]()` gives the problem that `GenerateSpec` specifies. |
| Quiz.Total | script.js:323-325 | `getTotal()`. While the level's count is below ten, the level and its count are the quotient and remainder of the total by ten. |
| Quiz.LevelScore | script.js:290-292 | `maxLevelScore()` is ten points per level up to the current one. It lies between 10 and `maxScore()`, equals `maxScore()` on the last level, and is the total at the end of the current level. |
| Quiz.Initial | script.js:241-255 | A new game is consistent and not started. |
| Quiz.ScoreBounds | script.js:286-292 | The score never exceeds `maxLevelScore()`, which never exceeds `maxScore()`. The score equals `maxScore()` only after the tenth answer of the last level. |
| Quiz.Beats | script.js:460 | A run beats the record exactly when the record is not at least as good: a higher score, or the same score in less time. |
| Quiz.FinishedSpec | script.js:444-482 | The game is over, and perfect exactly when the score is `maxScore()`. The record changes exactly when the run beats it, to this run's score, total and time with the level kept, and it never gets worse. A run that does not beat the record emits only the game-over signal. |
| Quiz.Advances | script.js:302-305 | Advancing needs a next level. Below the last level, a level passed before is always left. A level not passed before is left exactly when the score equals `maxLevelScore()`. |
| Quiz.CompleteLevelSpec | script.js:301-321 | When the game can advance, the next level starts with its count reset and the record's level raised to it. It signals an unlock exactly when that level is new. Otherwise the game finishes. A finished last level is announced first, and it is announced only when it was the last level. |
| Quiz.IncrementTotalSpec | script.js:294-299 | The answer counts once in `getTotal()`. The score, the expected answer, the used questions and the draws are unchanged. In a running game, the level is completed exactly when its count reaches 10: the game either moves to another level or ends. Below 10 nothing is signalled. |
| Quiz.AnswerSpec | script.js:261-272 | The answer is correct exactly when it equals the expected answer, and then the score rises by one. The first signal marks it right, or wrong showing the expected answer. The expected answer, the questions used and the draws are unchanged. |
| Quiz.AnswerCounts | script.js:261-272 | In a running game, every answer adds one to `getTotal()` and leaves the state consistent. |
| Quiz.AnswerKeepsRecord | script.js:301-321 | An answer never makes the record worse or lowers its level. |
| Quiz.PerfectLevelAdvances | script.js:302-310 | A correct tenth answer after a perfect level moves to the next level, which the record then includes. |
| Quiz.ImperfectNewLevelEnds | script.js:302-319 | On a level not passed before, a tenth answer below a perfect score ends the game at that level. |
| Quiz.LastLevelEnds | script.js:316-319 | The tenth answer of the last level ends the game and announces the last level finished. |
| Quiz.ChooseTier | script.js:436 | The first question of a level uses the level's own tier. Later questions review a tier `random(0, level)` exactly when `random(0, 2)` is non-zero. The tier never exceeds the level. |
| Quiz.Select | script.js:433-437 | One to six problems are drawn, the last is kept and is sound, and it repeats a used question only when all six did. |
| Quiz.SelectTried | script.js:433-437 | Every draw but the last repeated a used question. Every draw's problem is what the generator of its tier gives from its draw position. That tier is at most the level, and is the level's own tier at the start of a level. |
| Quiz.DrawQuestion | script.js:433-437 | The do-while loop keeps the problem and the draw position that `Select` gives. |
| Quiz.NewQuestionSpec | script.js:432-442 | Only the expected answer, the used questions and the draws change. Exactly one question is asked, and its visible text is added to the used set. The answer now expected is the asked problem's answer. |
| Quiz.AskedStatesAnswer | script.js:438-441 | Both texts of the question asked read as the answer now expected. |
| Quiz.RestartSpec | script.js:412-421 | After a restart the game is running and consistent, at level 0 with score and count 0. It started at `now` and keeps the record. |
| Quiz.RestartAsksAddition | script.js:412-421 | The first question of a game is an addition, and the used set holds exactly its text. |
| Quiz.Cleared | script.js:413-419 | The resets of `restart()`. No expected answer, nothing used, score, count and `getTotal()` 0, `maxLevelScore()` 10, and the game is running from `now`. The record and the draws are kept. |
| Quiz.Game.constructor | script.js:241-255 | The fields hold the initial state with the loaded record, and no signal has been sent. |
| Quiz.Game.IsStarted | script.js:257-259 | A started valid game has a question on display and its level is not yet full. |
| Quiz.Game.GetScore | script.js:423-425 | In a valid game, the score lies between 0 and both `getTotal()` and `maxLevelScore()`. |
| Quiz.Game.GetLevel | script.js:278-280 | Levels are shown counting from 1, up to the number of tiers. The level shown times ten is `maxLevelScore()`. |
| Quiz.Game.GetTotal | script.js:323-325 | In a valid game, the total lies between 0 and `maxScore()`. Within a level, the total divided by ten, plus one, is the level shown. |
| Quiz.Game.MaxScore | script.js:286-288 | `maxScore()` is 60: ten questions in each of six tiers. |
| Quiz.Game.MaxLevelScore | script.js:290-292 | In a valid game, `maxLevelScore()` lies between 10 and `maxScore()`. |
| Quiz.Game.Restart | script.js:412-421 | The object stays valid, and its new fields and signals are those of `RestartSpec`. |
| Quiz.Game.NewQuestion | script.js:432-442 | The new fields and signals are those of `NewQuestionSpec`. |
| Quiz.Game.OnAnswer | script.js:261-272 | The result, the new fields and the signals are those of `AnswerSpec`. An answer in a running, valid game leaves the object valid. |
| Quiz.Game.IncrementTotal | script.js:294-299 | The new fields and signals are those of `IncrementTotalSpec`. |
| Quiz.Game.OnCompleteLevel | script.js:301-321 | The new fields and signals are those of `CompleteLevelSpec`. |
| Quiz.Game.Finished | script.js:444-482 | The new fields and signals are those of `FinishedSpec`. |
| Ui.SubmitSpec | script.js:54-71 | A submission keeps the game state consistent. |
| Ui.SubmitSteps | script.js:54-71 | Outside a game, a submission restarts it. Inside a game, it judges the response first and counts one more answer. A question is asked exactly when the game goes on: while it runs, the last signal asks one; an answer that ends the game is the whole outcome, with no question asked. |
| Ui.SubmitKeepsRecord | script.js:54-71 | No submission makes the record worse or lowers its level. |
| Ui.OnSubmit | script.js:54-71 | The game stays consistent, and its new state and signals are those of `SubmitSpec`. |
| Ui.AnswerThenAsk | script.js:62-70 | In a running game, the new state and signals are those of `SubmitSpec`. |
| Ui.SplitUnits | script.js:99-108 | Below a second the split is `[0]`. Otherwise it holds the seconds, minutes, hours and days up to the largest non-zero unit, and none beyond. |
| Ui.UnitWords | script.js:109-117 | A single unit is always named. Otherwise exactly the non-zero units are named, smallest first, in the singular exactly for 1. |
| Ui.FormatInterval | script.js:92-120 | The text is `IntervalText(t)`: "0 seconds" below a second, otherwise the two largest non-zero units, largest first. |
| Ui.SecondsOnly | script.js:92-120 | Under a minute, the text is the number of whole seconds alone. |
| Ui.HourAndSecond | script.js:92-120 | 3601000 ms reads "1 hour 1 second": a zero unit between two non-zero ones is skipped. |
| Ui.WholeUnits | script.js:104 | `(t - t % f) / f` equals `t / f`. |
| Ui.NextScale | script.js:100-106 | Dividing by each factor in turn gives the whole number of the next unit. |
| Ui.PhrasesPadded | script.js:112 | Zero units beyond the largest one add no phrase. |

## Left out

- Everything in `sw.js`. Also left out are the audio, the emoji fader, the `TalkBox` queue, the DOM helpers, `loadRecord` and the `localStorage` writes, `setBestTime` and the start-up code. None of them decides anything in the game. The record passed to the constructor stands for what `loadRecord` returns.
- `Math.random` is an injected stream of natural numbers. `Math.floor(Math.random() * n)` is modelled as a draw modulo `n` (`Rand.Pick`), so floating point is not modelled.
- `Date.now()` is the `now` parameter of the operations that read it.
- The reject predicates of `random` are a datatype naming the five predicates the generators pass, rather than closures.
- Ui.OnSubmit: `Number(input.value)` is not modelled. The response is already an integer, so non-numeric and fractional input are not modelled.
- Ui.FormatInterval: `t` is a natural number. Negative durations are not modelled.
- The texts and spoken messages that `finished`, the level-up handlers and `UI.restart` write to the page are not modelled, nor `setScore`/`setTotal` in `onSubmit`. These are the game-over banner, the level display, the best-run line and the time taken. The signals record which branch was taken, and an `Ask` signal carries the problem whose two texts are its renderings.
