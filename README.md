# Dice: a verified model of the `Dice` stack machine

This project models the evaluator of the dice notation in `dice.js` and proves properties of it. The notation covers commands such as `3d20kh2`, `4swa` and `1d6!`.

The original evaluation works like this:

- A `Dice` object is built from a command and an optional random source.
- `execute` moves everything after the first `;` into a comment.
- It then runs the parsed postfix tokens on an operand stack. Each operator pops its operands, calls an entry of the operator library and pushes one result.
- Three logs grow along the way:
  - the roll log, one entry per draw;
  - the kept log, the dice that the keep and count operators selected;
  - the narrative log, the faces shown by the Star Wars dice.
- `result`, `onlyStarWars` and `starWarsResult` then read the final state.

The model has two layers.

- **Specification layer.** These modules are pure functions over an evaluation context `Ctx`:
  - `Values`: stack values, symbols, tokens and the random source;
  - `Tables`: face tables, the oracle table and precedence;
  - `Narrative`: symbol totals, the description and the face breakdown;
  - `Operators`: every operator of the library;
  - `Evaluator`: token dispatch, operand popping with the recovery rule of the keep and count operators, running a sequence, and splitting off the comment.
- **Object layer.** `Machine.Dice` is a class whose fields are the object's fields: `command`, `comment`, `stack`, `rolls`, `kept` and `starwars`. Its methods update these fields in place, as the source does. Each method is proved to leave exactly the state that the specification function computes.
  - Three loops carry their invariants: rolling `n` dice, the explosion loop of `!`, and `execute`'s loop over the tokens.

The random source is a parameter `rng(i, min, max)`, where `i` is the number of draws made so far. Every draw is logged, so `i` is always the current length of the roll log. A fixed list of draws is one such source (`FromDraws`); the seeded test uses one.

`Invariants` proves properties across tokens and whole runs. `Scenarios` works through concrete evaluations, including the repository's two tests.

Where the code and its documentation differ, the model follows the code:

- `df` with no count fails; it does not default to 1.
- `gm` pushes a roll of one oracle die, not an integer. Its table has 30 phrases followed by one empty entry.
- `!` can end with more than 300 dice. The loop adds a whole batch whenever the roll has fewer than 300 dice, so the roll can finish with up to 300 + (batch size − 1) dice.

There is one exception to following the code: `gm`. As written, `gm` always throws (see "## Findings"). The model keeps that behaviour as `Operators.OpGmAsWritten`, but `Evaluator.Step` and `Machine.Dice.ApplyGm` dispatch `gm` to the corrected `Operators.OpGm`. Every run-level result about a command that contains `gm` therefore describes the corrected program, not the code as written. These results are `Invariants.RunExtendsLogs`, `Invariants.NumericDieIsNotNarrative`, `Machine.Dice.Evaluate` and `Scenarios.OracleComment`. In the code as written, any such command fails at its `gm` token.

## Model

| member | source | states |
|---|---|---|
| Values.FromDraws | dice.js:124-131 | an injected source built from fixed draws answers draw `i` with the `i`-th listed value whenever that value lies in the requested range |
| Values.Clamp | dice.js:140-141 | a clamped operand lies in `[lo, hi]`: it is the operand itself inside the range, `hi` above it and `lo` below it |
| Values.Sum | dice.js:145 | the sum of no dice is 0 and the sum of one die is that die; with `SumAppend` this fixes every sum |
| Values.SumBounds | dice.js:145 | dice that each lie in `[lo, hi]` sum to between `n * lo` and `n * hi` |
| Values.SumAppend | dice.js:145 | the `reduce` sum of a concatenation is the sum of the parts |
| Tables.FaceTable | dice.js:162-233 | `swa`/`swd` have 8 faces, `swp`/`swc` 12, `swb`/`sws` 6; the last face of every die is blank |
| Tables.FaceTableSymbols | dice.js:164-233 | every face shows only the six symbols; a Triumph appears only on `swp` and a Despair only on `swc` |
| Tables.Oracle | dice.js:301-333 | entry `i` of the 31-entry oracle table is empty exactly for the last entry, index 30 |
| Tables.PrecedenceOf | dice.js:62-101 | `d`, `df` bind tightest, then the keep/count/explode/`swa`/`swd`/`gm` tier, then `*`, then `+ -`; all left-associative; `swp`, `swc`, `swb`, `sws` are missing from the table |
| Narrative.Flatten | dice.js:238 | no faces flatten to no symbols, and one face flattens to its own symbols |
| Narrative.FlattenAppend | dice.js:238 | `_.flatten` distributes over concatenation |
| Narrative.FlattenEmpty | dice.js:477 | the flattened faces are empty exactly when every face is blank |
| Narrative.Totals | dice.js:477-481 | no symbols total the empty effect, and one symbol totals itself |
| Narrative.TotalsAreSums | dice.js:477-481 | the reduced totals are, dimension by dimension, the sums of value, consequence and side effect |
| Narrative.TotalsAppend | dice.js:477-481 | totals over a concatenation add component-wise |
| Narrative.NatToString | dice.js:489 | a magnitude is written as a non-empty string of decimal digits with no leading zero: it starts with '0' only when it is 0 |
| Narrative.NatToStringRoundTrip | dice.js:489 | reading the written digits back gives the number |
| Narrative.Join | dice.js:505 | `join` of no parts is "", of one part is that part, and otherwise starts with the first part |
| Narrative.JoinAppend | dice.js:505 | joining two non-empty lists puts exactly one separator between their joins |
| Narrative.Part | dice.js:487-502 | a part starts with the decimal magnitude followed by a space |
| Narrative.PartSpelling | dice.js:487-502 | a part is the magnitude's digits (which read back as the magnitude), a space, and the word of its sign; the plural suffix ("es" after Success, "s" otherwise) is added exactly when the magnitude exceeds one |
| Narrative.Parts | dice.js:485-503 | one part per non-zero total, in the order value, consequence, side effect; each part is spelled with that dimension's words (Success/Failure, Triumph/Despair, Advantage/Threat); every part starts with a digit |
| Narrative.Describe | dice.js:483-505 | the description is "No effect" exactly when all three totals are zero; otherwise it is the parts joined by ", ", and it starts with a digit |
| Narrative.Repeat | dice.js:510 | `new Array(n + 1).join(word)` has length `n * |word|`, starts with the word, and repeats with period `|word|`, so every character is fixed |
| Narrative.EffectNamesInOrder | dice.js:512-521 | a symbol has one name per non-zero dimension, in the order value, consequence, side effect; each name is its sign's word (Success/Failure, Triumph/Despair, Advantage/Threat) written `|n|` times; the empty effect has no names; every name is non-empty and starts with a capital |
| Narrative.EffectNamesShape | dice.js:512-521 | a symbol has no names exactly when it is the empty effect, and each name starts with a capital |
| Narrative.SymbolNames | dice.js:512-521 | the six symbols are named: Success "Success"; Advantage "Advantage"; Triumph "Success", "Triumph"; the constant `Failure` "Threat"; the constant `Threat` "Failure"; Despair "Failure", "Despair" |
| Narrative.FaceNames | dice.js:508-524 | a face has no names exactly when all its symbols are empty; a one-symbol face has that symbol's names |
| Narrative.FaceNamesAppend | dice.js:508-524 | the names of consecutive symbols follow each other: a face's names are its symbols' names in order |
| Narrative.RenderFace | dice.js:525 | a face renders as "(Nothing)" exactly when it shows no symbol; otherwise as its names joined by ", " in parentheses |
| Narrative.RenderEach | dice.js:507-525 | one rendering per face, face `i` rendered by `RenderFace` |
| Narrative.RenderFaces | dice.js:507-526 | the breakdown of no faces is "", and of one face is that face's rendering |
| Narrative.RenderFacesAppend | dice.js:526 | the breakdown of two non-empty runs of faces is their breakdowns joined by ", ", so faces appear in roll order |
| Narrative.TableFaceBlank | dice.js:507-526 | a face of a narrative die's table renders as "(Nothing)" exactly when it is the blank face |
| Narrative.StarWarsResult | dice.js:475-532 | no summary exactly when the evaluation was not purely narrative; failure exactly when it was but no face showed a symbol; otherwise the totals are the per-dimension sums, the description is `Describe` of the totals (so "No effect" exactly when they are zero), and the face breakdown is `RenderFaces` of the narrative log |
| Operators.DrawAll | dice.js:144 | `n` draws, the `j`-th being call `start + j`, each within `[lo, hi]` |
| Operators.DrawAllSplit | dice.js:144 | `n` draws are the first `n - 1` followed by one more |
| Operators.DieLog | dice.js:370-377 | one roll-log entry per draw, recording the result and the die's number of sides |
| Operators.DieLogAppend | dice.js:375 | logging two batches logs their concatenation |
| Operators.Rolled | dice.js:144 | rolling `n` dice gives `n` results: die `j` is the source's answer to call `|rolls| + j` over `[lo, hi]`, so it lies in that range; the roll log grows by exactly those results, as `(hi - lo + 1)`-sided dice |
| Operators.RolledOneMore | dice.js:370-377 | rolling one die more draws at the next call index and appends exactly one log entry |
| Operators.OpD | dice.js:135-148 | count (default 1) and sides (default 6) are clamped to `[1, 300]`; the result is a `1..sides` roll of exactly `count` dice, which are the next draws of the source (die `j` is the answer to call `|rolls| + j` over `[1, sides]`); it is worth their sum; exactly those dice are appended to the roll log |
| Operators.DValueBounds | dice.js:143-145 | a `d` roll of `n` dice with `s` sides (after clamping) is worth between `n` and `n * s` |
| Operators.OpDf | dice.js:150-158 | fails exactly when the count is missing; otherwise a `-1..1` roll of the clamped count of dice, which are the next draws of the source over `[-1, 1]`; it is worth their sum; each die is logged as 3-sided |
| Operators.FacesOf | dice.js:237 | each drawn face number is replaced by that face of the table |
| Operators.OpStar | dice.js:159-241 | fails exactly when the count is missing or every drawn face is blank; on success it is a narrative roll over `0..|table|-1` of the clamped count `n` of faces, face `j` being the table face at draw `|rolls| + j`; it is worth the summed value dimension; the roll log gains one `|table|`-sided entry per draw; the faces are appended to the narrative log; nothing else changes |
| Operators.Filter | dice.js:285 | every die that matches is kept with its full multiplicity; no other die is kept |
| Operators.FilterAppend | dice.js:285 | filtering keeps roll order (it distributes over concatenation) |
| Operators.ExplodeFrom | dice.js:246-255 | the explosion loop exits only with no pending maxima or with at least 300 dice |
| Operators.ExplodeAppends | dice.js:243-258 | the explosion loop only appends: the original dice are a prefix, the value grows by exactly the added dice, and the roll log grows by exactly those dice |
| Operators.BatchAppended | dice.js:251-252 | appending one batch and then the rest is appending both at once, for the dice, the value and the roll log |
| Operators.ExplodeOnce | dice.js:246-255 | one iteration rolls as many dice as there were maxima and continues with the maxima of that batch |
| Operators.BatchesCombine | dice.js:251-252 | the sums and log entries of two consecutive batches add up to those of their concatenation |
| Operators.ExplodeStops | dice.js:246 | the loop ends with no pending maxima or with at least 300 dice; it changes nothing when there is no maximum; it ends below 300 plus the batch size |
| Operators.ExplodeInRange | dice.js:248 | every die the loop adds lies in `[min, max]` |
| Operators.Maxima | dice.js:244 | there are no more maxima than dice |
| Operators.MaximaIsFilter | dice.js:244 | the explosion count is the length of the filter `die === max` |
| Operators.OpExplode | dice.js:243-258 | fails on a missing operand or an integer; a narrative roll comes back unchanged; a numeric roll keeps its range, its dice are a prefix of the result, and its value and roll log grow by exactly the added dice |
| Operators.ExplodeGrows | dice.js:246-252 | below 300 dice, the loop adds at least one die per pending maximum |
| Operators.ExplodeExits | dice.js:243-258 | `!` on a numeric roll with `k` maxima runs the loop from those maxima: the roll gains at least `k` dice when it had fewer than 300; the loop ends with no pending maximum or at least 300 dice; a roll with no maximum comes back unchanged |
| Operators.InsertPermutes | dice.js:265 | inserting adds exactly one element |
| Operators.InsertSorted | dice.js:265 | inserting into a sorted sequence keeps it sorted |
| Operators.Sort | dice.js:265 | the sort is a sorted permutation of the dice |
| Operators.SortedUnique | dice.js:265 | two sorted permutations of the same dice are equal |
| Operators.SortedHeadsAgree | dice.js:265 | two sorted permutations of the same non-empty dice start with the same die and continue with the same dice |
| Operators.SortIsCanonical | dice.js:265 | any sorted permutation of the roll is its sort, so what `kh` / `kl` keep does not depend on draw order |
| Operators.SliceEnd | dice.js:265 | the end index of `slice(0, k)`: `k` capped at the length, counted from the end when negative |
| Operators.KeptDice | dice.js:265 | `kh`/`kl` keep exactly `slice(0, k)`'s number of dice, sorted in the keep direction |
| Operators.KeptAreExtremes | dice.js:265 | the kept dice and the rest partition the roll, the kept dice are sorted, and every kept die beats (or ties) every die left out |
| Operators.OpKeep | dice.js:260-278 | fails exactly when the operand is not a numeric roll or the selection is empty; otherwise the result is the sum of the kept dice, and they are appended to the kept log |
| Operators.KeepSelectsExtremes | dice.js:260-278 | a successful keep logs between one and all of the dice, and no die left out beats a kept one |
| Operators.OpCount | dice.js:280-298 | fails exactly when the operand is not a numeric roll or the target is missing; otherwise the count of matching dice, with those dice appended to the kept log in roll order |
| Operators.OpGm | dice.js:300-341 | one die over the 31 oracle entries, which is the next draw of the source (call `|rolls|` over `[0, 30]`), logged as one die; the roll is worth that draw; the drawn phrase and a space are put in front of the comment |
| Operators.OpGmAsWritten | dice.js:335 | the operator as written always fails |
| Operators.GmAsWrittenAlwaysFails | dice.js:335 | in every context the written operator fails, while the intended one logs one die and lengthens the comment |
| Operators.ArithOf | dice.js:343-351 | `+`, `-` and `*` give the integer sum, difference and product of the operands' values, a roll counting as its total |
| Evaluator.Pop | dice.js:398-399 | popping an empty stack yields nothing (`undefined`) and leaves it empty; otherwise it returns the top and the stack below it |
| Evaluator.SelectOperands | dice.js:415-424 | when the top is a roll, the value beneath it stays on the stack and the roll is used alone; an integer on top with a value beneath gives roll and count; a lone value is used alone |
| Evaluator.Step | dice.js:391-467 | a literal token pushes its integer and changes nothing else; every successful token leaves a non-empty stack |
| Evaluator.Run | dice.js:391 | no tokens leave the context unchanged; one token is one step |
| Evaluator.RunFirst | dice.js:391 | a run is its first step followed by the rest, and a failing step aborts it |
| Evaluator.RunSnoc | dice.js:391 | running one more token is one more step after the run so far |
| Evaluator.IndexOf | dice.js:385 | `indexOf` finds the first occurrence, or -1 exactly when the character is absent |
| Evaluator.SplitComment | dice.js:384-389 | the expression has no `;`; with a `;` the command is expression `;` comment; without one the comment is empty |
| Evaluator.IndexAfterPrefix | dice.js:385 | the first `;` after a `;`-free prefix sits right after it |
| Evaluator.SplitAtFirst | dice.js:384-389 | splitting `expression;rest` with a `;`-free expression gives back exactly that expression and rest |
| Evaluator.Execute | dice.js:379-391 | a command without `;` runs its parsed tokens with an empty comment |
| Evaluator.ExecuteSplits | dice.js:384-391 | `expression;comment` runs the parsed expression with the comment set to everything after the first `;` |
| Evaluator.FinalValue | dice.js:534-536 | the result is the bottom value's value, and fails exactly when the stack is empty |
| Invariants.StepPushesOne | dice.js:391-468 | every successful token replaces its operands (0, 1 or 2, by operator and stack shape) by exactly one value and leaves the rest of the stack untouched |
| Invariants.ArithStepPushesOne | dice.js:393-407 | `+ - *` replace two values by one |
| Invariants.SelectStepPushesOne | dice.js:408-433 | keep and count replace one value (a roll on top) or two by one |
| Invariants.UnaryStepPushesOne | dice.js:434-457 | `!`, `df` and the narrative dice replace one value by one |
| Invariants.GmPushesOne | dice.js:458-463 | `gm` pushes one value and pops none |
| Invariants.ArithPushesOne | dice.js:393-407 | a successful arithmetic step pops two values and pushes one |
| Invariants.ArithStep | dice.js:343-351 | `+ - *` fail exactly when fewer than two values are on the stack; otherwise the top two are replaced by `ArithOf` of them, the deeper operand on the left |
| Invariants.ArithOperands | dice.js:393-405 | an arithmetic step pops `b` then `a` and pushes the result of `a` op `b`; it fails exactly when either is missing |
| Invariants.DPushesOne | dice.js:397-407 | `d` pops up to two values and pushes one |
| Invariants.UnaryPushesOne | dice.js:434-457 | the one-operand steps pop one value and push one |
| Invariants.SelectPushesOne | dice.js:408-433 | a successful keep/count step pops one value (roll on top) or up to two and pushes one |
| Invariants.StepExtendsLogs | dice.js:391-468 | every token only appends to the logs; narrative tokens log one roll per face and show a symbol; no other token touches the narrative log; `d`, `df`, `gm` always log a die; only `gm` changes the comment |
| Invariants.StarExtendsLogs | dice.js:237-239 | a narrative token logs exactly one roll per face, at least one symbol, and leaves the comment |
| Invariants.PlainStepExtendsLogs | dice.js:391-468 | a non-narrative token extends the logs and leaves the narrative log unchanged |
| Invariants.SelectStepLogs | dice.js:260-298 | keep and count extend only the kept log |
| Invariants.SelectOnlyKeeps | dice.js:260-298 | keep and count change only the stack and extend the kept log |
| Invariants.RollingLogs | dice.js:135-158 | `d` and `df` change only the stack and the roll log, which grows |
| Invariants.ExplodeLogs | dice.js:243-258 | `!` changes only the stack and extends the roll log |
| Invariants.GmLogs | dice.js:334-339 | `gm` changes only the stack, the roll log (which grows) and the comment |
| Invariants.StepPreservesWf | dice.js:391-468 | after every successful token the narrative log is no longer than the roll log, and once non-empty it shows at least one symbol |
| Invariants.RunExtendsLogs | dice.js:391-468 | over a run the logs only grow, well-formedness is kept, and a `d`/`df`/`gm` token makes the roll log outgrow the narrative log |
| Invariants.NumericDieIsNotNarrative | dice.js:471-473 | an evaluation that rolls a `d`, `df` or `gm` die is never classified as narrative |
| Invariants.SummaryAfterRun | dice.js:475-481 | after a successful evaluation the narrative summary never fails |
| Invariants.KIsKh | dice.js:358 | `k` behaves as `kh` |
| Invariants.BIsKh | dice.js:359 | `b` behaves as `kh` |
| Invariants.WIsKl | dice.js:360 | `w` behaves as `kl` |
| Machine.Dice.constructor | dice.js:124-131 | a new evaluator holds the command and source, with an empty stack and empty logs |
| Machine.Dice.RollDie | dice.js:370-377 | `roll` returns the next draw, within range, and appends one log entry |
| Machine.Dice.RollDice | dice.js:144 | rolling `n` dice leaves exactly the dice and roll log that `Rolled` specifies |
| Machine.Dice.OperatorD | dice.js:135-148 | the in-place `d` leaves the result and state that `OpD` specifies |
| Machine.Dice.OperatorDf | dice.js:150-158 | the in-place `df` agrees with `OpDf` |
| Machine.Dice.OperatorStar | dice.js:159-241 | the in-place narrative operator agrees with `OpStar` |
| Machine.Dice.OperatorExplode | dice.js:243-258 | the in-place explosion loop agrees with `OpExplode` |
| Machine.Dice.OperatorKeep | dice.js:260-278 | the in-place keep agrees with `OpKeep` |
| Machine.Dice.OperatorCount | dice.js:280-298 | the in-place count agrees with `OpCount` |
| Machine.Dice.OperatorGm | dice.js:300-341 | the in-place intended `gm` agrees with `OpGm` |
| Machine.Dice.PopOperand | dice.js:398 | `stack.pop()` agrees with `Pop` and changes nothing else |
| Machine.Dice.ApplyArith | dice.js:393-407 | the arithmetic case of `execute` agrees with its step |
| Machine.Dice.ApplyD | dice.js:397-407 | the `d` case of `execute` agrees with its step |
| Machine.Dice.PopSelectOperands | dice.js:415-424 | the operand popping of keep/count agrees with `SelectOperands` |
| Machine.Dice.ApplySelect | dice.js:408-433 | the keep/count case of `execute` agrees with its step |
| Machine.Dice.ApplyExplode | dice.js:434-443 | the `!` case of `execute` agrees with its step |
| Machine.Dice.ApplyDf | dice.js:434-443 | the `df` case of `execute` agrees with its step |
| Machine.Dice.ApplyStar | dice.js:444-457 | the narrative case of `execute` agrees with its step |
| Machine.Dice.ApplyGm | dice.js:458-463 | the `gm` case of `execute` agrees with its step |
| Machine.Dice.Apply | dice.js:391-467 | one token of `execute` agrees with `Step` |
| Machine.Dice.Execute | dice.js:379-469 | `execute` keeps the part before the first `;` as the command and ends in the state (or failure) the specification's `Execute` computes |
| Machine.Dice.SplitCommand | dice.js:384-389 | the command and comment become the two halves of `SplitComment` and nothing else changes |
| Machine.Dice.Evaluate | dice.js:391-468 | applying the tokens in order ends as `Run` does, stopping at the first failure |
| Scenarios.ThreeD20LogsThreeRolls | tests/dice.js:6-11 | `3d20` logs three rolls of 20-sided dice in range, whatever the source answers |
| Scenarios.PreSeeded | tests/dice.js:13-18 | with every draw answering 2, `3d20` run by the `Dice` object evaluates to 6 |
| Scenarios.PreSeededRun | tests/dice.js:13-18 | with every draw answering 2, `3d20` leaves one roll of three 2s worth 6 and three logged 20-sided dice |
| Scenarios.ThreeTwos | tests/dice.js:13-18 | `3d20` with every draw answering 2 leaves one roll of three 2s worth 6 |
| Scenarios.RollRun | dice.js:135-148 | `count sides d` from a fresh context leaves one roll of the drawn dice and logs them |
| Scenarios.ThreeD20ThenTwo | dice.js:464-466 | `3d20 2` with draws 11, 19, 1 leaves that roll and the integer 2 |
| Scenarios.ThreeD20Run | dice.js:135-148 | `3d20` under the draws 11, 19, 1 leaves one roll of those dice worth 31, logged as three 20-sided dice |
| Scenarios.SortDescending | dice.js:265 | 11, 19, 1 sorted high-first is 19, 11, 1, and `kh2` keeps 19 and 11 |
| Scenarios.SortAscending | dice.js:275 | 11, 19, 1 sorted low-first is 1, 11, 19, and `kl2` keeps 1 and 11 |
| Scenarios.KeepStep | dice.js:260-278 | a roll and a count alone on the stack are replaced by the sum of the kept dice, which are logged |
| Scenarios.KeepHighStep | dice.js:260-268 | `kh` with count 2 on 11, 19, 1 gives 30 and keeps 19, 11 |
| Scenarios.KeepLowStep | dice.js:270-278 | `kl` with count 2 on 11, 19, 1 gives 12 and keeps 1, 11 |
| Scenarios.KeepHighRun | dice.js:260-268 | `3d20kh2` with draws 11, 19, 1 is worth 30 |
| Scenarios.KeepLowRun | dice.js:270-278 | `3d20kl2` with draws 11, 19, 1 is worth 12 |
| Scenarios.PushLiterals | dice.js:464-466 | two literals are pushed in order |
| Scenarios.RollLiterals | dice.js:397-407 | `d` on two literals rolls `count` dice with `sides` sides and logs them |
| Scenarios.OneD6ShowsSix | dice.js:135-148 | `1d6` with first draw 6 leaves a roll of one six |
| Scenarios.SnocOk | dice.js:391 | a run to `mid` followed by a successful step from `mid` is a run to the step's result |
| Scenarios.ThreeMinusTwo | dice.js:346-348 | `3 2 -` leaves 1: the operand pushed first is the left operand |
| Scenarios.MinusStep | dice.js:346-348 | `-` on 3 and 2 leaves 1 |
| Scenarios.PlusNeedsTwo | dice.js:398-404 | `3 +` fails: an arithmetic operator needs two operands |
| Scenarios.RollPlusOne | dice.js:343-345 | `1d6 1 +` with first draw 6 leaves the integer 7: a roll counts as its total |
| Scenarios.PlusOneStep | dice.js:343-345 | `+` on a roll worth 6 and the integer 1 leaves 7 |
| Scenarios.ExplodeRound | dice.js:246-255 | one explosion round adds the next draw and continues only if it is the maximum |
| Scenarios.ExplodeRoll | dice.js:243-258 | `!` on a numeric roll runs the loop from its dice and maxima |
| Scenarios.SixExplodesTwice | dice.js:243-258 | with draws 6, 6, 1 the six explodes into a six, then a one: dice 6, 6, 1, worth 13 |
| Scenarios.ExplodeStep | dice.js:434-443 | `!` replaces a lone numeric roll by the exploded roll |
| Scenarios.ExplodingSix | dice.js:243-258 | `1d6!` with draws 6, 6, 1 is worth 13, with three rolls logged |
| Scenarios.FourSwaEffects | dice.js:238 | the faces shown by `4swa` flatten to four Successes and two Advantages in order |
| Scenarios.FourSwaTotals | dice.js:477-481 | those symbols total 4 value and 2 side effect |
| Scenarios.FourSwaDraws | dice.js:237 | face draws 0..3 over the ability die are logged as four 8-sided dice |
| Scenarios.FourSwaFacesShown | dice.js:237 | face numbers 0..3 show the first four faces of `swa` |
| Scenarios.FourSwaOp | dice.js:159-241 | `swa` on count 4 with those draws is worth 4 and logs faces and dice |
| Scenarios.StarStep | dice.js:444-457 | a narrative token applies its operator to the count on top of the stack |
| Scenarios.StarStepOk | dice.js:444-457 | when the narrative operator succeeds, the token pushes its roll onto the context it leaves |
| Scenarios.FourSwaStep | dice.js:444-457 | the `swa` token on count 4 leaves the expected roll and logs |
| Scenarios.FourSwaRun | dice.js:444-457 | `4swa` with face draws 0..3 leaves that roll and logs |
| Scenarios.RenderSingle | dice.js:525 | a one-symbol face renders as its name in parentheses |
| Scenarios.RenderDouble | dice.js:525 | a two-symbol face renders as both names, comma-separated, in parentheses |
| Scenarios.TwoNames | dice.js:508-524 | a face of two single-named symbols has those two names in order |
| Scenarios.NotBlank | dice.js:525 | a face whose first symbol has a name does not render as "(Nothing)" |
| Scenarios.BracketTwo | dice.js:525 | two names joined and bracketed read "(a, b)" |
| Scenarios.SuccessFaces | dice.js:525 | "(Success)" and "(Success, Advantage)" |
| Scenarios.OtherFaces | dice.js:525 | "(Advantage)" and "(Success, Success)" |
| Scenarios.FourSwaRendering | dice.js:507-526 | the breakdown of `4swa` lists the four faces in roll order |
| Scenarios.FourSwaParts | dice.js:485-503 | totals 4/0/2 describe as "4 Successes" and "2 Advantages" |
| Scenarios.FourSwaDescription | dice.js:505 | and join into "4 Successes, 2 Advantages" |
| Scenarios.FourSwa | dice.js:475-532 | `4swa` is a narrative evaluation with totals 4/0/2, its description and its face breakdown |
| Scenarios.HighestOfThreeFive | dice.js:265 | the highest of 3 and 5 is 5 |
| Scenarios.RecoveryStep | dice.js:418-424 | with a value under a numeric roll, `kh` pushes the value back and keeps the single highest die of the roll |
| Scenarios.RecoveryKeepsOne | dice.js:418-424 | `kh` over a d20 roll of 17 and a 2d6 roll of 3, 5 puts the d20 roll back and keeps the 5 |
| Scenarios.OracleComment | dice.js:339 | `gm` with draw 0 turns the comment "to hit" into "Separate them to hit" |

## Left out

- The lexer and the shunting-yard parser (dice.js:1-52 and 103-111) are left out: `parse` is a parameter of `Execute`, and tokens are the postfix `Token` values it returns. `Tables.PrecedenceOf` records the precedence table only.
- The default source `Math.random` (dice.js:131) is left out: the source is always a parameter. The model trusts it to answer in range, as the source does.
- `/` (dice.js:352-354) is left out because it is floating-point division. JavaScript numbers are modelled as unbounded integers throughout, so rounding above 2^53 is not captured.
- Literal tokens are natural numbers. `parseInt` on a token that is not a number gives `NaN`; that case is left out.
- `console.log` output is left out.
- index.js (the chat adapter) is not part of this model.
- Operators.Sort: `kh` and `kl` pass a comparator that returns a boolean. How JavaScript then orders the dice depends on the engine's sort algorithm, so the model uses the true sort the comparator intends.
- Operators.OpKeep: keeping from a narrative roll fails in the model. The source would sort the face arrays by JavaScript coercion and reduce them into a string.
- Operators.OpCount: counting on a narrative roll fails in the model. The source would compare face arrays with numbers.
- Narrative.StarWarsResult: when the evaluation shows a single symbol, `reduce` returns a shared symbol constant, and the source then writes `description` and `faces` onto that shared constant. This aliasing is not modelled; the summary is a fresh value.
- Machine.Dice.constructor: sets the comment to empty, where the source leaves it undefined until `execute` resets it.
- Error messages are approximations of JavaScript's `TypeError` texts; only the fact of failure is meant.
- Operators.OpGm: the clamp of its count to `[1, 10]` is not modelled. `gm` is dispatched without operands, so the count is always the default 1.
- `Failure` is `(0, 0, -1)` and `Threat` is `(-1, 0, 0)`, as in the code (dice.js:57-59). They render as "Threat" and "Failure" respectively, and are modelled as written.

## Findings

| source | as written | input that shows it | evidently intended | confidence | as-written member | corrected member |
|---|---|---|---|---|---|---|
| dice.js:335 | `gm` reads its count with `arguments.shift()` on the `arguments` object, which has no `shift`, so the operator throws | any command containing `gm`, e.g. `gm` | count defaults to 1, one oracle draw, phrase put in front of the comment | high; not executed | Operators.GmAsWrittenAlwaysFails | Operators.OpGm |
