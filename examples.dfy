/**
 * Worked evaluations with fixed draws: the behaviour the repository's tests
 * and documentation describe, derived from the model.
 */
module Scenarios {
  import opened Values
  import opened Tables
  import opened Narrative
  import opened Operators
  import opened Evaluator
  import Invariants
  import Machine

  const Empty := Ctx([], [], [], [], "")

  /** `3d20` logs three rolls of 20-sided dice, whatever the random source answers. */
  lemma ThreeD20LogsThreeRolls(rng: Rng)
    ensures var r := Run(rng, Empty, [Num(3), Num(20), Sym(D)]);
      && r.Ok? && |r.value.rolls| == 3
      && forall j :: 0 <= j < 3 ==> r.value.rolls[j].sides == 20 && 1 <= r.value.rolls[j].result <= 20
  {
    var c1 := Push(Empty, Integer(3));
    var c2 := Push(c1, Integer(20));
    assert Run(rng, Empty, [Num(3), Num(20), Sym(D)]) == Ok(StepD(rng, c2));
  }

  /**
   * The pre-seeded test: with every draw answering 2, `3d20` evaluates to 6,
   * through the `Dice` object itself.
   */
  method PreSeeded() returns (value: Result<int>)
    ensures value == Ok(6)
  {
    var dice := new Machine.Dice("3d20", TwoTwoTwo);
    var parse := (s: string) => [Num(3), Num(20), Sym(D)];
    var error := dice.Execute(parse);
    PreSeededRun(parse);
    value := FinalValue(dice.stack);
  }

  const TwoTwoTwo := FromDraws([2, 2, 2])

  /** With every draw answering 2, the command `3d20` leaves one roll of three 2s. */
  lemma PreSeededRun(parse: string -> seq<Token>)
    requires parse("3d20") == [Num(3), Num(20), Sym(D)]
    ensures Evaluator.Execute(TwoTwoTwo, parse, Empty, "3d20")
      == Ok(Empty.(stack := [Roll(1, 20, Numeric([2, 2, 2]), 6)], rolls := [Die(2, 20), Die(2, 20), Die(2, 20)]))
  {
    assert ';' !in "3d20";
    assert Empty.(comment := "") == Empty;
    ThreeTwos(parse("3d20"));
  }

  /** `3d20` with every draw answering 2. */
  lemma ThreeTwos(tokens: seq<Token>)
    requires tokens == [Num(3), Num(20), Sym(D)]
    ensures Run(TwoTwoTwo, Empty, tokens)
      == Ok(Empty.(stack := [Roll(1, 20, Numeric([2, 2, 2]), 6)], rolls := [Die(2, 20), Die(2, 20), Die(2, 20)]))
  {
    RollRun(TwoTwoTwo, tokens, 3, 20);
    TwoTwoTwoDraws(TwoTwoTwo);
  }

  /** The first three twenty-sided draws of `TwoTwoTwo`. */
  lemma TwoTwoTwoDraws(rng: Rng)
    requires rng == TwoTwoTwo
    ensures DrawAll(rng, 0, 3, 1, 20) == [2, 2, 2]
    ensures DieLog([2, 2, 2], 20) == [Die(2, 20), Die(2, 20), Die(2, 20)]
    ensures Sum([2, 2, 2]) == 6
  {
  }

  const ElevenNineteenOne := FromDraws([11, 19, 1])

  /** The context after `3d20 2` with draws 11, 19, 1. */
  const ThreeD20Two := Empty.(stack := [Roll(1, 20, Numeric([11, 19, 1]), 31), Integer(2)],
                              rolls := [Die(11, 20), Die(19, 20), Die(1, 20)])

  /** `count sides d` from an empty context rolls `count` dice and logs them. */
  lemma RollRun(rng: Rng, tokens: seq<Token>, count: nat, sides: nat)
    requires tokens == [Num(count), Num(sides), Sym(D)]
    requires 1 <= count <= 300 && 1 <= sides <= 300
    ensures var dice := DrawAll(rng, 0, count, 1, sides);
      Run(rng, Empty, tokens) == Ok(Empty.(stack := [Roll(1, sides, Numeric(dice), Sum(dice))], rolls := DieLog(dice, sides)))
  {
    var literals := tokens[..2];
    assert literals == [Num(count), Num(sides)];
    assert tokens == literals + [Sym(D)];
    PushLiterals(rng, Empty, count, sides);
    RollLiterals(rng, Empty, count, sides);
    RunSnoc(rng, Empty, literals, Sym(D));
    var dice := DrawAll(rng, 0, count, 1, sides);
    assert Empty.stack + [Integer(count), Integer(sides)] == [Integer(count), Integer(sides)];
    assert Empty.stack + [Roll(1, sides, Numeric(dice), Sum(dice))] == [Roll(1, sides, Numeric(dice), Sum(dice))];
    assert Empty.rolls + DieLog(dice, sides) == DieLog(dice, sides);
  }

  /** The first three twenty-sided draws of `ElevenNineteenOne`. */
  lemma ElevenNineteenOneDraws(rng: Rng, dice: seq<int>)
    requires rng == ElevenNineteenOne && dice == [11, 19, 1]
    ensures DrawAll(rng, 0, 3, 1, 20) == dice
    ensures DieLog(dice, 20) == [Die(11, 20), Die(19, 20), Die(1, 20)]
    ensures Sum(dice) == 31
  {
  }

  lemma ThreeD20ThenTwo(tokens: seq<Token>)
    requires tokens == [Num(3), Num(20), Sym(D), Num(2)]
    ensures Run(ElevenNineteenOne, Empty, tokens) == Ok(ThreeD20Two)
  {
    var c3 := Empty.(stack := [Roll(1, 20, Numeric([11, 19, 1]), 31)], rolls := ThreeD20Two.rolls);
    assert c3.stack + [Integer(2)] == ThreeD20Two.stack;
    assert tokens == tokens[..3] + [Num(2)];
    ThreeD20Run(tokens[..3], c3);
    SnocOk(ElevenNineteenOne, Empty, tokens[..3], Num(2), c3, ThreeD20Two);
  }

  /** `3d20` under `ElevenNineteenOne` rolls 11, 19 and 1. */
  lemma ThreeD20Run(tokens: seq<Token>, c3: Ctx)
    requires tokens == [Num(3), Num(20), Sym(D)]
    requires c3 == Empty.(stack := [Roll(1, 20, Numeric([11, 19, 1]), 31)], rolls := ThreeD20Two.rolls)
    ensures Run(ElevenNineteenOne, Empty, tokens) == Ok(c3)
  {
    ElevenNineteenOneDraws(ElevenNineteenOne, [11, 19, 1]);
    RollRun(ElevenNineteenOne, tokens, 3, 20);
  }

  /** Sorted descending, 11, 19, 1 is 19, 11, 1: `kh2` keeps 19 and 11. */
  lemma SortDescending(dice: seq<int>)
    requires dice == [11, 19, 1]
    ensures Sort(dice, true) == [19, 11, 1]
    ensures KeptDice(dice, true, 2) == [19, 11]
  {
    var sorted := [19, 11, 1];
    assert Sort(dice, true) == sorted by {
      assert SortedBy(sorted, true);
      assert multiset(sorted) == multiset(dice);
      SortIsCanonical(dice, sorted, true, 2);
    }
    assert KeptDice(dice, true, 2) == sorted[..2];
    assert sorted[..2] == [19, 11];
  }

  /** Sorted ascending, 11, 19, 1 is 1, 11, 19: `kl2` keeps 1 and 11. */
  lemma SortAscending(dice: seq<int>)
    requires dice == [11, 19, 1]
    ensures Sort(dice, false) == [1, 11, 19]
    ensures KeptDice(dice, false, 2) == [1, 11]
  {
    var sorted := [1, 11, 19];
    assert Sort(dice, false) == sorted by {
      assert SortedBy(sorted, false);
      assert multiset(sorted) == multiset(dice);
      SortIsCanonical(dice, sorted, false, 2);
    }
    assert KeptDice(dice, false, 2) == sorted[..2];
    assert sorted[..2] == [1, 11];
  }

  /** `kh` / `kl` with a roll and a count alone on the stack replace both by the sum of the kept dice. */
  lemma KeepStep(rng: Rng, c: Ctx, descending: bool, roll: Value, k: int, kept: seq<int>)
    requires roll.Roll? && roll.dice.Numeric? && c.stack == [roll, Integer(k)]
    requires kept == KeptDice(roll.dice.nums, descending, k) && kept != []
    ensures Step(rng, c, Sym(if descending then Kh else Kl))
      == Ok(c.(stack := [Integer(Sum(kept))], kept := c.kept + kept))
  {
    var sel := if descending then KeepHighest else KeepLowest;
    assert Step(rng, c, Sym(if descending then Kh else Kl)) == StepSelect(c, sel);
    assert SelectOperands(c.stack) == (Some(roll), Some(Integer(k)), []);
    assert [] + [Integer(Sum(kept))] == [Integer(Sum(kept))];
  }

  /** `kh` with count 2 on the roll 11, 19, 1 keeps 19 and 11. */
  lemma KeepHighStep(rng: Rng, c: Ctx)
    requires c.stack == [Roll(1, 20, Numeric([11, 19, 1]), 31), Integer(2)]
    ensures Step(rng, c, Sym(Kh)) == Ok(c.(stack := [Integer(30)], kept := c.kept + [19, 11]))
  {
    var roll := c.stack[0];
    SortDescending(roll.dice.nums);
    assert Sum([19, 11]) == 30;
    KeepStep(rng, c, true, roll, 2, [19, 11]);
  }

  /** `kl` with count 2 on the roll 11, 19, 1 keeps 1 and 11. */
  lemma KeepLowStep(rng: Rng, c: Ctx)
    requires c.stack == [Roll(1, 20, Numeric([11, 19, 1]), 31), Integer(2)]
    ensures Step(rng, c, Sym(Kl)) == Ok(c.(stack := [Integer(12)], kept := c.kept + [1, 11]))
  {
    var roll := c.stack[0];
    SortAscending(roll.dice.nums);
    assert Sum([1, 11]) == 12;
    KeepStep(rng, c, false, roll, 2, [1, 11]);
  }

  /** `3d20kh2` with draws 11, 19, 1 keeps 19 and 11, worth 30. */
  lemma KeepHighRun(tokens: seq<Token>, after: Ctx)
    requires tokens == [Num(3), Num(20), Sym(D), Num(2), Sym(Kh)]
    requires after == ThreeD20Two
    ensures Run(ElevenNineteenOne, Empty, tokens) == Ok(after.(stack := [Integer(30)], kept := [19, 11]))
  {
    var prefix := tokens[..4];
    assert tokens == prefix + [Sym(Kh)];
    ThreeD20ThenTwo(prefix);
    KeepHighStep(ElevenNineteenOne, after);
    RunSnoc(ElevenNineteenOne, Empty, prefix, Sym(Kh));
    assert after.kept + [19, 11] == [19, 11];
  }

  /** `3d20kl2` with draws 11, 19, 1 keeps 1 and 11, worth 12. */
  lemma KeepLowRun(tokens: seq<Token>, after: Ctx)
    requires tokens == [Num(3), Num(20), Sym(D), Num(2), Sym(Kl)]
    requires after == ThreeD20Two
    ensures Run(ElevenNineteenOne, Empty, tokens) == Ok(after.(stack := [Integer(12)], kept := [1, 11]))
  {
    var prefix := tokens[..4];
    assert tokens == prefix + [Sym(Kl)];
    ThreeD20ThenTwo(prefix);
    KeepLowStep(ElevenNineteenOne, after);
    RunSnoc(ElevenNineteenOne, Empty, prefix, Sym(Kl));
    assert after.kept + [1, 11] == [1, 11];
  }

  /** Two literals are pushed in order. */
  lemma PushLiterals(rng: Rng, c: Ctx, a: nat, b: nat)
    ensures Run(rng, c, [Num(a), Num(b)]) == Ok(c.(stack := c.stack + [Integer(a), Integer(b)]))
  {
    var c1 := c.(stack := c.stack + [Integer(a)]);
    assert [Num(a), Num(b)][1..] == [Num(b)];
    assert Run(rng, c1, [Num(b)]) == Ok(c1.(stack := c1.stack + [Integer(b)]));
    assert c1.stack + [Integer(b)] == c.stack + [Integer(a), Integer(b)];
  }

  /** `count sides d` with two literals on top of the stack rolls `count` dice with `sides` sides. */
  lemma RollLiterals(rng: Rng, c: Ctx, count: nat, sides: nat)
    requires 1 <= count <= 300 && 1 <= sides <= 300
    ensures var dice := DrawAll(rng, |c.rolls|, count, 1, sides);
      Step(rng, c.(stack := c.stack + [Integer(count), Integer(sides)]), Sym(D))
        == Ok(c.(stack := c.stack + [Roll(1, sides, Numeric(dice), Sum(dice))], rolls := c.rolls + DieLog(dice, sides)))
  {
    var s := c.stack + [Integer(count), Integer(sides)];
    assert s[..|s| - 1] == c.stack + [Integer(count)];
    assert s[..|s| - 1][..|s| - 2] == c.stack;
  }

  const SixSixOne := FromDraws([6, 6, 1])

  /** The draws of `SixSixOne` over a six-sided die. */
  lemma SixSixOneDraws(rng: Rng)
    requires rng == SixSixOne
    ensures rng(0, 1, 6) == 6 && rng(1, 1, 6) == 6 && rng(2, 1, 6) == 1
    ensures DrawAll(rng, 0, 1, 1, 6) == [6] && DieLog([6], 6) == [Die(6, 6)]
  {
  }

  /** `1d6` with first draw 6. */
  lemma OneD6ShowsSix(rng: Rng, tokens: seq<Token>)
    requires rng == SixSixOne && tokens == [Num(1), Num(6), Sym(D)]
    ensures Run(rng, Empty, tokens) == Ok(Empty.(stack := [Roll(1, 6, Numeric([6]), 6)], rolls := [Die(6, 6)]))
  {
    RollRun(rng, tokens, 1, 6);
    SixSixOneDraws(rng);
    assert Sum([6]) == 6;
  }

  /** A run that reaches `mid` and a step from `mid` to `after` make a run to `after`. */
  lemma SnocOk(rng: Rng, c: Ctx, prefix: seq<Token>, t: Token, mid: Ctx, after: Ctx)
    requires Run(rng, c, prefix) == Ok(mid) && Step(rng, mid, t) == Ok(after)
    ensures Run(rng, c, prefix + [t]) == Ok(after)
  {
    RunSnoc(rng, c, prefix, t);
  }

  /** `3 2 -`: the operand pushed first is the left one, so the difference is 1. */
  lemma ThreeMinusTwo(rng: Rng, tokens: seq<Token>)
    requires tokens == [Num(3), Num(2), Sym(Minus)]
    ensures Run(rng, Empty, tokens) == Ok(Empty.(stack := [Integer(1)]))
  {
    var mid := Empty.(stack := [Integer(3), Integer(2)]);
    PushLiterals(rng, Empty, 3, 2);
    assert Empty.stack + [Integer(3), Integer(2)] == mid.stack;
    MinusStep(rng, mid);
    SnocOk(rng, Empty, [Num(3), Num(2)], Sym(Minus), mid, Empty.(stack := [Integer(1)]));
    assert tokens == [Num(3), Num(2)] + [Sym(Minus)];
  }

  lemma MinusStep(rng: Rng, c: Ctx)
    requires c == Empty.(stack := [Integer(3), Integer(2)])
    ensures Step(rng, c, Sym(Minus)) == Ok(Empty.(stack := [Integer(1)]))
  {
    Invariants.ArithStep(rng, c, Minus);
    assert Invariants.ArithFor(Minus) == Subtract;
    assert ArithOf(Subtract, Integer(3), Integer(2)) == Integer(1);
    assert c.stack[..0] + [Integer(1)] == [Integer(1)];
  }

  /** `3 +`: an arithmetic operator with one operand fails. */
  lemma PlusNeedsTwo(rng: Rng, tokens: seq<Token>)
    requires tokens == [Num(3), Sym(Plus)]
    ensures Run(rng, Empty, tokens).Err?
  {
    assert tokens == [Num(3)] + [Sym(Plus)];
    RunSnoc(rng, Empty, [Num(3)], Sym(Plus));
    Invariants.ArithStep(rng, Empty.(stack := [Integer(3)]), Plus);
  }

  /** `1d6 1 +` with first draw 6: a roll counts as its total, so the sum is 7. */
  lemma RollPlusOne(rng: Rng, tokens: seq<Token>)
    requires rng == SixSixOne && tokens == [Num(1), Num(6), Sym(D), Num(1), Sym(Plus)]
    ensures Run(rng, Empty, tokens) == Ok(Empty.(stack := [Integer(7)], rolls := [Die(6, 6)]))
  {
    var roll := [Num(1), Num(6), Sym(D)];
    var c := Empty.(stack := [Roll(1, 6, Numeric([6]), 6)], rolls := [Die(6, 6)]);
    var mid := c.(stack := c.stack + [Integer(1)]);
    OneD6ShowsSix(rng, roll);
    SnocOk(rng, Empty, roll, Num(1), c, mid);
    PlusOneStep(rng, mid);
    SnocOk(rng, Empty, roll + [Num(1)], Sym(Plus), mid, Empty.(stack := [Integer(7)], rolls := [Die(6, 6)]));
    assert tokens == roll + [Num(1)] + [Sym(Plus)];
  }

  lemma PlusOneStep(rng: Rng, c: Ctx)
    requires c == Empty.(stack := [Roll(1, 6, Numeric([6]), 6), Integer(1)], rolls := [Die(6, 6)])
    ensures Step(rng, c, Sym(Plus)) == Ok(Empty.(stack := [Integer(7)], rolls := [Die(6, 6)]))
  {
    Invariants.ArithStep(rng, c, Plus);
    assert Invariants.ArithFor(Plus) == Add;
    assert ArithOf(Add, Roll(1, 6, Numeric([6]), 6), Integer(1)) == Integer(7);
    assert c.stack[..0] + [Integer(7)] == [Integer(7)];
  }

  /** One round of the explosion loop with one pending die that draws `d`. */
  lemma ExplodeRound(rng: Rng, c: Ctx, min: int, max: int, dice: seq<int>, value: int, d: int, next: nat)
    requires |dice| < 300 && rng(|c.rolls|, min, max) == d
    requires next == if d == max then 1 else 0
    ensures ExplodeFrom(rng, c, min, max, dice, value, 1)
      == ExplodeFrom(rng, c.(rolls := c.rolls + [Die(d, max - min + 1)]), min, max, dice + [d], value + d, next)
  {
    ExplodeOnce(rng, c, min, max, dice, value, 1);
    var (extra, c1) := Rolled(rng, c, 1, min, max);
    assert extra == [d];
    assert DieLog([d], max - min + 1) == [Die(d, max - min + 1)];
    assert Sum([d]) == d;
    assert Maxima([d], max) == next;
  }

  /** `!` on a numeric roll runs the explosion loop from that roll's dice and maxima. */
  lemma ExplodeRoll(rng: Rng, c: Ctx, roll: Value, e: Explosion)
    requires roll.Roll? && roll.dice.Numeric?
    requires e == ExplodeFrom(rng, c, roll.min, roll.max, roll.dice.nums, roll.value, Maxima(roll.dice.nums, roll.max))
    ensures OpExplode(rng, c, Some(roll)) == Ok((Roll(roll.min, roll.max, Numeric(e.dice), e.value), e.ctx))
  {
  }

  /** The six explodes into another six, which explodes into a one. */
  lemma SixExplodesTwice(rng: Rng, c: Ctx, e: Explosion)
    requires rng == SixSixOne && c == Empty.(rolls := [Die(6, 6)])
    requires e == ExplodeFrom(rng, c, 1, 6, [6], 6, 1)
    ensures e == Explosion([6, 6, 1], 13, 0, Empty.(rolls := [Die(6, 6), Die(6, 6), Die(1, 6)]))
  {
    var c2 := c.(rolls := c.rolls + [Die(6, 6)]);
    var c3 := c2.(rolls := c2.rolls + [Die(1, 6)]);
    assert [6] + [6] == [6, 6] && [6, 6] + [1] == [6, 6, 1];
    assert c3 == Empty.(rolls := [Die(6, 6), Die(6, 6), Die(1, 6)]);
    SixSixOneDraws(rng);
    ExplodeRound(rng, c, 1, 6, [6], 6, 6, 1);
    ExplodeRound(rng, c2, 1, 6, [6, 6], 12, 1, 0);
    assert ExplodeFrom(rng, c3, 1, 6, [6, 6, 1], 13, 0) == Explosion([6, 6, 1], 13, 0, c3);
  }

  /** `!` on a numeric roll alone on the stack replaces it by the exploded roll. */
  lemma ExplodeStep(rng: Rng, c: Ctx, roll: Value, e: Explosion)
    requires roll.Roll? && roll.dice.Numeric? && c.stack == [roll]
    requires e == ExplodeFrom(rng, c.(stack := []), roll.min, roll.max, roll.dice.nums, roll.value, Maxima(roll.dice.nums, roll.max))
    ensures Step(rng, c, Sym(Explode)) == Ok(e.ctx.(stack := e.ctx.stack + [Roll(roll.min, roll.max, Numeric(e.dice), e.value)]))
  {
    assert Pop(c.stack) == (Some(roll), []);
    ExplodeRoll(rng, c.(stack := []), roll, e);
  }

  /** `1d6!` with draws 6, 6, 1 explodes twice: dice 6, 6, 1, value 13, three rolls logged. */
  lemma ExplodingSix(tokens: seq<Token>)
    requires tokens == [Num(1), Num(6), Sym(D), Sym(Explode)]
    ensures Run(SixSixOne, Empty, tokens) == Ok(Empty.(
        stack := [Roll(1, 6, Numeric([6, 6, 1]), 13)],
        rolls := [Die(6, 6), Die(6, 6), Die(1, 6)]))
  {
    var rng := SixSixOne;
    var prefix := tokens[..3];
    assert tokens == prefix + [Sym(Explode)];
    var roll := Roll(1, 6, Numeric([6]), 6);
    var c3 := Empty.(stack := [roll], rolls := [Die(6, 6)]);
    OneD6ShowsSix(rng, prefix);
    assert Maxima([6], 6) == 1;
    var e := ExplodeFrom(rng, c3.(stack := []), 1, 6, [6], 6, 1);
    SixExplodesTwice(rng, c3.(stack := []), e);
    ExplodeStep(rng, c3, roll, e);
    RunSnoc(rng, Empty, prefix, Sym(Explode));
    assert e.ctx.stack + [Roll(1, 6, Numeric([6, 6, 1]), 13)] == [Roll(1, 6, Numeric([6, 6, 1]), 13)];
  }

  /** Face draws 0, 1, 2, 3. */
  const ZeroOneTwoThree := FromDraws([0, 1, 2, 3])

  /** The faces `4swa` shows with face draws 0, 1, 2, 3. */
  const FourSwaFaces: seq<Face> := [[Success], [Advantage], [Success, Advantage], [Success, Success]]

  /** The symbols those faces show, in order. */
  lemma FourSwaEffects(faces: seq<Face>)
    requires faces == FourSwaFaces
    ensures Flatten(faces) == [Success, Advantage, Success, Advantage, Success, Success]
  {
    var tail := faces[1..];
    assert tail[1..] == faces[2..] && faces[2..][1..] == faces[3..] && faces[3..][1..] == [];
    assert Flatten(faces[3..]) == [Success, Success];
    assert Flatten(faces[2..]) == [Success, Advantage] + [Success, Success];
    assert Flatten(tail) == [Advantage] + [Success, Advantage, Success, Success];
  }

  /** Four successes and two advantages. */
  lemma FourSwaTotals(es: seq<Effect>)
    requires es == [Success, Advantage, Success, Advantage, Success, Success]
    ensures Totals(es) == Effect(4, 0, 2)
  {
    var front, back := es[..3], es[3..];
    assert es == front + back;
    TotalsAppend(front, back);
    TotalsOfThree(front);
    TotalsOfThree(back);
  }

  lemma TotalsOfThree(es: seq<Effect>)
    requires |es| == 3
    ensures Totals(es) == Narrative.Add(es[0], Narrative.Add(es[1], Narrative.Add(es[2], NoEffect)))
  {
    assert es[1..][1..] == es[2..] && es[2..][1..] == [];
    assert Totals(es[2..]) == Narrative.Add(es[2], NoEffect);
    assert Totals(es[1..]) == Narrative.Add(es[1], Totals(es[2..]));
  }

  /** Face draws 0, 1, 2, 3 over the eight faces of the ability die. */
  lemma FourSwaDraws(rng: Rng, c: Ctx, indices: seq<int>)
    requires rng == ZeroOneTwoThree && indices == [0, 1, 2, 3] && c.rolls == []
    ensures Rolled(rng, c, 4, 0, 7) == (indices, c.(rolls := DieLog(indices, 8)))
  {
    assert DrawAll(rng, 0, 4, 0, 7) == indices;
    assert c.rolls + DieLog(indices, 8) == DieLog(indices, 8);
  }

  /** The first four faces of the ability die. */
  lemma FourSwaFacesShown(table: seq<Face>, indices: seq<int>)
    requires table == SwaFaces && indices == [0, 1, 2, 3]
    ensures FacesOf(table, indices) == FourSwaFaces
  {
    var faces := FacesOf(table, indices);
    assert faces[0] == [Success] && faces[1] == [Advantage];
    assert faces[2] == [Success, Advantage] && faces[3] == [Success, Success];
  }

  /** The roll `4swa` pushes with face draws 0, 1, 2, 3, and the context after it. */
  const FourSwaRoll := Roll(0, 7, Narrative(FourSwaFaces), 4)
  const FourSwaAfter := Empty.(stack := [FourSwaRoll], rolls := DieLog([0, 1, 2, 3], 8), starwars := FourSwaFaces)

  /** The `swa` operator on a count of 4 with face draws 0, 1, 2, 3. */
  lemma FourSwaOp(rng: Rng, c: Ctx, indices: seq<int>, roll: Value)
    requires rng == ZeroOneTwoThree && indices == [0, 1, 2, 3] && c == Empty && roll == FourSwaRoll
    ensures OpStar(rng, c, Swa, Some(Integer(4))) == Ok((roll, c.(rolls := DieLog(indices, 8), starwars := FourSwaFaces)))
  {
    assert FaceTable(Swa) == SwaFaces && |SwaFaces| == 8;
    assert Clamp(4, 1, 300) == 4;
    FourSwaDraws(rng, c, indices);
    FourSwaFacesShown(SwaFaces, indices);
    FourSwaEffects(FourSwaFaces);
    FourSwaTotals(Flatten(FourSwaFaces));
    assert c.starwars + FourSwaFaces == FourSwaFaces;
  }

  /** The `swa` star step on a count of 4 with face draws 0, 1, 2, 3. */
  lemma FourSwaStep(rng: Rng, c: Ctx, after: Ctx)
    requires rng == ZeroOneTwoThree
    requires c == Empty.(stack := [Integer(4)]) && after == FourSwaAfter
    ensures Step(rng, c, Sym(Star(Swa))) == Ok(after)
  {
    var indices := [0, 1, 2, 3];
    var c1 := Empty.(rolls := DieLog(indices, 8), starwars := FourSwaFaces);
    FourSwaOp(rng, Empty, indices, FourSwaRoll);
    StarStepOk(rng, c, Swa, 4, [], FourSwaRoll, c1);
    assert c1.stack + [FourSwaRoll] == [FourSwaRoll];
  }

  /** A narrative die symbol with a count on top of the stack applies its operator to that count. */
  lemma StarStep(rng: Rng, c: Ctx, die: StarDie, n: int, rest: seq<Value>)
    requires c.stack == rest + [Integer(n)]
    ensures Step(rng, c, Sym(Star(die))) == PushResult(OpStar(rng, c.(stack := rest), die, Some(Integer(n))))
  {
    assert Step(rng, c, Sym(Star(die))) == StepStar(rng, c, die);
    assert Pop(c.stack) == (Some(Integer(n)), rest) by {
      assert c.stack[..|c.stack| - 1] == rest;
    }
  }

  /** When that operator succeeds, the step pushes its roll onto the context it leaves. */
  lemma StarStepOk(rng: Rng, c: Ctx, die: StarDie, n: int, rest: seq<Value>, v: Value, c': Ctx)
    requires c.stack == rest + [Integer(n)]
    requires OpStar(rng, c.(stack := rest), die, Some(Integer(n))) == Ok((v, c'))
    ensures Step(rng, c, Sym(Star(die))) == Ok(c'.(stack := c'.stack + [v]))
  {
    StarStep(rng, c, die, n, rest);
  }

  /** `4swa` with face draws 0, 1, 2, 3 logs four eight-sided dice and their faces. */
  lemma FourSwaRun(tokens: seq<Token>)
    requires tokens == [Num(4), Sym(Star(Swa))]
    ensures Run(ZeroOneTwoThree, Empty, tokens) == Ok(FourSwaAfter)
  {
    var rng := ZeroOneTwoThree;
    var c1 := Empty.(stack := [Integer(4)]);
    assert Run(rng, Empty, tokens[..1]) == Ok(c1) by {
      assert tokens[..1] == [Num(4)] && tokens[..1][1..] == [];
      assert Empty.stack + [Integer(4)] == [Integer(4)];
    }
    FourSwaStep(rng, c1, FourSwaAfter);
    RunSnoc(rng, Empty, tokens[..1], Sym(Star(Swa)));
    assert tokens[..1] + [Sym(Star(Swa))] == tokens;
  }

  /** A face with one named symbol renders as that name in parentheses. */
  lemma RenderSingle(f: Face)
    requires |f| == 1 && |EffectNames(f[0])| == 1
    ensures RenderFace(f) == "(" + EffectNames(f[0])[0] + ")"
  {
    EffectNamesInOrder(f[0]);
  }

  /** A face with two named symbols renders as both names, comma-separated, in parentheses. */
  lemma RenderDouble(f: Face)
    requires |f| == 2 && |EffectNames(f[0])| == 1 && |EffectNames(f[1])| == 1
    ensures RenderFace(f) == "(" + EffectNames(f[0])[0] + ", " + EffectNames(f[1])[0] + ")"
  {
    TwoNames(f);
    NotBlank(f);
    BracketTwo(EffectNames(f[0])[0], EffectNames(f[1])[0]);
  }

  /** The names of a face with two single-named symbols. */
  lemma TwoNames(f: Face)
    requires |f| == 2 && |EffectNames(f[0])| == 1 && |EffectNames(f[1])| == 1
    ensures FaceNames(f) == [EffectNames(f[0])[0], EffectNames(f[1])[0]]
  {
    var x, y := EffectNames(f[0])[0], EffectNames(f[1])[0];
    assert FaceNames(f) == EffectNames(f[0]) + FaceNames(f[1..]);
    assert f[1..] == [f[1]];
    assert EffectNames(f[0]) == [x] && FaceNames(f[1..]) == [y];
  }

  /** A face whose first symbol has a name is not blank. */
  lemma NotBlank(f: Face)
    requires |f| > 0 && |EffectNames(f[0])| > 0
    ensures RenderFace(f) != "(Nothing)"
  {
    EffectNamesInOrder(f[0]);
    assert f[0] != NoEffect;
  }

  /** Two names joined and bracketed. */
  lemma BracketTwo(a: string, b: string)
    ensures "(" + Join([a, b], ", ") + ")" == "(" + a + ", " + b + ")"
  {
    assert [a, b][1..] == [b];
    assert "(" + (a + ", " + b) + ")" == "(" + a + ", " + b + ")";
  }

  lemma JoinFour(parts: seq<string>, sep: string)
    requires |parts| == 4
    ensures Join(parts, sep) == parts[0] + sep + parts[1] + sep + parts[2] + sep + parts[3]
  {
    assert parts[1..][1..] == parts[2..] && parts[2..][1..] == parts[3..];
    assert Join(parts[2..], sep) == parts[2] + sep + parts[3];
    assert Join(parts[1..], sep) == parts[1] + sep + (parts[2] + sep + parts[3]);
  }

  /** Success, and Success with Advantage. */
  lemma SuccessFaces(single: Face, double: Face)
    requires single == [Success] && double == [Success, Advantage]
    ensures RenderFace(single) == "(Success)" && RenderFace(double) == "(Success, Advantage)"
  {
    assert "(" + "Success" + ")" == "(Success)";
    assert "(" + "Success" + ", " + "Advantage" + ")" == "(Success, Advantage)";
    SymbolNames();
    RenderSingle(single);
    RenderDouble(double);
  }

  /** Advantage, and Success twice. */
  lemma OtherFaces(single: Face, double: Face)
    requires single == [Advantage] && double == [Success, Success]
    ensures RenderFace(single) == "(Advantage)" && RenderFace(double) == "(Success, Success)"
  {
    assert "(" + "Advantage" + ")" == "(Advantage)";
    assert "(" + "Success" + ", " + "Success" + ")" == "(Success, Success)";
    SymbolNames();
    RenderSingle(single);
    RenderDouble(double);
  }

  lemma FourSwaRendering(faces: seq<Face>)
    requires faces == FourSwaFaces
    ensures RenderFaces(faces) == "(Success)" + ", " + "(Advantage)" + ", " + "(Success, Advantage)" + ", " + "(Success, Success)"
  {
    SuccessFaces(faces[0], faces[2]);
    OtherFaces(faces[1], faces[3]);
    var parts := seq(|faces|, i requires 0 <= i < |faces| => RenderFace(faces[i]));
    JoinFour(parts, ", ");
  }

  /** The two non-zero dimensions of four successes and two advantages. */
  lemma FourSwaParts(t: Effect)
    requires t == Effect(4, 0, 2)
    ensures Parts(t) == ["4 Successes", "2 Advantages"]
  {
    assert NatToString(4) == "4" && NatToString(2) == "2";
    assert Part(4, "Success", "es", "Failure") == "4" + " " + ("Success" + "es");
    assert Part(2, "Advantage", "s", "Threat") == "2" + " " + ("Advantage" + "s");
    assert "4" + " " + ("Success" + "es") == "4 Successes";
    assert "2" + " " + ("Advantage" + "s") == "2 Advantages";
  }

  lemma FourSwaDescription(t: Effect)
    requires t == Effect(4, 0, 2)
    ensures Describe(t) == "4 Successes" + ", " + "2 Advantages"
  {
    FourSwaParts(t);
    var parts := Parts(t);
    assert parts[1..][1..] == [];
    assert Join(parts, ", ") == parts[0] + ", " + parts[1];
  }

  /**
   * `4swa` with face draws 0, 1, 2, 3 shows Success, Advantage,
   * Success+Advantage and Success+Success: a narrative evaluation worth
   * 4 successes and 2 advantages.
   */
  lemma FourSwa(tokens: seq<Token>)
    requires tokens == [Num(4), Sym(Star(Swa))]
    ensures var r := Run(ZeroOneTwoThree, Empty, tokens);
      && r.Ok?
      && OnlyStarWars(r.value.rolls, r.value.starwars)
      && StarWarsResult(r.value.rolls, r.value.starwars) == Ok(Some(Summary(Effect(4, 0, 2),
           "4 Successes" + ", " + "2 Advantages",
           "(Success)" + ", " + "(Advantage)" + ", " + "(Success, Advantage)" + ", " + "(Success, Success)")))
  {
    FourSwaRun(tokens);
    FourSwaEffects(FourSwaFaces);
    FourSwaTotals(Flatten(FourSwaFaces));
    TotalsAreSums(Flatten(FourSwaFaces));
    FourSwaDescription(Effect(4, 0, 2));
    FourSwaRendering(FourSwaFaces);
  }

  /** The highest of 3 and 5 is 5. */
  lemma HighestOfThreeFive(dice: seq<int>)
    requires dice == [3, 5]
    ensures KeptDice(dice, true, 1) == [5]
  {
    var sorted := [5, 3];
    assert SortedBy(sorted, true);
    assert multiset(sorted) == multiset(dice);
    SortIsCanonical(dice, sorted, true, 1);
  }

  /**
   * The recovery rule for `kh`: with a roll or an integer under a numeric roll
   * on the stack, the lower value is pushed back and the single highest die of
   * the top roll is kept.
   */
  lemma RecoveryStep(rng: Rng, c: Ctx, below: seq<Value>, first: Value, roll: Value, kept: seq<int>)
    requires c.stack == below + [first, roll]
    requires roll.Roll? && roll.dice.Numeric? && roll.dice.nums != []
    requires kept == KeptDice(roll.dice.nums, true, 1)
    ensures Step(rng, c, Sym(Kh)) == Ok(c.(stack := below + [first, Integer(Sum(kept))], kept := c.kept + kept))
  {
    var s := below + [first];
    assert c.stack[..|c.stack| - 1] == s;
    assert SelectOperands(c.stack) == (Some(roll), None, s);
    assert s + [Integer(Sum(kept))] == below + [first, Integer(Sum(kept))];
  }

  /**
   * `1d20 2d6 kh` with draws 17, then 3 and 5: `kh` puts the `1d20` roll back
   * and keeps the 5 of the `2d6`.
   */
  lemma RecoveryKeepsOne(rng: Rng, first: Value, second: Value)
    requires first == Roll(1, 20, Numeric([17]), 17) && second == Roll(1, 6, Numeric([3, 5]), 8)
    ensures Step(rng, Empty.(stack := [first, second]), Sym(Kh))
      == Ok(Empty.(stack := [first, Integer(5)], kept := [5]))
  {
    HighestOfThreeFive(second.dice.nums);
    assert Sum([5]) == 5;
    assert [] + [first, second] == [first, second];
    RecoveryStep(rng, Empty.(stack := [first, second]), [], first, second, [5]);
    assert [] + [first, Integer(5)] == [first, Integer(5)];
    assert Empty.kept + [5] == [5];
  }

  /** `gm` with draw 0 puts "Separate them " in front of the comment. */
  lemma OracleComment()
    ensures var r := Run(FromDraws([0]), Empty.(comment := "to hit"), [Sym(Gm)]);
      r.Ok? && r.value.comment == "Separate them to hit"
  {
    var rng := FromDraws([0]);
    assert DrawAll(rng, 0, 1, 0, 30) == [0];
    var c := Empty.(comment := "to hit");
    assert Step(rng, c, Sym(Gm)).value.comment == "Separate them to hit";
  }
}
