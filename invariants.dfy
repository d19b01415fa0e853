/**
 * Properties of the stack machine across tokens and whole runs: each token
 * replaces its operands by exactly one result, the logs only grow, and the
 * narrative classification and summary behave as the evaluator promises.
 */
module Invariants {
  import opened Values
  import opened Narrative
  import opened Operators
  import opened Evaluator

  /** How many stack values a successful token consumes (the recovery rule leaves one behind). */
  function Consumed(stack: seq<Value>, t: Token): nat {
    match t
    case Num(_) => 0
    case Sym(op) =>
      match op
      case Gm => 0
      case Plus | Minus | Times => 2
      case D => if |stack| < 2 then |stack| else 2
      case Kh | Kl | K | B | W | Greater | Equal =>
        if |stack| >= 1 && Last(stack).Roll? then 1 else if |stack| < 2 then |stack| else 2
      case Explode | Df | Star(_) => 1
  }

  /** Every successful token pops its operands and pushes exactly one result. */
  lemma StepPushesOne(rng: Rng, c: Ctx, t: Token)
    requires Step(rng, c, t).Ok?
    ensures Replaces(c, Step(rng, c, t).value, Consumed(c.stack, t))
  {
    match t
    case Num(n) =>
    case Sym(op) =>
      if op.Plus? || op.Minus? || op.Times? {
        ArithStepPushesOne(rng, c, op);
      } else if op.Kh? || op.K? || op.B? || op.Kl? || op.W? || op.Greater? || op.Equal? {
        SelectStepPushesOne(rng, c, op);
      } else if op.Explode? || op.Df? || op.Star? {
        UnaryStepPushesOne(rng, c, op);
      } else if op.D? {
        DPushesOne(rng, c);
      } else {
        GmPushesOne(rng, c);
      }
  }

  /** `c'` holds `c`'s stack minus its top `k` values, plus one value. */
  predicate Replaces(c: Ctx, c': Ctx, k: nat) {
    && k <= |c.stack|
    && |c'.stack| == |c.stack| - k + 1
    && c'.stack[..|c.stack| - k] == c.stack[..|c.stack| - k]
  }

  lemma ArithStepPushesOne(rng: Rng, c: Ctx, op: Op)
    requires op.Plus? || op.Minus? || op.Times?
    requires Step(rng, c, Sym(op)).Ok?
    ensures Replaces(c, Step(rng, c, Sym(op)).value, 2)
  {
    match op
    case Plus =>
      assert Step(rng, c, Sym(op)) == StepArith(c, Add);
      ArithPushesOne(c, Add);
    case Minus =>
      assert Step(rng, c, Sym(op)) == StepArith(c, Subtract);
      ArithPushesOne(c, Subtract);
    case Times =>
      assert Step(rng, c, Sym(op)) == StepArith(c, Multiply);
      ArithPushesOne(c, Multiply);
  }

  lemma SelectStepPushesOne(rng: Rng, c: Ctx, op: Op)
    requires op.Kh? || op.K? || op.B? || op.Kl? || op.W? || op.Greater? || op.Equal?
    requires Step(rng, c, Sym(op)).Ok?
    ensures var n := |c.stack|;
      Replaces(c, Step(rng, c, Sym(op)).value, if n >= 1 && Last(c.stack).Roll? then 1 else if n < 2 then n else 2)
  {
    var sel := if op.Kh? || op.K? || op.B? then KeepHighest else if op.Kl? || op.W? then KeepLowest
      else if op.Greater? then CountAbove else CountEqual;
    assert Step(rng, c, Sym(op)) == StepSelect(c, sel);
    SelectPushesOne(c, sel);
  }

  lemma UnaryStepPushesOne(rng: Rng, c: Ctx, op: Op)
    requires op.Explode? || op.Df? || op.Star?
    requires Step(rng, c, Sym(op)).Ok?
    ensures Replaces(c, Step(rng, c, Sym(op)).value, 1)
  {
    match op
    case Explode => UnaryPushesOne(rng, c, StepExplode(rng, c));
    case Df => UnaryPushesOne(rng, c, StepDf(rng, c));
    case Star(die) => UnaryPushesOne(rng, c, StepStar(rng, c, die));
  }

  lemma GmPushesOne(rng: Rng, c: Ctx)
    ensures Replaces(c, StepGm(rng, c), 0)
  {
    var (v, c1) := OpGm(rng, c);
    assert c1.stack == c.stack;
  }

  lemma ArithPushesOne(c: Ctx, op: Arith)
    requires StepArith(c, op).Ok?
    ensures Replaces(c, StepArith(c, op).value, 2)
  {
    var n := |c.stack|;
    if n >= 2 {
      assert c.stack[..n - 1][..n - 2] == c.stack[..n - 2];
    }
  }

  /** The arithmetic each of `+ - *` performs. */
  function ArithFor(op: Op): Arith
    requires op.Plus? || op.Minus? || op.Times?
  {
    if op.Plus? then Add else if op.Minus? then Subtract else Multiply
  }

  /**
   * `+ - *` fail exactly when fewer than two values are on the stack; otherwise
   * they replace the top two by their sum, difference or product, the deeper
   * operand on the left.
   */
  lemma ArithStep(rng: Rng, c: Ctx, op: Op)
    requires op.Plus? || op.Minus? || op.Times?
    ensures Step(rng, c, Sym(op)).Err? <==> |c.stack| < 2
    ensures |c.stack| >= 2 ==>
      var n := |c.stack|;
      Step(rng, c, Sym(op)) == Ok(c.(stack := c.stack[..n - 2] + [ArithOf(ArithFor(op), c.stack[n - 2], c.stack[n - 1])]))
  {
    StepIsArith(rng, c, op);
    ArithOperands(c, ArithFor(op));
  }

  lemma StepIsArith(rng: Rng, c: Ctx, op: Op)
    requires op.Plus? || op.Minus? || op.Times?
    ensures Step(rng, c, Sym(op)) == StepArith(c, ArithFor(op))
  {
  }

  /** The stack effect of `+ - *`, apart from which operator it is. */
  lemma ArithOperands(c: Ctx, op: Arith)
    ensures StepArith(c, op).Err? <==> |c.stack| < 2
    ensures |c.stack| >= 2 ==>
      var n := |c.stack|;
      StepArith(c, op) == Ok(c.(stack := c.stack[..n - 2] + [ArithOf(op, c.stack[n - 2], c.stack[n - 1])]))
  {
    var n := |c.stack|;
    if n >= 2 {
      assert c.stack[..n - 1][..n - 2] == c.stack[..n - 2];
    }
  }

  lemma DPushesOne(rng: Rng, c: Ctx)
    ensures Replaces(c, StepD(rng, c), if |c.stack| < 2 then |c.stack| else 2)
  {
    var n := |c.stack|;
    var (b, s1) := Pop(c.stack);
    var (a, s2) := Pop(s1);
    var (r, c') := OpD(rng, c.(stack := s2), a, b);
    assert StepD(rng, c).stack == s2 + [r];
    if n >= 2 {
      assert s1 == c.stack[..n - 1];
      assert s2 == c.stack[..n - 1][..n - 2] == c.stack[..n - 2];
    } else {
      assert s2 == [];
    }
  }

  /** The one-operand steps (`!`, `df`, the narrative dice) all pop one value and push one. */
  lemma UnaryPushesOne(rng: Rng, c: Ctx, r: Result<Ctx>)
    requires r.Ok?
    requires r == StepExplode(rng, c) || r == StepDf(rng, c) || exists die :: r == StepStar(rng, c, die)
    ensures Replaces(c, r.value, 1)
  {
  }

  lemma SelectPushesOne(c: Ctx, sel: Selection)
    requires StepSelect(c, sel).Ok?
    ensures var n := |c.stack|;
      Replaces(c, StepSelect(c, sel).value, if n >= 1 && Last(c.stack).Roll? then 1 else if n < 2 then n else 2)
  {
    var n := |c.stack|;
    var (roll, arg, s) := SelectOperands(c.stack);
    if n == 1 && Last(c.stack).Integer? {
      assert s == [];
    }
  }

  /** The logs of `c'` extend those of `c`, and narrative faces never outgrow logged dice. */
  predicate LogsExtend(c: Ctx, c': Ctx) {
    && c.rolls <= c'.rolls
    && c.kept <= c'.kept
    && c.starwars <= c'.starwars
    && |c'.starwars| - |c.starwars| <= |c'.rolls| - |c.rolls|
  }

  predicate IsStar(t: Token) { t.Sym? && t.op.Star? }

  /** Tokens that always roll at least one non-narrative die. */
  predicate RollsNumericDie(t: Token) { t == Sym(D) || t == Sym(Df) || t == Sym(Gm) }

  /**
   * One token only appends to the logs: narrative tokens log exactly one roll
   * per face and at least one symbol; no other token touches the narrative log;
   * `d`, `df` and `gm` always log a numeric die; only `gm` changes the comment.
   */
  lemma StepExtendsLogs(rng: Rng, c: Ctx, t: Token)
    requires Step(rng, c, t).Ok?
    ensures var c' := Step(rng, c, t).value;
      && LogsExtend(c, c')
      && (IsStar(t) ==> |c'.rolls| - |c.rolls| == |c'.starwars| - |c.starwars|
                        && Flatten(c'.starwars[|c.starwars|..]) != [])
      && (!IsStar(t) ==> c'.starwars == c.starwars)
      && (RollsNumericDie(t) ==> |c'.rolls| > |c.rolls|)
      && (t != Sym(Gm) ==> c'.comment == c.comment)
  {
    if IsStar(t) {
      StarExtendsLogs(rng, c, t.op.die);
    } else {
      PlainStepExtendsLogs(rng, c, t);
    }
  }

  lemma StarExtendsLogs(rng: Rng, c: Ctx, die: StarDie)
    requires Step(rng, c, Sym(Star(die))).Ok?
    ensures var c' := Step(rng, c, Sym(Star(die))).value;
      && LogsExtend(c, c')
      && |c'.rolls| - |c.rolls| == |c'.starwars| - |c.starwars|
      && Flatten(c'.starwars[|c.starwars|..]) != []
      && c'.comment == c.comment
  {
    var (a, s) := Pop(c.stack);
    var r := OpStar(rng, c.(stack := s), die, a);
    assert Step(rng, c, Sym(Star(die))) == PushResult(r);
    assert Step(rng, c, Sym(Star(die))).value.starwars[|c.starwars|..] == r.value.0.dice.faces;
  }

  lemma PlainStepExtendsLogs(rng: Rng, c: Ctx, t: Token)
    requires !IsStar(t) && Step(rng, c, t).Ok?
    ensures var c' := Step(rng, c, t).value;
      && LogsExtend(c, c')
      && c'.starwars == c.starwars
      && (RollsNumericDie(t) ==> |c'.rolls| > |c.rolls|)
      && (t != Sym(Gm) ==> c'.comment == c.comment)
  {
    match t
    case Num(_) =>
    case Sym(op) =>
      match op
      case Plus => assert Step(rng, c, t) == StepArith(c, Add);
      case Minus => assert Step(rng, c, t) == StepArith(c, Subtract);
      case Times => assert Step(rng, c, t) == StepArith(c, Multiply);
      case D => RollingLogs(c, StepD(rng, c));
      case Kh => SelectStepLogs(rng, c, t, KeepHighest);
      case K => SelectStepLogs(rng, c, t, KeepHighest);
      case B => SelectStepLogs(rng, c, t, KeepHighest);
      case Kl => SelectStepLogs(rng, c, t, KeepLowest);
      case W => SelectStepLogs(rng, c, t, KeepLowest);
      case Greater => SelectStepLogs(rng, c, t, CountAbove);
      case Equal => SelectStepLogs(rng, c, t, CountEqual);
      case Explode => ExplodeLogs(rng, c);
      case Df => RollingLogs(c, StepDf(rng, c).value);
      case Gm => GmLogs(rng, c);
  }

  lemma SelectStepLogs(rng: Rng, c: Ctx, t: Token, sel: Selection)
    requires Step(rng, c, t) == StepSelect(c, sel) && StepSelect(c, sel).Ok?
    ensures var c' := Step(rng, c, t).value;
      LogsExtend(c, c') && c'.starwars == c.starwars && c'.rolls == c.rolls && c'.comment == c.comment
  {
    SelectOnlyKeeps(c, sel);
  }

  /** The keep and count steps touch only the stack and the kept log, which they extend. */
  lemma SelectOnlyKeeps(c: Ctx, sel: Selection)
    requires StepSelect(c, sel).Ok?
    ensures var c' := StepSelect(c, sel).value;
      c' == c.(stack := c'.stack, kept := c'.kept) && c.kept <= c'.kept
  {
    var (roll, arg, s) := SelectOperands(c.stack);
    match sel
    case KeepHighest =>
    case KeepLowest =>
    case CountAbove =>
    case CountEqual =>
  }

  /** `d` and `df` touch only the stack and the roll log, which they extend by at least one die. */
  lemma RollingLogs(c: Ctx, c': Ctx)
    requires exists rng: Rng :: c' == StepD(rng, c) || (StepDf(rng, c).Ok? && c' == StepDf(rng, c).value)
    ensures c' == c.(stack := c'.stack, rolls := c'.rolls) && c.rolls <= c'.rolls && |c'.rolls| > |c.rolls|
  {
  }

  lemma ExplodeLogs(rng: Rng, c: Ctx)
    requires StepExplode(rng, c).Ok?
    ensures var c' := StepExplode(rng, c).value; c' == c.(stack := c'.stack, rolls := c'.rolls) && c.rolls <= c'.rolls
  {
  }

  lemma GmLogs(rng: Rng, c: Ctx)
    ensures var c' := StepGm(rng, c);
      c' == c.(stack := c'.stack, rolls := c'.rolls, comment := c'.comment) && c.rolls <= c'.rolls && |c'.rolls| > |c.rolls|
  {
  }

  /** A context the evaluator can reach: narrative faces are logged dice, and at least one shows a symbol. */
  predicate Wf(c: Ctx) {
    && |c.starwars| <= |c.rolls|
    && (c.starwars != [] ==> Flatten(c.starwars) != [])
  }

  lemma StepPreservesWf(rng: Rng, c: Ctx, t: Token)
    requires Wf(c) && Step(rng, c, t).Ok?
    ensures Wf(Step(rng, c, t).value)
  {
    var c' := Step(rng, c, t).value;
    StepExtendsLogs(rng, c, t);
    if IsStar(t) {
      var added := c'.starwars[|c.starwars|..];
      assert c'.starwars == c.starwars + added;
      FlattenAppend(c.starwars, added);
    }
  }

  /** Over a whole run the logs only grow, and `Wf` is kept. */
  lemma {:induction false} RunExtendsLogs(rng: Rng, c: Ctx, tokens: seq<Token>)
    requires Run(rng, c, tokens).Ok?
    decreases |tokens|
    ensures LogsExtend(c, Run(rng, c, tokens).value)
    ensures Wf(c) ==> Wf(Run(rng, c, tokens).value)
    ensures (exists i :: 0 <= i < |tokens| && RollsNumericDie(tokens[i])) ==>
      var c' := Run(rng, c, tokens).value;
      |c'.starwars| - |c.starwars| < |c'.rolls| - |c.rolls|
  {
    if tokens != [] {
      var c1 := Step(rng, c, tokens[0]).value;
      StepExtendsLogs(rng, c, tokens[0]);
      if Wf(c) {
        StepPreservesWf(rng, c, tokens[0]);
      }
      RunExtendsLogs(rng, c1, tokens[1..]);
      if exists i :: 0 <= i < |tokens| && RollsNumericDie(tokens[i]) {
        var i :| 0 <= i < |tokens| && RollsNumericDie(tokens[i]);
        if i > 0 {
          assert RollsNumericDie(tokens[1..][i - 1]);
        }
      }
    }
  }

  /**
   * An evaluation that rolls a `d`, `df` or `gm` die is never classified as
   * narrative, whatever the draws.
   */
  lemma NumericDieIsNotNarrative(rng: Rng, c: Ctx, tokens: seq<Token>, i: nat)
    requires c.rolls == [] && c.starwars == []
    requires i < |tokens| && RollsNumericDie(tokens[i])
    requires Run(rng, c, tokens).Ok?
    ensures var c' := Run(rng, c, tokens).value;
      !OnlyStarWars(c'.rolls, c'.starwars)
  {
    assert RollsNumericDie(tokens[i]);
    RunExtendsLogs(rng, c, tokens);
  }

  /**
   * After a successful evaluation the narrative summary never fails: a
   * narrative evaluation logged at least one face, and every narrative
   * operator that succeeded showed at least one symbol.
   */
  lemma SummaryAfterRun(rng: Rng, c: Ctx, tokens: seq<Token>)
    requires Wf(c)
    requires Run(rng, c, tokens).Ok?
    ensures var c' := Run(rng, c, tokens).value;
      StarWarsResult(c'.rolls, c'.starwars).Ok?
  {
    var c' := Run(rng, c, tokens).value;
    RunExtendsLogs(rng, c, tokens);
    FlattenEmpty(c'.starwars);
  }

  /** `k` is `kh`. */
  lemma KIsKh(rng: Rng, c: Ctx)
    ensures Step(rng, c, Sym(K)) == Step(rng, c, Sym(Kh))
  {
    assert Step(rng, c, Sym(K)) == StepSelect(c, KeepHighest);
  }

  /** `b` is `kh`. */
  lemma BIsKh(rng: Rng, c: Ctx)
    ensures Step(rng, c, Sym(B)) == Step(rng, c, Sym(Kh))
  {
    assert Step(rng, c, Sym(B)) == StepSelect(c, KeepHighest);
  }

  /** `w` is `kl`. */
  lemma WIsKl(rng: Rng, c: Ctx)
    ensures Step(rng, c, Sym(W)) == Step(rng, c, Sym(Kl))
  {
    assert Step(rng, c, Sym(W)) == StepSelect(c, KeepLowest);
  }
}
