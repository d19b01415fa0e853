/**
 * The `Dice` object: a command, an operand stack and three logs that its
 * methods update in place. Every method is proved to do exactly what the
 * corresponding function of `Operators` and `Evaluator` specifies.
 */
module Machine {
  import opened Values
  import opened Tables
  import opened Narrative
  import opened Operators
  import opened Evaluator

  /** An operator's outcome and the new context are what the specification computes (on failure, only the message is fixed). */
  predicate Agrees(r: Result<Value>, c: Ctx, spec: Result<(Value, Ctx)>) {
    if spec.Ok? then r == Ok(spec.value.0) && c == spec.value.1 else r == Err(spec.error)
  }

  /** A step's outcome and the new context are what the specification computes. */
  predicate Completes(error: Option<string>, c: Ctx, spec: Result<Ctx>) {
    if spec.Ok? then error == None && c == spec.value else error == Some(spec.error)
  }

  class Dice {
    var command: string
    var comment: string
    var stack: seq<Value>
    var rolls: seq<Die>
    var kept: seq<int>
    var starwars: seq<Face>
    const rng: Rng

    /** Everything an evaluation reads and writes, as one value. */
    function State(): Ctx
      reads this
    {
      Ctx(stack, rolls, kept, starwars, comment)
    }

    /** A new evaluator for `command`: empty stack and logs. */
    constructor (command: string, rng: Rng)
      ensures this.command == command && this.rng == rng
      ensures State() == Ctx([], [], [], [], "")
    {
      this.command := command;
      this.rng := rng;
      comment := "";
      stack := [];
      rolls := [];
      kept := [];
      starwars := [];
    }

    /** `roll`: one draw over [min, max], logged with the die's number of sides. */
    method RollDie(min: int, max: int) returns (result: int)
      modifies this
      ensures result == rng(|old(rolls)|, min, max)
      ensures min <= max ==> min <= result <= max
      ensures State() == old(State()).(rolls := old(rolls) + [Die(result, max - min + 1)])
      ensures command == old(command)
    {
      result := rng(|rolls|, min, max);
      rolls := rolls + [Die(result, max - min + 1)];
    }

    /** `_.range(n).map(() => self.roll(min, max))`. */
    method RollDice(n: nat, min: int, max: int) returns (dice: seq<int>)
      modifies this
      ensures (dice, State()) == Rolled(rng, old(State()), n, min, max)
      ensures command == old(command)
    {
      dice := [];
      var i := 0;
      assert rolls + DieLog([], max - min + 1) == rolls;
      while i < n
        invariant 0 <= i <= n
        invariant (dice, State()) == Rolled(rng, old(State()), i, min, max)
        invariant command == old(command)
      {
        RolledOneMore(rng, old(State()), i, min, max);
        var d := RollDie(min, max);
        dice := dice + [d];
        i := i + 1;
      }
    }

    /** `d`. */
    method OperatorD(count: Option<Value>, sides: Option<Value>) returns (r: Value)
      modifies this
      ensures (r, State()) == OpD(rng, old(State()), count, sides)
      ensures command == old(command)
    {
      var n := Clamp(Arg(count, 1), 1, 300);
      var s := Clamp(Arg(sides, 6), 1, 300);
      var dice := RollDice(n, 1, s);
      r := Roll(1, s, Numeric(dice), Sum(dice));
    }

    /** `df`. */
    method OperatorDf(count: Option<Value>) returns (r: Result<Value>)
      modifies this
      ensures Agrees(r, State(), OpDf(rng, old(State()), count))
      ensures command == old(command)
    {
      if count.None? {
        return Err("Cannot read property 'value' of undefined");
      }
      var n := Clamp(count.value.value, 1, 300);
      var dice := RollDice(n, -1, 1);
      r := Ok(Roll(-1, 1, Numeric(dice), Sum(dice)));
    }

    /** `starwars`, behind `swa` ... `sws`. */
    method OperatorStar(die: StarDie, count: Option<Value>) returns (r: Result<Value>)
      modifies this
      ensures Agrees(r, State(), OpStar(rng, old(State()), die, count))
      ensures command == old(command)
    {
      if count.None? {
        return Err("Cannot read property 'value' of undefined");
      }
      var n := Clamp(count.value.value, 1, 300);
      var table := FaceTable(die);
      var indices := RollDice(n, 0, |table| - 1);
      var faces := FacesOf(table, indices);
      var effects := Flatten(faces);
      if effects == [] {
        return Err("Reduce of empty array with no initial value");
      }
      starwars := starwars + faces;
      r := Ok(Roll(0, |table| - 1, Narrative(faces), Totals(effects).value));
    }

    /** `!`: roll one more die per maximum of the last batch, until none or 300 dice. */
    method OperatorExplode(operand: Option<Value>) returns (r: Result<Value>)
      modifies this
      ensures Agrees(r, State(), OpExplode(rng, old(State()), operand))
      ensures command == old(command)
    {
      match operand
      case None =>
        r := Err("Cannot read property 'dice' of undefined");
      case Some(Integer(_)) =>
        r := Err("Cannot read property 'filter' of undefined");
      case Some(Roll(_, _, Narrative(_), _)) =>
        r := Ok(operand.value);
      case Some(Roll(min, max, Numeric(nums), v)) =>
        var dice := nums;
        var value := v;
        var explosions := Maxima(dice, max);
        ghost var goal := ExplodeFrom(rng, old(State()), min, max, nums, v, explosions);
        while explosions > 0 && |dice| < 300
          invariant ExplodeFrom(rng, State(), min, max, dice, value, explosions) == goal
          invariant command == old(command)
          decreases 300 - |dice|
        {
          var extra := RollDice(explosions, min, max);
          value := value + Sum(extra);
          dice := dice + extra;
          explosions := Maxima(extra, max);
        }
        r := Ok(Roll(min, max, Numeric(dice), value));
    }

    /** `kh` (descending) and `kl`: the kept dice are logged before they are summed. */
    method OperatorKeep(descending: bool, roll: Option<Value>, keep: Option<Value>) returns (r: Result<Value>)
      modifies this
      ensures Agrees(r, State(), OpKeep(old(State()), descending, roll, keep))
      ensures command == old(command)
    {
      if !IsNumericRoll(roll) {
        return Err("Cannot read property 'sort' of undefined");
      }
      var sorted := Sort(roll.value.dice.nums, descending);
      var selection := sorted[..SliceEnd(|sorted|, Arg(keep, 1))];
      kept := kept + selection;
      if selection == [] {
        return Err("Reduce of empty array with no initial value");
      }
      r := Ok(Integer(Sum(selection)));
    }

    /** `>` (greater) and `e`: count the matching dice and log them. */
    method OperatorCount(greater: bool, roll: Option<Value>, target: Option<Value>) returns (r: Result<Value>)
      modifies this
      ensures Agrees(r, State(), OpCount(old(State()), greater, roll, target))
      ensures command == old(command)
    {
      if !IsNumericRoll(roll) {
        return Err("Cannot read property 'filter' of undefined");
      }
      if target.None? {
        return Err("Cannot read property 'value' of undefined");
      }
      var selection := Filter(roll.value.dice.nums, greater, target.value.value);
      kept := kept + selection;
      r := Ok(Integer(|selection|));
    }

    /** `gm`, as intended. */
    method OperatorGm() returns (r: Value)
      modifies this
      ensures (r, State()) == OpGm(rng, old(State()))
      ensures command == old(command)
    {
      var dice := RollDice(1, 0, OracleSize - 1);
      var v := dice[0];
      comment := Oracle(v) + " " + comment;
      r := Roll(0, OracleSize - 1, Numeric(dice), v);
    }

    /** `stack.pop()`. */
    method PopOperand() returns (v: Option<Value>)
      modifies this
      ensures (v, stack) == Pop(old(stack))
      ensures State() == old(State()).(stack := stack)
      ensures command == old(command)
    {
      if |stack| == 0 {
        v := None;
      } else {
        v := Some(stack[|stack| - 1]);
        stack := stack[..|stack| - 1];
      }
    }

    method ApplyArith(op: Arith) returns (error: Option<string>)
      modifies this
      ensures Completes(error, State(), StepArith(old(State()), op))
      ensures command == old(command)
    {
      var b := PopOperand();
      var a := PopOperand();
      if a.None? || b.None? {
        return Some("Cannot read property 'value' of undefined");
      }
      stack := stack + [ArithOf(op, a.value, b.value)];
      error := None;
    }

    method ApplyD()
      modifies this
      ensures State() == StepD(rng, old(State()))
      ensures command == old(command)
    {
      var b := PopOperand();
      var a := PopOperand();
      var r := OperatorD(a, b);
      stack := stack + [r];
    }

    /**
     * The operands of a keep or count token: when the top is a roll, the
     * value beneath it goes back on the stack and the roll comes alone.
     */
    method PopSelectOperands() returns (roll: Option<Value>, arg: Option<Value>)
      modifies this
      ensures (roll, arg, stack) == SelectOperands(old(stack))
      ensures State() == old(State()).(stack := stack)
      ensures command == old(command)
    {
      var b := PopOperand();
      var a := PopOperand();
      if a.Some? && b.Some? && b.value.Roll? {
        stack := stack + [a.value];
        roll, arg := b, None;
      } else if a.Some? {
        roll, arg := a, b;
      } else {
        roll, arg := b, None;
      }
    }

    /** The keep and count tokens. */
    method ApplySelect(sel: Selection) returns (error: Option<string>)
      modifies this
      ensures Completes(error, State(), StepSelect(old(State()), sel))
      ensures command == old(command)
    {
      var roll, arg := PopSelectOperands();
      ghost var spec := Select(State(), sel, roll, arg);
      assert StepSelect(old(State()), sel) == PushResult(spec);
      var r: Result<Value>;
      match sel {
        case KeepHighest => r := OperatorKeep(true, roll, arg);
        case KeepLowest => r := OperatorKeep(false, roll, arg);
        case CountAbove => r := OperatorCount(true, roll, arg);
        case CountEqual => r := OperatorCount(false, roll, arg);
      }
      if r.Err? {
        return Some(r.error);
      }
      stack := stack + [r.value];
      error := None;
    }

    method ApplyExplode() returns (error: Option<string>)
      modifies this
      ensures Completes(error, State(), StepExplode(rng, old(State())))
      ensures command == old(command)
    {
      var a := PopOperand();
      var r := OperatorExplode(a);
      if r.Err? {
        return Some(r.error);
      }
      stack := stack + [r.value];
      error := None;
    }

    method ApplyDf() returns (error: Option<string>)
      modifies this
      ensures Completes(error, State(), StepDf(rng, old(State())))
      ensures command == old(command)
    {
      var a := PopOperand();
      var r := OperatorDf(a);
      if r.Err? {
        return Some(r.error);
      }
      stack := stack + [r.value];
      error := None;
    }

    method ApplyStar(die: StarDie) returns (error: Option<string>)
      modifies this
      ensures Completes(error, State(), StepStar(rng, old(State()), die))
      ensures command == old(command)
    {
      var a := PopOperand();
      var r := OperatorStar(die, a);
      if r.Err? {
        return Some(r.error);
      }
      stack := stack + [r.value];
      error := None;
    }

    method ApplyGm()
      modifies this
      ensures State() == StepGm(rng, old(State()))
      ensures command == old(command)
    {
      var r := OperatorGm();
      stack := stack + [r];
    }

    /** One token of the postfix sequence: a literal is pushed, an operator dispatched. */
    method Apply(t: Token) returns (error: Option<string>)
      modifies this
      ensures Completes(error, State(), Step(rng, old(State()), t))
      ensures command == old(command)
    {
      match t
      case Num(n) =>
        stack := stack + [Integer(n)];
        error := None;
      case Sym(op) =>
        match op
        case Plus => error := ApplyArith(Add);
        case Minus => error := ApplyArith(Subtract);
        case Times => error := ApplyArith(Multiply);
        case D =>
          ApplyD();
          error := None;
        case Kh => error := ApplySelect(KeepHighest);
        case K => error := ApplySelect(KeepHighest);
        case B => error := ApplySelect(KeepHighest);
        case Kl => error := ApplySelect(KeepLowest);
        case W => error := ApplySelect(KeepLowest);
        case Greater => error := ApplySelect(CountAbove);
        case Equal => error := ApplySelect(CountEqual);
        case Explode => error := ApplyExplode();
        case Df => error := ApplyDf();
        case Star(die) => error := ApplyStar(die);
        case Gm =>
          ApplyGm();
          error := None;
    }

    /**
     * `execute`: split the comment off the command, then apply the parsed
     * tokens in order; the first failing token aborts the evaluation.
     */
    method Execute(parse: string -> seq<Token>) returns (error: Option<string>)
      modifies this
      ensures command == SplitComment(old(command)).0
      ensures Completes(error, State(), Evaluator.Execute(rng, parse, old(State()), old(command)))
    {
      SplitCommand();
      var tokens := parse(command);
      error := Evaluate(tokens);
    }

    /** Moves everything after the first `;` of the command into the comment. */
    method SplitCommand()
      modifies this
      ensures (command, comment) == SplitComment(old(command))
      ensures State() == old(State()).(comment := comment)
    {
      comment := "";
      var i := IndexOf(command, ';');
      if i >= 0 {
        comment := command[i + 1..];
        command := command[..i];
      }
    }

    /** Applies the tokens in order; the first failing token aborts the evaluation. */
    method Evaluate(tokens: seq<Token>) returns (error: Option<string>)
      modifies this
      ensures command == old(command)
      ensures Completes(error, State(), Run(rng, old(State()), tokens))
    {
      ghost var goal := Run(rng, State(), tokens);
      var j := 0;
      while j < |tokens|
        invariant 0 <= j <= |tokens|
        invariant command == old(command)
        invariant goal == Run(rng, State(), tokens[j..])
      {
        ghost var before := State();
        RunFirst(rng, before, tokens[j..]);
        assert tokens[j..][0] == tokens[j] && tokens[j..][1..] == tokens[j + 1..];
        error := Apply(tokens[j]);
        if error.Some? {
          return;
        }
        j := j + 1;
      }
      error := None;
    }
  }
}
