/**
 * The stack machine: how each postfix token pops its operands (including the
 * operand-recovery rule of the keep and count operators), runs its operator
 * and pushes one result; running a token sequence; splitting off the comment.
 */
module Evaluator {
  import opened Values
  import opened Narrative
  import opened Operators

  /** Removes the top of the stack; popping an empty stack yields nothing (`undefined`). */
  function Pop(stack: seq<Value>): (r: (Option<Value>, seq<Value>))
    ensures |stack| == 0 ==> r == (None, stack)
    ensures |stack| > 0 ==> r.0.Some? && stack == r.1 + [r.0.value]
  {
    if |stack| == 0 then (None, stack) else (Some(stack[|stack| - 1]), stack[..|stack| - 1])
  }

  function Push(c: Ctx, v: Value): Ctx {
    c.(stack := c.stack + [v])
  }

  /** Pushes an operator's result, or passes its failure on. */
  function PushResult(r: Result<(Value, Ctx)>): Result<Ctx> {
    if r.Err? then Err(r.error) else Ok(Push(r.value.1, r.value.0))
  }

  /** `+ - *`: both operands are required. */
  function StepArith(c: Ctx, op: Arith): Result<Ctx> {
    var (b, s1) := Pop(c.stack);
    var (a, s2) := Pop(s1);
    if a.None? || b.None? then Err("Cannot read property 'value' of undefined")
    else Ok(c.(stack := s2 + [ArithOf(op, a.value, b.value)]))
  }

  /** `d`: count and sides are whatever the two pops yield, missing ones defaulted. */
  function StepD(rng: Rng, c: Ctx): Ctx {
    var (b, s1) := Pop(c.stack);
    var (a, s2) := Pop(s1);
    var (r, c') := OpD(rng, c.(stack := s2), a, b);
    Push(c', r)
  }

  function Last(stack: seq<Value>): Value
    requires |stack| > 0
  {
    stack[|stack| - 1]
  }

  /**
   * The operands of a keep or count operator: `b` is popped, then `a`. When
   * `b` is a roll and `a` is a roll or an integer, `a` is pushed back and only
   * `b` is used, so the count is missing. Otherwise the defined operands, in
   * order, are the roll and the count.
   */
  function SelectOperands(stack: seq<Value>): (r: (Option<Value>, Option<Value>, seq<Value>))
    ensures |stack| >= 1 && Last(stack).Roll? ==> r == (Some(Last(stack)), None, stack[..|stack| - 1])
    ensures |stack| >= 2 && Last(stack).Integer? ==> r == (Some(stack[|stack| - 2]), Some(Last(stack)), stack[..|stack| - 2])
    ensures |stack| == 1 && Last(stack).Integer? ==> r == (Some(Last(stack)), None, [])
    ensures |stack| == 0 ==> r == (None, None, [])
  {
    if |stack| == 0 then (None, None, [])
    else
      var b := Last(stack);
      var s1 := stack[..|stack| - 1];
      if |s1| == 0 then (Some(b), None, s1)
      else
        var a := Last(s1);
        var s2 := s1[..|s1| - 1];
        assert s2 == stack[..|stack| - 2] && a == stack[|stack| - 2];
        if (a.Roll? && b.Roll?) || (a.Integer? && b.Roll?) then
          assert s2 + [a] == s1;
          (Some(b), None, s2 + [a])
        else (Some(a), Some(b), s2)
  }

  datatype Selection = KeepHighest | KeepLowest | CountAbove | CountEqual

  function Select(c: Ctx, sel: Selection, roll: Option<Value>, arg: Option<Value>): Result<(Value, Ctx)> {
    match sel
    case KeepHighest => OpKeep(c, true, roll, arg)
    case KeepLowest => OpKeep(c, false, roll, arg)
    case CountAbove => OpCount(c, true, roll, arg)
    case CountEqual => OpCount(c, false, roll, arg)
  }

  function StepSelect(c: Ctx, sel: Selection): Result<Ctx> {
    var (roll, arg, s) := SelectOperands(c.stack);
    PushResult(Select(c.(stack := s), sel, roll, arg))
  }

  function StepExplode(rng: Rng, c: Ctx): Result<Ctx> {
    var (a, s) := Pop(c.stack);
    PushResult(OpExplode(rng, c.(stack := s), a))
  }

  function StepDf(rng: Rng, c: Ctx): Result<Ctx> {
    var (a, s) := Pop(c.stack);
    PushResult(OpDf(rng, c.(stack := s), a))
  }

  function StepStar(rng: Rng, c: Ctx, die: StarDie): Result<Ctx> {
    var (a, s) := Pop(c.stack);
    PushResult(OpStar(rng, c.(stack := s), die, a))
  }

  /** `gm` is dispatched without operands, so its count is always the default 1. */
  function StepGm(rng: Rng, c: Ctx): Ctx {
    var (r, c') := OpGm(rng, c);
    Push(c', r)
  }

  /** One token of the postfix sequence. */
  function Step(rng: Rng, c: Ctx, t: Token): (r: Result<Ctx>)
    ensures t.Num? ==> r == Ok(c.(stack := c.stack + [Integer(t.n)]))
    ensures r.Ok? ==> |r.value.stack| > 0
  {
    match t
    case Num(n) => Ok(Push(c, Integer(n)))
    case Sym(op) =>
      match op
      case Plus => StepArith(c, Add)
      case Minus => StepArith(c, Subtract)
      case Times => StepArith(c, Multiply)
      case D => Ok(StepD(rng, c))
      case Kh => StepSelect(c, KeepHighest)
      case K => StepSelect(c, KeepHighest)
      case B => StepSelect(c, KeepHighest)
      case Kl => StepSelect(c, KeepLowest)
      case W => StepSelect(c, KeepLowest)
      case Greater => StepSelect(c, CountAbove)
      case Equal => StepSelect(c, CountEqual)
      case Explode => StepExplode(rng, c)
      case Df => StepDf(rng, c)
      case Star(die) => StepStar(rng, c, die)
      case Gm => Ok(StepGm(rng, c))
  }

  /** The whole postfix sequence; the first failure aborts the evaluation. */
  function Run(rng: Rng, c: Ctx, tokens: seq<Token>): (r: Result<Ctx>)
    decreases |tokens|
    ensures tokens == [] ==> r == Ok(c)
    ensures |tokens| == 1 ==> r == Step(rng, c, tokens[0])
  {
    if tokens == [] then Ok(c)
    else
      match Step(rng, c, tokens[0])
      case Err(e) => Err(e)
      case Ok(c1) => Run(rng, c1, tokens[1..])
  }

  /** A non-empty run is its first step followed by the run of the rest. */
  lemma RunFirst(rng: Rng, c: Ctx, tokens: seq<Token>)
    requires tokens != []
    ensures Step(rng, c, tokens[0]).Err? ==> Run(rng, c, tokens) == Err(Step(rng, c, tokens[0]).error)
    ensures Step(rng, c, tokens[0]).Ok? ==> Run(rng, c, tokens) == Run(rng, Step(rng, c, tokens[0]).value, tokens[1..])
  {
  }

  /** Running one more token is one more step after the run so far. */
  lemma {:induction false} RunSnoc(rng: Rng, c: Ctx, tokens: seq<Token>, t: Token)
    requires Run(rng, c, tokens).Ok?
    decreases |tokens|
    ensures Run(rng, c, tokens + [t]) == Step(rng, Run(rng, c, tokens).value, t)
  {
    if tokens == [] {
      assert tokens + [t] == [t];
    } else {
      assert (tokens + [t])[0] == tokens[0] && (tokens + [t])[1..] == tokens[1..] + [t];
      RunSnoc(rng, Step(rng, c, tokens[0]).value, tokens[1..], t);
    }
  }

  /** `indexOf`: the first position of `ch`, or -1. */
  function IndexOf(s: string, ch: char): (r: int)
    ensures -1 <= r < |s|
    ensures r == -1 <==> ch !in s
    ensures r >= 0 ==> s[r] == ch && ch !in s[..r]
  {
    if s == [] then -1
    else if s[0] == ch then 0
    else
      var j := IndexOf(s[1..], ch);
      assert s[1..][..if j < 0 then 0 else j] == s[1..if j < 0 then 1 else j + 1];
      if j < 0 then -1 else j + 1
  }

  /**
   * Splits off the comment: with a `;`, the expression is what precedes the
   * first `;` and the comment all that follows it; otherwise the comment is empty.
   */
  function SplitComment(command: string): (r: (string, string))
    ensures ';' !in r.0
    ensures ';' in command ==> command == r.0 + ";" + r.1
    ensures ';' !in command ==> r == (command, "")
  {
    var i := IndexOf(command, ';');
    if i >= 0 then
      assert command == command[..i] + ";" + command[i + 1..];
      (command[..i], command[i + 1..])
    else (command, "")
  }

  /** The first `;` after a `;`-free prefix sits right after that prefix. */
  lemma {:induction false} IndexAfterPrefix(prefix: string, rest: string)
    requires ';' !in prefix
    ensures IndexOf(prefix + ";" + rest, ';') == |prefix|
  {
    var s := prefix + ";" + rest;
    if prefix != [] {
      assert s[0] == prefix[0];
      assert s[1..] == prefix[1..] + ";" + rest;
      IndexAfterPrefix(prefix[1..], rest);
    }
  }

  /** The expression is exactly what precedes the first `;`, and the comment all that follows it. */
  lemma SplitAtFirst(expression: string, rest: string)
    requires ';' !in expression
    ensures SplitComment(expression + ";" + rest) == (expression, rest)
  {
    var s := expression + ";" + rest;
    IndexAfterPrefix(expression, rest);
    assert s[..|expression|] == expression;
    assert s[|expression| + 1..] == rest;
  }

  /** `execute`: split off the comment, then run the parsed expression. */
  function Execute(rng: Rng, parse: string -> seq<Token>, c: Ctx, command: string): (r: Result<Ctx>)
    ensures ';' !in command ==> r == Run(rng, c.(comment := ""), parse(command))
  {
    var (expression, comment) := SplitComment(command);
    Run(rng, c.(comment := comment), parse(expression))
  }

  /** `expression;comment` runs the parsed expression with the comment set to everything after the first `;`. */
  lemma ExecuteSplits(rng: Rng, parse: string -> seq<Token>, c: Ctx, expression: string, comment: string)
    requires ';' !in expression
    ensures Execute(rng, parse, c, expression + ";" + comment) == Run(rng, c.(comment := comment), parse(expression))
  {
    SplitAtFirst(expression, comment);
  }

  /** `result`: the numeric value at the bottom of the stack. */
  function FinalValue(stack: seq<Value>): (r: Result<int>)
    ensures r.Ok? <==> |stack| > 0
    ensures r.Ok? ==> r.value == stack[0].value
  {
    if |stack| == 0 then Err("Cannot read property 'value' of undefined") else Ok(stack[0].value)
  }
}
