/**
 * The values a dice evaluation works with: the operand-stack values
 * (`Integer` and `Roll`), the audit log entries, the narrative symbols,
 * the postfix tokens and the injected random source.
 */
module Values {

  datatype Option<+T> = None | Some(value: T)

  /** An evaluation either succeeds or aborts with a message (the source throws). */
  datatype Result<+T> = Ok(value: T) | Err(error: string)

  /** One narrative symbol: its contribution to the three tallied dimensions. */
  datatype Effect = Effect(value: int, consequence: int, sideEffect: int)

  const Advantage := Effect(0, 0, 1)
  const Triumph := Effect(1, 1, 0)
  const Success := Effect(1, 0, 0)
  const Failure := Effect(0, 0, -1)
  const Despair := Effect(-1, -1, 0)
  const Threat := Effect(-1, 0, 0)

  const NoEffect := Effect(0, 0, 0)

  /** What one narrative die shows: zero or more symbols. */
  type Face = seq<Effect>

  /** The dice of a roll: numbers, or the faces of narrative dice. */
  datatype Outcomes = Numeric(nums: seq<int>) | Narrative(faces: seq<Face>)

  /** A value on the operand stack. */
  datatype Value =
    | Integer(value: int)
    | Roll(min: int, max: int, dice: Outcomes, value: int)

  /** One entry of the roll log: what a draw returned and the die's number of sides. */
  datatype Die = Die(result: int, sides: int)

  /** The six narrative dice `swa`, `swd`, `swp`, `swc`, `swb`, `sws`. */
  datatype StarDie = Swa | Swd | Swp | Swc | Swb | Sws

  /**
   * The operator tokens the evaluator dispatches on. `K` and `B` are aliases
   * of `Kh`, `W` of `Kl`; `Greater` is `>` and `Equal` is `e`.
   */
  datatype Op =
    | D | Df | Explode
    | Kh | Kl | K | B | W | Greater | Equal
    | Star(die: StarDie)
    | Gm
    | Plus | Minus | Times

  /** A postfix token: an integer literal or an operator. */
  datatype Token = Num(n: nat) | Sym(op: Op)

  /**
   * The random source. The source calls `rng(min, max)` and trusts the answer
   * to lie in [min, max]; here the n-th call of an evaluation is `rng(n, min, max)`,
   * so a fixed sequence of draws is one particular `Rng`.
   */
  type Rng = f: (nat, int, int) -> int | forall i: nat, lo: int, hi: int :: lo <= hi ==> lo <= f(i, lo, hi) <= hi
    witness (i: nat, lo: int, hi: int) => lo

  /** The random source that answers with the given draws in order (and `min` once they run out). */
  function FromDraws(draws: seq<int>): (rng: Rng)
    ensures forall i: nat, lo: int, hi: int :: i < |draws| && lo <= draws[i] <= hi ==> rng(i, lo, hi) == draws[i]
  {
    (i: nat, lo: int, hi: int) => if i < |draws| && lo <= draws[i] <= hi then draws[i] else lo
  }

  /** `Math.max(Math.min(x, hi), lo)`. */
  function Clamp(x: int, lo: int, hi: int): (r: int)
    requires lo <= hi
    ensures lo <= r <= hi
    ensures lo <= x <= hi ==> r == x
    ensures x > hi ==> r == hi
    ensures x < lo ==> r == lo
  {
    if x > hi then hi else if x < lo then lo else x
  }

  /** The sum of a sequence of dice (`reduce((x, y) => x + y)` on a non-empty array). */
  function Sum(s: seq<int>): (r: int)
    ensures s == [] ==> r == 0
    ensures |s| == 1 ==> r == s[0]
  {
    if s == [] then 0 else s[0] + Sum(s[1..])
  }

  lemma {:induction false} SumAppend(a: seq<int>, b: seq<int>)
    ensures Sum(a + b) == Sum(a) + Sum(b)
  {
    if a != [] {
      assert (a + b)[1..] == a[1..] + b;
      SumAppend(a[1..], b);
    } else {
      assert a + b == b;
    }
  }

  /** Dice that each lie in [lo, hi] sum to between `|s| * lo` and `|s| * hi`. */
  lemma {:induction false} SumBounds(s: seq<int>, lo: int, hi: int)
    requires forall i :: 0 <= i < |s| ==> lo <= s[i] <= hi
    ensures |s| * lo <= Sum(s) <= |s| * hi
  {
    if s != [] {
      SumBounds(s[1..], lo, hi);
      assert |s| * lo == lo + (|s| - 1) * lo && |s| * hi == hi + (|s| - 1) * hi;
    }
  }

}
