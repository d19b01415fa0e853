/**
 * The operator library as functions of the evaluation context: what each
 * operator computes, which draws it makes and how it extends the logs.
 * The `Dice` class runs these step by step; here they are the specification.
 */
module Operators {
  import opened Values
  import opened Tables
  import opened Narrative

  /** The evaluation context: the operand stack, the three logs and the comment. */
  datatype Ctx = Ctx(stack: seq<Value>, rolls: seq<Die>, kept: seq<int>, starwars: seq<Face>, comment: string)

  /** The results of `n` consecutive draws over [lo, hi], the first being draw number `start`. */
  function DrawAll(rng: Rng, start: nat, n: nat, lo: int, hi: int): (r: seq<int>)
    ensures |r| == n
    ensures forall j :: 0 <= j < n ==> r[j] == rng(start + j, lo, hi)
    ensures lo <= hi ==> forall j :: 0 <= j < n ==> lo <= r[j] <= hi
  {
    seq(n, j requires 0 <= j < n => rng(start + j, lo, hi))
  }

  lemma {:induction false} DrawAllSplit(rng: Rng, start: nat, n: nat, lo: int, hi: int)
    requires n > 0
    ensures DrawAll(rng, start, n, lo, hi) == DrawAll(rng, start, n - 1, lo, hi) + [rng(start + n - 1, lo, hi)]
  {
  }

  /** The roll-log entries of a batch of draws over a die with `sides` sides. */
  function DieLog(results: seq<int>, sides: int): (log: seq<Die>)
    ensures |log| == |results|
    ensures forall j :: 0 <= j < |log| ==> log[j] == Die(results[j], sides)
  {
    seq(|results|, j requires 0 <= j < |results| => Die(results[j], sides))
  }

  lemma DieLogAppend(a: seq<int>, b: seq<int>, sides: int)
    ensures DieLog(a + b, sides) == DieLog(a, sides) + DieLog(b, sides)
  {
  }

  /** Rolling `n` dice over [lo, hi]: the results, and the context with the roll log extended by them. */
  function Rolled(rng: Rng, c: Ctx, n: nat, lo: int, hi: int): (r: (seq<int>, Ctx))
    ensures |r.0| == n
    ensures forall j :: 0 <= j < n ==> r.0[j] == rng(|c.rolls| + j, lo, hi)
    ensures lo <= hi ==> forall j :: 0 <= j < n ==> lo <= r.0[j] <= hi
    ensures r.1 == c.(rolls := c.rolls + DieLog(r.0, hi - lo + 1))
  {
    var dice := DrawAll(rng, |c.rolls|, n, lo, hi);
    (dice, c.(rolls := c.rolls + DieLog(dice, hi - lo + 1)))
  }

  /** Rolling one die more draws at the next call index and appends one log entry. */
  lemma RolledOneMore(rng: Rng, c: Ctx, n: nat, lo: int, hi: int)
    ensures var (dice, c1) := Rolled(rng, c, n, lo, hi); var d := rng(|c.rolls| + n, lo, hi);
      && |c1.rolls| == |c.rolls| + n
      && Rolled(rng, c, n + 1, lo, hi) == (dice + [d], c1.(rolls := c1.rolls + [Die(d, hi - lo + 1)]))
  {
    var (dice, c1) := Rolled(rng, c, n, lo, hi);
    var d := rng(|c.rolls| + n, lo, hi);
    DrawAllSplit(rng, |c.rolls|, n + 1, lo, hi);
    DieLogAppend(dice, [d], hi - lo + 1);
    assert DieLog([d], hi - lo + 1) == [Die(d, hi - lo + 1)];
    assert c.rolls + DieLog(dice + [d], hi - lo + 1) == c1.rolls + [Die(d, hi - lo + 1)];
  }

  /** The numeric value of an optional operand, or the default when it is missing. */
  function Arg(operand: Option<Value>, default: int): int {
    if operand.Some? then operand.value.value else default
  }

  /** `d`: `count` dice with `sides` sides; a missing count is 1, missing sides are 6, both clamped to [1, 300]. */
  function OpD(rng: Rng, c: Ctx, count: Option<Value>, sides: Option<Value>): (r: (Value, Ctx))
    ensures var n := Clamp(Arg(count, 1), 1, 300); var s := Clamp(Arg(sides, 6), 1, 300);
      && r.0.Roll? && r.0.min == 1 && r.0.max == s && r.0.dice.Numeric?
      && |r.0.dice.nums| == n
      && (forall j :: 0 <= j < n ==> r.0.dice.nums[j] == rng(|c.rolls| + j, 1, s))
      && (forall x :: x in r.0.dice.nums ==> 1 <= x <= s)
      && r.0.value == Sum(r.0.dice.nums)
      && r.1 == c.(rolls := c.rolls + DieLog(r.0.dice.nums, s))
  {
    var n := Clamp(Arg(count, 1), 1, 300);
    var s := Clamp(Arg(sides, 6), 1, 300);
    var (dice, c') := Rolled(rng, c, n, 1, s);
    (Roll(1, s, Numeric(dice), Sum(dice)), c')
  }
  /** A `d` roll of `n` dice with `s` sides is worth between `n` and `n * s`. */
  lemma DValueBounds(rng: Rng, c: Ctx, count: Option<Value>, sides: Option<Value>)
    ensures var n := Clamp(Arg(count, 1), 1, 300); var s := Clamp(Arg(sides, 6), 1, 300);
      n <= OpD(rng, c, count, sides).0.value <= n * s
  {
    var n := Clamp(Arg(count, 1), 1, 300); var s := Clamp(Arg(sides, 6), 1, 300);
    var v := OpD(rng, c, count, sides).0;
    assert forall i :: 0 <= i < |v.dice.nums| ==> 1 <= v.dice.nums[i] <= s by {
      forall i | 0 <= i < |v.dice.nums| ensures 1 <= v.dice.nums[i] <= s {
        assert v.dice.nums[i] in v.dice.nums;
      }
    }
    SumBounds(v.dice.nums, 1, s);
  }


  /** `df`: `count` fudge dice over [-1, 1]; the count is clamped to [1, 300] and must be present. */
  function OpDf(rng: Rng, c: Ctx, count: Option<Value>): (r: Result<(Value, Ctx)>)
    ensures r.Err? <==> count.None?
    ensures r.Ok? ==>
      var n := Clamp(count.value.value, 1, 300); var v := r.value.0;
      && v.Roll? && v.min == -1 && v.max == 1 && v.dice.Numeric?
      && |v.dice.nums| == n
      && (forall j :: 0 <= j < n ==> v.dice.nums[j] == rng(|c.rolls| + j, -1, 1))
      && (forall x :: x in v.dice.nums ==> -1 <= x <= 1)
      && v.value == Sum(v.dice.nums)
      && r.value.1 == c.(rolls := c.rolls + DieLog(v.dice.nums, 3))
  {
    if count.None? then Err("Cannot read property 'value' of undefined")
    else
      var n := Clamp(count.value.value, 1, 300);
      var (dice, c') := Rolled(rng, c, n, -1, 1);
      Ok((Roll(-1, 1, Numeric(dice), Sum(dice)), c'))
  }

  /** The faces shown by drawn face numbers of one narrative die. */
  function FacesOf(table: seq<Face>, indices: seq<int>): (faces: seq<Face>)
    requires forall j :: 0 <= j < |indices| ==> 0 <= indices[j] < |table|
    ensures |faces| == |indices|
    ensures forall j :: 0 <= j < |faces| ==> faces[j] == table[indices[j]]
  {
    seq(|indices|, j requires 0 <= j < |indices| => table[indices[j]])
  }

  /**
   * `swa` ... `sws`: `count` narrative dice (clamped to [1, 300]); each draws a
   * face number over the die's table. The roll's value is the summed `value`
   * dimension of all symbols shown; when no face shows a symbol the source
   * reduces an empty array and fails.
   */
  function OpStar(rng: Rng, c: Ctx, die: StarDie, count: Option<Value>): (r: Result<(Value, Ctx)>)
    ensures r.Err? <==> (count.None? ||
      var n := Clamp(count.value.value, 1, 300); var t := FaceTable(die);
      var draws := DrawAll(rng, |c.rolls|, n, 0, |t| - 1);
      forall j :: 0 <= j < n ==> t[draws[j]] == [])
    ensures r.Ok? ==>
      var n := Clamp(count.value.value, 1, 300); var t := FaceTable(die);
      var v := r.value.0; var c' := r.value.1;
      && v.Roll? && v.min == 0 && v.max == |t| - 1 && v.dice.Narrative?
      && |v.dice.faces| == n
      && (forall j :: 0 <= j < n ==> v.dice.faces[j] == t[rng(|c.rolls| + j, 0, |t| - 1)])
      && v.value == Totals(Flatten(v.dice.faces)).value
      && Flatten(v.dice.faces) != []
      && c' == c.(rolls := c.rolls + DieLog(DrawAll(rng, |c.rolls|, n, 0, |t| - 1), |t|),
                  starwars := c.starwars + v.dice.faces)
  {
    if count.None? then Err("Cannot read property 'value' of undefined")
    else
      var n := Clamp(count.value.value, 1, 300);
      var table := FaceTable(die);
      var (indices, c1) := Rolled(rng, c, n, 0, |table| - 1);
      var faces := FacesOf(table, indices);
      var effects := Flatten(faces);
      FlattenEmpty(faces);
      if effects == [] then Err("Reduce of empty array with no initial value")
      else Ok((Roll(0, |table| - 1, Narrative(faces), Totals(effects).value), c1.(starwars := c1.starwars + faces)))
  }

  /** `die > target` for `>`, `die === target` for `e`. */
  predicate Matches(die: int, greater: bool, target: int) {
    if greater then die > target else die == target
  }

  /** The dice that match, in roll order (`dice.filter(...)`). */
  function Filter(s: seq<int>, greater: bool, target: int): (r: seq<int>)
    ensures |r| <= |s|
    ensures forall x :: multiset(r)[x] == if Matches(x, greater, target) then multiset(s)[x] else 0
  {
    if s == [] then []
    else
      var rest := Filter(s[1..], greater, target);
      assert s == [s[0]] + s[1..];
      if Matches(s[0], greater, target) then [s[0]] + rest else rest
  }

  /** Filtering keeps roll order: it distributes over concatenation. */
  lemma {:induction false} FilterAppend(a: seq<int>, b: seq<int>, greater: bool, target: int)
    ensures Filter(a + b, greater, target) == Filter(a, greater, target) + Filter(b, greater, target)
  {
    if a == [] {
      assert a + b == b;
    } else {
      assert (a + b)[1..] == a[1..] + b;
      FilterAppend(a[1..], b, greater, target);
    }
  }

  /** The result of an explosion: the dice, the value, and the maxima of the last batch still pending. */
  datatype Explosion = Explosion(dice: seq<int>, value: int, pending: nat, ctx: Ctx)

  /**
   * The explosion loop: while some die of the last batch showed `max` and the
   * roll has fewer than 300 dice, roll that many more and add them.
   */
  function ExplodeFrom(rng: Rng, c: Ctx, min: int, max: int, dice: seq<int>, value: int, explosions: nat): (r: Explosion)
    decreases 300 - |dice|
    ensures r.pending == 0 || |r.dice| >= 300
  {
    if explosions > 0 && |dice| < 300 then
      var (extra, c1) := Rolled(rng, c, explosions, min, max);
      ExplodeFrom(rng, c1, min, max, dice + extra, value + Sum(extra), Maxima(extra, max))
    else
      Explosion(dice, value, explosions, c)
  }

  /**
   * `r` extends the dice `dice` totalling `value` in context `c`: the
   * original dice are a prefix, the value grows by exactly the added dice
   * and the roll log grows by exactly those dice.
   */
  predicate Appended(c: Ctx, dice: seq<int>, value: int, r: Explosion, sides: int) {
    && dice <= r.dice
    && r.value == value + Sum(r.dice[|dice|..])
    && r.ctx == c.(rolls := c.rolls + DieLog(r.dice[|dice|..], sides))
  }

  /** The explosion loop only appends. */
  lemma {:induction false} ExplodeAppends(rng: Rng, c: Ctx, min: int, max: int, dice: seq<int>, value: int, explosions: nat)
    decreases 300 - |dice|
    ensures Appended(c, dice, value, ExplodeFrom(rng, c, min, max, dice, value, explosions), max - min + 1)
  {
    if explosions > 0 && |dice| < 300 {
      var (extra, c1) := Rolled(rng, c, explosions, min, max);
      ExplodeOnce(rng, c, min, max, dice, value, explosions);
      ExplodeAppends(rng, c1, min, max, dice + extra, value + Sum(extra), Maxima(extra, max));
      var r := ExplodeFrom(rng, c1, min, max, dice + extra, value + Sum(extra), Maxima(extra, max));
      BatchAppended(c, c1, dice, extra, value, r, max - min + 1);
    } else {
      var r := ExplodeFrom(rng, c, min, max, dice, value, explosions);
      assert r.dice[|dice|..] == [];
    }
  }

  /** Appending one batch of dice and then the rest is appending both at once. */
  lemma BatchAppended(c: Ctx, c1: Ctx, dice: seq<int>, extra: seq<int>, value: int, r: Explosion, sides: int)
    requires c1 == c.(rolls := c.rolls + DieLog(extra, sides))
    requires Appended(c1, dice + extra, value + Sum(extra), r, sides)
    ensures Appended(c, dice, value, r, sides)
  {
    BatchesCombine(c.rolls, dice, extra, r.dice, sides);
  }

  /** One round of the explosion loop. */
  lemma ExplodeOnce(rng: Rng, c: Ctx, min: int, max: int, dice: seq<int>, value: int, explosions: nat)
    requires explosions > 0 && |dice| < 300
    ensures var (extra, c1) := Rolled(rng, c, explosions, min, max);
      ExplodeFrom(rng, c, min, max, dice, value, explosions)
        == ExplodeFrom(rng, c1, min, max, dice + extra, value + Sum(extra), Maxima(extra, max))
  {
  }

  /** A batch appended after `dice`, then more dice: sums and logs add up. */
  lemma BatchesCombine(rolls: seq<Die>, dice: seq<int>, extra: seq<int>, all: seq<int>, sides: int)
    requires dice + extra <= all
    ensures dice <= all
    ensures Sum(all[|dice|..]) == Sum(extra) + Sum(all[|dice + extra|..])
    ensures rolls + DieLog(extra, sides) + DieLog(all[|dice + extra|..], sides) == rolls + DieLog(all[|dice|..], sides)
  {
    var later := all[|dice + extra|..];
    assert all[|dice|..] == extra + later;
    SumAppend(extra, later);
    DieLogAppend(extra, later, sides);
  }

  /**
   * The explosion loop stops with either no maximum in the last batch or at
   * least 300 dice. Each batch is at most as large as the one before, so it
   * stops before 300 plus the first batch.
   */
  lemma {:induction false} ExplodeStops(rng: Rng, c: Ctx, min: int, max: int, dice: seq<int>, value: int, explosions: nat)
    decreases 300 - |dice|
    ensures var r := ExplodeFrom(rng, c, min, max, dice, value, explosions);
      && (r.pending == 0 || |r.dice| >= 300)
      && (|dice| >= 300 || explosions == 0 ==> r.dice == dice)
      && (|dice| < 300 ==> |r.dice| < 300 + explosions)
  {
    if explosions > 0 && |dice| < 300 {
      var (extra, c1) := Rolled(rng, c, explosions, min, max);
      ExplodeStops(rng, c1, min, max, dice + extra, value + Sum(extra), Maxima(extra, max));
    }
  }

  /** Every added die lies in [min, max]. */
  lemma {:induction false} ExplodeInRange(rng: Rng, c: Ctx, min: int, max: int, dice: seq<int>, value: int, explosions: nat)
    requires min <= max
    decreases 300 - |dice|
    ensures var r := ExplodeFrom(rng, c, min, max, dice, value, explosions);
      forall j :: |dice| <= j < |r.dice| ==> min <= r.dice[j] <= max
  {
    if explosions > 0 && |dice| < 300 {
      var (extra, c1) := Rolled(rng, c, explosions, min, max);
      ExplodeOnce(rng, c, min, max, dice, value, explosions);
      ExplodeInRange(rng, c1, min, max, dice + extra, value + Sum(extra), Maxima(extra, max));
      ExplodeAppends(rng, c1, min, max, dice + extra, value + Sum(extra), Maxima(extra, max));
      var r := ExplodeFrom(rng, c1, min, max, dice + extra, value + Sum(extra), Maxima(extra, max));
      assert dice + extra <= r.dice;
      forall j | |dice| <= j < |dice + extra|
        ensures min <= r.dice[j] <= max
      {
        assert r.dice[j] == (dice + extra)[j] == extra[j - |dice|];
      }
    }
  }

  /** The number of dice equal to `max`. */
  function Maxima(dice: seq<int>, max: int): (n: nat)
    ensures n <= |dice|
  {
    if dice == [] then 0 else (if dice[0] == max then 1 else 0) + Maxima(dice[1..], max)
  }

  lemma {:induction false} MaximaIsFilter(dice: seq<int>, max: int)
    ensures Maxima(dice, max) == |Filter(dice, false, max)|
  {
    if dice != [] {
      MaximaIsFilter(dice[1..], max);
    }
  }

  /**
   * `!`: explodes a numeric roll. Applied to an integer or to nothing it fails;
   * a narrative roll has no face equal to its `max`, so it comes back unchanged.
   */
  function OpExplode(rng: Rng, c: Ctx, operand: Option<Value>): (r: Result<(Value, Ctx)>)
    ensures r.Err? <==> operand.None? || operand.value.Integer?
    ensures r.Ok? && operand.value.dice.Narrative? ==> r.value == (operand.value, c)
    ensures r.Ok? && operand.value.dice.Numeric? ==>
      var before := operand.value; var v := r.value.0;
      && v.Roll? && v.min == before.min && v.max == before.max && v.dice.Numeric?
      && before.dice.nums <= v.dice.nums
      && v.value == before.value + Sum(v.dice.nums[|before.dice.nums|..])
      && r.value.1 == c.(rolls := c.rolls + DieLog(v.dice.nums[|before.dice.nums|..], before.max - before.min + 1))
  {
    match operand
    case None => Err("Cannot read property 'dice' of undefined")
    case Some(Integer(_)) => Err("Cannot read property 'filter' of undefined")
    case Some(Roll(min, max, Narrative(_), _)) => Ok((operand.value, c))
    case Some(Roll(min, max, Numeric(dice), value)) =>
      var e := ExplodeFrom(rng, c, min, max, dice, value, Maxima(dice, max));
      ExplodeAppends(rng, c, min, max, dice, value, Maxima(dice, max));
      Ok((Roll(min, max, Numeric(e.dice), e.value), e.ctx))
  }
  /** While the roll has fewer than 300 dice, every pending maximum adds at least one die. */
  lemma ExplodeGrows(rng: Rng, c: Ctx, min: int, max: int, dice: seq<int>, value: int, explosions: nat)
    requires |dice| < 300
    ensures |ExplodeFrom(rng, c, min, max, dice, value, explosions).dice| >= |dice| + explosions
  {
    if explosions > 0 {
      var (extra, c1) := Rolled(rng, c, explosions, min, max);
      ExplodeOnce(rng, c, min, max, dice, value, explosions);
      ExplodeAppends(rng, c1, min, max, dice + extra, value + Sum(extra), Maxima(extra, max));
    }
  }

  /**
   * `!` on a numeric roll runs the loop from the roll's own maxima: below
   * 300 dice the roll gains at least one die per maximum; the loop stops only
   * once its last batch shows no maximum or the roll has 300 dice; a roll
   * with no maximum comes back unchanged.
   */
  lemma ExplodeExits(rng: Rng, c: Ctx, roll: Value)
    requires roll.Roll? && roll.dice.Numeric?
    ensures var dice := roll.dice.nums; var k := Maxima(dice, roll.max);
      var e := ExplodeFrom(rng, c, roll.min, roll.max, dice, roll.value, k);
      var r := OpExplode(rng, c, Some(roll));
      && r.Ok? && r.value.0.dice == Numeric(e.dice)
      && (e.pending == 0 || |e.dice| >= 300)
      && (|dice| < 300 ==> |r.value.0.dice.nums| >= |dice| + k)
      && (k == 0 ==> r.value == (roll, c))
  {
    var dice := roll.dice.nums;
    if |dice| < 300 {
      ExplodeGrows(rng, c, roll.min, roll.max, dice, roll.value, Maxima(dice, roll.max));
    }
  }


  /** `x` may come before `y`: descending for keep-high, ascending for keep-low. */
  predicate Ordered(x: int, y: int, descending: bool) {
    if descending then x >= y else x <= y
  }

  predicate SortedBy(s: seq<int>, descending: bool) {
    forall i, j :: 0 <= i < j < |s| ==> Ordered(s[i], s[j], descending)
  }

  function Insert(x: int, s: seq<int>, descending: bool): (r: seq<int>)
  {
    if s == [] || Ordered(x, s[0], descending) then [x] + s else [s[0]] + Insert(x, s[1..], descending)
  }

  /** Inserting adds exactly `x`. */
  lemma {:induction false} InsertPermutes(x: int, s: seq<int>, descending: bool)
    ensures multiset(Insert(x, s, descending)) == multiset(s) + multiset{x}
    ensures |Insert(x, s, descending)| == |s| + 1
  {
    if s != [] && !Ordered(x, s[0], descending) {
      InsertPermutes(x, s[1..], descending);
      assert s == [s[0]] + s[1..];
    }
  }

  /** Inserting into a sorted sequence keeps it sorted. */
  lemma {:induction false} InsertSorted(x: int, s: seq<int>, descending: bool)
    requires SortedBy(s, descending)
    ensures SortedBy(Insert(x, s, descending), descending)
  {
    if s != [] && !Ordered(x, s[0], descending) {
      var rest := Insert(x, s[1..], descending);
      InsertSorted(x, s[1..], descending);
      InsertPermutes(x, s[1..], descending);
      var r := [s[0]] + rest;
      forall j | 0 <= j < |rest|
        ensures Ordered(s[0], rest[j], descending)
      {
        assert rest[j] in multiset(rest);
        if rest[j] != x {
          assert rest[j] in multiset(s[1..]);
          var k :| 0 <= k < |s[1..]| && s[1..][k] == rest[j];
          assert s[k + 1] == rest[j];
        }
      }
      forall i, j | 0 <= i < j < |r|
        ensures Ordered(r[i], r[j], descending)
      {
        if i > 0 {
          assert r[i] == rest[i - 1] && r[j] == rest[j - 1];
        } else {
          assert r[j] == rest[j - 1];
        }
      }
    }
  }

  /** `dice.sort(...)` with a true descending or ascending comparison. */
  function Sort(s: seq<int>, descending: bool): (r: seq<int>)
    ensures |r| == |s|
    ensures multiset(r) == multiset(s)
    ensures SortedBy(r, descending)
  {
    if s == [] then []
    else
      assert s == [s[0]] + s[1..];
      var rest := Sort(s[1..], descending);
      InsertPermutes(s[0], rest, descending);
      InsertSorted(s[0], rest, descending);
      Insert(s[0], rest, descending)
  }

  /** The head of a sorted sequence comes before every other element. */
  lemma SortedHead(s: seq<int>, descending: bool, x: int)
    requires SortedBy(s, descending) && x in s
    ensures s[0] == x || Ordered(s[0], x, descending)
  {
    var k :| 0 <= k < |s| && s[k] == x;
  }

  lemma SortedTail(s: seq<int>, descending: bool)
    requires SortedBy(s, descending) && s != []
    ensures SortedBy(s[1..], descending)
  {
    forall i, j | 0 <= i < j < |s[1..]|
      ensures Ordered(s[1..][i], s[1..][j], descending)
    {
      assert s[1..][i] == s[i + 1] && s[1..][j] == s[j + 1];
    }
  }

  /** Two sorted arrangements of the same dice are the same sequence. */
  lemma {:induction false} SortedUnique(a: seq<int>, b: seq<int>, descending: bool)
    requires SortedBy(a, descending) && SortedBy(b, descending)
    requires multiset(a) == multiset(b)
    decreases |a|
    ensures a == b
  {
    assert |a| == |multiset(a)| == |multiset(b)| == |b|;
    if a != [] {
      SortedHeadsAgree(a, b, descending);
      SortedTail(a, descending);
      SortedTail(b, descending);
      SortedUnique(a[1..], b[1..], descending);
      assert a == [a[0]] + a[1..] && b == [b[0]] + b[1..];
    }
  }

  /** Two sorted arrangements of the same non-empty dice start alike and continue with the same dice. */
  lemma SortedHeadsAgree(a: seq<int>, b: seq<int>, descending: bool)
    requires SortedBy(a, descending) && SortedBy(b, descending)
    requires multiset(a) == multiset(b) && a != []
    ensures b != [] && a[0] == b[0] && multiset(a[1..]) == multiset(b[1..])
  {
    assert |b| == |multiset(b)| == |multiset(a)| == |a|;
    assert a == [a[0]] + a[1..];
    assert a[0] in multiset(b);
    assert b == [b[0]] + b[1..];
    assert b[0] in multiset(a);
    SortedHead(b, descending, a[0]);
    SortedHead(a, descending, b[0]);
    assert multiset(a) == multiset{a[0]} + multiset(a[1..]);
    assert multiset(b) == multiset{b[0]} + multiset(b[1..]);
    assert a[0] == b[0];
    assert multiset(a[1..]) == multiset(a) - multiset{a[0]} == multiset(b) - multiset{b[0]} == multiset(b[1..]);
  }

  /**
   * The sort is determined by the dice alone: any sorted permutation of the
   * roll is its sort, so what `kh` / `kl` keep does not depend on the order
   * the dice were drawn in.
   */
  lemma SortIsCanonical(dice: seq<int>, other: seq<int>, descending: bool, k: int)
    requires multiset(other) == multiset(dice)
    ensures SortedBy(other, descending) ==> Sort(dice, descending) == other
    ensures KeptDice(other, descending, k) == KeptDice(dice, descending, k)
  {
    SortedUnique(Sort(dice, descending), Sort(other, descending), descending);
    if SortedBy(other, descending) {
      SortedUnique(Sort(dice, descending), other, descending);
    }
    assert |other| == |multiset(other)| == |dice|;
  }

  /** The end index `slice(0, k)` uses on an array of length `len`. */
  function SliceEnd(len: nat, k: int): (e: nat)
    ensures e <= len
    ensures 0 <= k ==> e == if k < len then k else len
    ensures k < 0 ==> e == if len + k > 0 then len + k else 0
  {
    if k < 0 then (if len + k > 0 then len + k else 0) else if k < len then k else len
  }

  /** The dice kept by `kh` (descending) or `kl` (ascending) when `k` are asked for. */
  function KeptDice(dice: seq<int>, descending: bool, k: int): (r: seq<int>)
    ensures |r| == SliceEnd(|dice|, k)
    ensures SortedBy(r, descending)
  {
    Sort(dice, descending)[..SliceEnd(|dice|, k)]
  }

  /**
   * The kept dice and the rest partition the roll, and every kept die is at
   * least (keep-high) or at most (keep-low) every die left out.
   */
  lemma KeptAreExtremes(dice: seq<int>, descending: bool, k: int)
    ensures var kept := KeptDice(dice, descending, k); var rest := Sort(dice, descending)[|kept|..];
      && |kept| == SliceEnd(|dice|, k)
      && multiset(kept) + multiset(rest) == multiset(dice)
      && SortedBy(kept, descending)
      && forall i, j :: 0 <= i < |kept| && 0 <= j < |rest| ==> Ordered(kept[i], rest[j], descending)
  {
    var t := Sort(dice, descending);
    var e := SliceEnd(|dice|, k);
    assert t == t[..e] + t[e..];
    forall i, j | 0 <= i < e && 0 <= j < |t| - e
      ensures Ordered(t[..e][i], t[e..][j], descending)
    {
      assert t[..e][i] == t[i] && t[e..][j] == t[e + j];
    }
  }

  /** The keep operators take a numeric roll; anything else has no sortable dice. */
  predicate IsNumericRoll(operand: Option<Value>) {
    operand.Some? && operand.value.Roll? && operand.value.dice.Numeric?
  }

  /**
   * `kh` / `kl`: keep the `keep` highest (lowest) dice, 1 when no count is
   * given, and sum them. The kept dice are appended to the kept log; an empty
   * selection fails because the source reduces it without a seed.
   */
  function OpKeep(c: Ctx, descending: bool, roll: Option<Value>, keep: Option<Value>): (r: Result<(Value, Ctx)>)
    ensures r.Err? <==> !IsNumericRoll(roll) || SliceEnd(|roll.value.dice.nums|, Arg(keep, 1)) == 0
    ensures r.Ok? ==>
      var kept := KeptDice(roll.value.dice.nums, descending, Arg(keep, 1));
      r.value == (Integer(Sum(kept)), c.(kept := c.kept + kept))
  {
    if !IsNumericRoll(roll) then Err("Cannot read property 'sort' of undefined")
    else
      var dice := roll.value.dice.nums;
      var kept := KeptDice(dice, descending, Arg(keep, 1));
      if kept == [] then Err("Reduce of empty array with no initial value")
      else Ok((Integer(Sum(kept)), c.(kept := c.kept + kept)))
  }

  /**
   * A successful keep logs between one and all of the roll's dice, each taken
   * from the roll, and none of the dice left out beats a kept one.
   */
  lemma KeepSelectsExtremes(c: Ctx, descending: bool, roll: Option<Value>, keep: Option<Value>)
    requires OpKeep(c, descending, roll, keep).Ok?
    ensures var dice := roll.value.dice.nums; var kept := KeptDice(dice, descending, Arg(keep, 1));
      var rest := Sort(dice, descending)[|kept|..];
      && OpKeep(c, descending, roll, keep).value.1.kept == c.kept + kept
      && 0 < |kept| <= |dice|
      && multiset(kept) + multiset(rest) == multiset(dice)
      && forall i, j :: 0 <= i < |kept| && 0 <= j < |rest| ==> Ordered(kept[i], rest[j], descending)
  {
    KeptAreExtremes(roll.value.dice.nums, descending, Arg(keep, 1));
  }

  /**
   * `>` / `e`: count the dice strictly greater than (equal to) the target and
   * append them, in roll order, to the kept log. The target is required.
   */
  function OpCount(c: Ctx, greater: bool, roll: Option<Value>, target: Option<Value>): (r: Result<(Value, Ctx)>)
    ensures r.Err? <==> !IsNumericRoll(roll) || target.None?
    ensures r.Ok? ==>
      var kept := Filter(roll.value.dice.nums, greater, target.value.value);
      r.value == (Integer(|kept|), c.(kept := c.kept + kept))
  {
    if !IsNumericRoll(roll) then Err("Cannot read property 'filter' of undefined")
    else if target.None? then Err("Cannot read property 'value' of undefined")
    else
      var kept := Filter(roll.value.dice.nums, greater, target.value.value);
      Ok((Integer(|kept|), c.(kept := c.kept + kept)))
  }

  /**
   * `gm` as intended: it is called without operands, so its count is the
   * default 1 (the clamp to [1, 10] never bites); one draw over the 31 oracle
   * entries; the phrase drawn (followed by a space) is put in front of the
   * comment. The result is a roll of that one die.
   */
  function OpGm(rng: Rng, c: Ctx): (r: (Value, Ctx))
    ensures var v := r.0;
      && v.Roll? && v.min == 0 && v.max == OracleSize - 1 && v.dice.Numeric?
      && v.dice.nums == [v.value] && v.value == rng(|c.rolls|, 0, OracleSize - 1)
      && 0 <= v.value < OracleSize
      && r.1 == c.(rolls := c.rolls + [Die(v.value, OracleSize)],
                   comment := Oracle(v.value) + " " + c.comment)
  {
    var (dice, c1) := Rolled(rng, c, 1, 0, OracleSize - 1);
    assert dice == [dice[0]];
    var v := dice[0];
    (Roll(0, OracleSize - 1, Numeric(dice), v), c1.(comment := Oracle(v) + " " + c1.comment))
  }

  /**
   * `gm` as written: it reads its count with `arguments.shift()`, but a
   * JavaScript function's `arguments` object is not an array and has no
   * `shift`, so every call fails before any draw is made.
   */
  function OpGmAsWritten(c: Ctx): (r: Result<(Value, Ctx)>)
    ensures r.Err?
  {
    Err("arguments.shift is not a function")
  }

  /**
   * The discrepancy: in every context the operator as written fails, while
   * the intended operator succeeds, logs exactly one die and lengthens the comment.
   */
  lemma GmAsWrittenAlwaysFails(rng: Rng, c: Ctx)
    ensures OpGmAsWritten(c).Err?
    ensures var (v, c') := OpGm(rng, c);
      |c'.rolls| == |c.rolls| + 1 && |c'.comment| > |c.comment|
  {
  }

  datatype Arith = Add | Subtract | Multiply

  /** `+ - *` on the numeric values of two operands. */
  function ArithOf(op: Arith, a: Value, b: Value): (r: Value)
    ensures op == Add ==> r == Integer(a.value + b.value)
    ensures op == Subtract ==> r == Integer(a.value - b.value)
    ensures op == Multiply ==> r == Integer(a.value * b.value)
  {
    match op
    case Add => Integer(a.value + b.value)
    case Subtract => Integer(a.value - b.value)
    case Multiply => Integer(a.value * b.value)
  }
}
