/**
 * Tallying and rendering of narrative ("Star Wars") dice: whether a whole
 * evaluation was narrative, the summed symbol totals, their description and
 * the face-by-face breakdown.
 */
module Narrative {
  import opened Values
  import Tables

  /** All symbols of a sequence of faces, in roll order (`_.flatten`). */
  function Flatten(faces: seq<Face>): (r: seq<Effect>)
    ensures faces == [] ==> r == []
    ensures |faces| == 1 ==> r == faces[0]
  {
    if faces == [] then [] else faces[0] + Flatten(faces[1..])
  }

  lemma {:induction false} FlattenAppend(a: seq<Face>, b: seq<Face>)
    ensures Flatten(a + b) == Flatten(a) + Flatten(b)
  {
    if a == [] {
      assert a + b == b;
    } else {
      assert (a + b)[1..] == a[1..] + b;
      FlattenAppend(a[1..], b);
    }
  }

  /** No face of the sequence shows a symbol exactly when the flattened sequence is empty. */
  lemma {:induction false} FlattenEmpty(faces: seq<Face>)
    ensures Flatten(faces) == [] <==> forall i :: 0 <= i < |faces| ==> faces[i] == []
  {
    if faces != [] {
      FlattenEmpty(faces[1..]);
      assert forall i :: 1 <= i < |faces| ==> faces[i] == faces[1..][i - 1];
    }
  }

  function Add(x: Effect, y: Effect): Effect {
    Effect(x.value + y.value, x.consequence + y.consequence, x.sideEffect + y.sideEffect)
  }

  /** The component-wise total of a sequence of symbols. */
  function Totals(es: seq<Effect>): (r: Effect)
    ensures es == [] ==> r == NoEffect
    ensures |es| == 1 ==> r == es[0]
  {
    if es == [] then NoEffect else Add(es[0], Totals(es[1..]))
  }

  function ValuesOf(es: seq<Effect>): seq<int> { seq(|es|, i requires 0 <= i < |es| => es[i].value) }
  function ConsequencesOf(es: seq<Effect>): seq<int> { seq(|es|, i requires 0 <= i < |es| => es[i].consequence) }
  function SideEffectsOf(es: seq<Effect>): seq<int> { seq(|es|, i requires 0 <= i < |es| => es[i].sideEffect) }

  /** Each total is the plain sum of that dimension over all symbols. */
  lemma {:induction false} TotalsAreSums(es: seq<Effect>)
    ensures Totals(es) == Effect(Sum(ValuesOf(es)), Sum(ConsequencesOf(es)), Sum(SideEffectsOf(es)))
  {
    if es != [] {
      TotalsAreSums(es[1..]);
      assert ValuesOf(es)[1..] == ValuesOf(es[1..]);
      assert ConsequencesOf(es)[1..] == ConsequencesOf(es[1..]);
      assert SideEffectsOf(es)[1..] == SideEffectsOf(es[1..]);
    }
  }

  /** Totals over a concatenation add up. */
  lemma {:induction false} TotalsAppend(a: seq<Effect>, b: seq<Effect>)
    ensures Totals(a + b) == Add(Totals(a), Totals(b))
  {
    if a == [] {
      assert a + b == b;
    } else {
      assert (a + b)[1..] == a[1..] + b;
      TotalsAppend(a[1..], b);
    }
  }

  /**
   * An evaluation is narrative when it rolled at least one die and every die
   * it rolled was a narrative die.
   */
  predicate OnlyStarWars(rolls: seq<Die>, starwars: seq<Face>) {
    |rolls| > 0 && |rolls| == |starwars|
  }

  function Abs(n: int): nat { if n < 0 then -n else n }

  function DigitChar(d: nat): char
    requires d < 10
  {
    "0123456789"[d]
  }

  predicate IsDigit(c: char) { '0' <= c <= '9' }

  /** The decimal spelling of a natural number, as JavaScript writes it. */
  function NatToString(n: nat): (r: string)
    ensures |r| >= 1
    ensures forall i :: 0 <= i < |r| ==> IsDigit(r[i])
    ensures r[0] == '0' ==> n == 0
  {
    if n < 10 then [DigitChar(n)] else NatToString(n / 10) + [DigitChar(n % 10)]
  }

  function ParseDigits(s: string): nat
    requires forall i :: 0 <= i < |s| ==> IsDigit(s[i])
  {
    if s == [] then 0
    else
      assert IsDigit(s[|s| - 1]);
      ParseDigits(s[..|s| - 1]) * 10 + (s[|s| - 1] as int - '0' as int)
  }

  lemma {:induction false} NatToStringRoundTrip(n: nat)
    ensures ParseDigits(NatToString(n)) == n
  {
    var r := NatToString(n);
    if n >= 10 {
      NatToStringRoundTrip(n / 10);
      assert r[..|r| - 1] == NatToString(n / 10);
    }
  }

  /** `Array.prototype.join`. */
  function Join(parts: seq<string>, sep: string): (r: string)
    ensures parts == [] ==> r == ""
    ensures |parts| == 1 ==> r == parts[0]
    ensures |parts| > 0 ==> parts[0] <= r
  {
    if |parts| == 0 then "" else if |parts| == 1 then parts[0] else parts[0] + sep + Join(parts[1..], sep)
  }

  /** Joining two non-empty lists puts one separator between their joins. */
  lemma {:induction false} JoinAppend(a: seq<string>, b: seq<string>, sep: string)
    requires a != [] && b != []
    ensures Join(a + b, sep) == Join(a, sep) + sep + Join(b, sep)
  {
    if |a| == 1 {
      assert (a + b)[0] == a[0] && (a + b)[1..] == b;
    } else {
      assert (a + b)[0] == a[0] && (a + b)[1..] == a[1..] + b;
      JoinAppend(a[1..], b, sep);
    }
  }

  /** The plural suffix is added exactly when the magnitude exceeds one. */
  function Plural(n: int, suffix: string): string {
    if Abs(n) > 1 then suffix else ""
  }

  /** One dimension of the description: "N Successes", "1 Despair", ... */
  function Part(n: int, positive: string, positiveSuffix: string, negative: string): (p: string)
    ensures NatToString(Abs(n)) + " " <= p
  {
    NatToString(Abs(n)) + " " + (if n > 0 then positive + Plural(n, positiveSuffix) else negative + Plural(n, "s"))
  }

  /**
   * A part reads back as its magnitude, a space, and the word of its sign,
   * which carries the plural suffix exactly when the magnitude exceeds one.
   */
  lemma PartSpelling(n: int, positive: string, positiveSuffix: string, negative: string)
    ensures var p := Part(n, positive, positiveSuffix, negative); var digits := NatToString(Abs(n)); var k := |digits|;
      && k < |p| && p[..k] == digits && ParseDigits(p[..k]) == Abs(n) && p[k] == ' '
      && p[k + 1..] == (if n > 0 then positive else negative) + (if Abs(n) > 1 then (if n > 0 then positiveSuffix else "s") else "")
  {
    NatToStringRoundTrip(Abs(n));
  }

  /** The non-zero dimensions, each spelled by `Part`, in the order value, consequence, side effect. */
  function Parts(t: Effect): (r: seq<string>)
    ensures |r| == (if t.value != 0 then 1 else 0) + (if t.consequence != 0 then 1 else 0) + (if t.sideEffect != 0 then 1 else 0)
    ensures t.value != 0 ==> r[0] == Part(t.value, "Success", "es", "Failure")
    ensures t.consequence != 0 ==> r[if t.value != 0 then 1 else 0] == Part(t.consequence, "Triumph", "s", "Despair")
    ensures t.sideEffect != 0 ==> r[|r| - 1] == Part(t.sideEffect, "Advantage", "s", "Threat")
    ensures forall i :: 0 <= i < |r| ==> |r[i]| > 0 && IsDigit(r[i][0])
  {
    (if t.value != 0 then [Part(t.value, "Success", "es", "Failure")] else [])
    + (if t.consequence != 0 then [Part(t.consequence, "Triumph", "s", "Despair")] else [])
    + (if t.sideEffect != 0 then [Part(t.sideEffect, "Advantage", "s", "Threat")] else [])
  }

  /** The description: the parts joined by ", ", or "No effect" when every total is zero. */
  function Describe(t: Effect): (r: string)
    ensures r == "No effect" <==> t == NoEffect
    ensures t != NoEffect ==> r == Join(Parts(t), ", ") && |r| > 0 && IsDigit(r[0])
  {
    var parts := Parts(t);
    if parts == [] then "No effect"
    else
      var r := Join(parts, ", ");
      assert parts[0] <= r && |parts[0]| > 0;
      r
  }

  /**
   * `new Array(n + 1).join(word)`: the word written n times with no
   * separator. The result starts with the word and repeats itself with period
   * `|word|`, which fixes every character.
   */
  function Repeat(n: nat, word: string): (r: string)
    ensures |r| == n * |word|
    ensures n > 0 ==> word <= r
    ensures forall i :: |word| <= i < |r| ==> r[i] == r[i - |word|]
  {
    if n == 0 then ""
    else
      var rest := Repeat(n - 1, word);
      var r := word + rest;
      assert forall i :: |word| <= i < |r| ==> r[i] == r[i - |word|] by {
        forall i | |word| <= i < |r|
          ensures r[i] == r[i - |word|]
        {
          assert r[i] == rest[i - |word|];
          if i - |word| < |word| {
            assert n - 1 > 0;
          }
        }
      }
      r
  }

  /** One dimension's name: its sign's word written `|count|` times, or none for zero. */
  function SignedName(count: int, positive: string, negative: string): seq<string> {
    if count > 0 then [Repeat(Abs(count), positive)]
    else if count < 0 then [Repeat(Abs(count), negative)]
    else []
  }

  /** The names one symbol contributes to its die's breakdown. */
  function EffectNames(e: Effect): seq<string> {
    SignedName(e.value, "Success", "Failure")
    + SignedName(e.consequence, "Triumph", "Despair")
    + SignedName(e.sideEffect, "Advantage", "Threat")
  }

  /** Every name starts with one of the capitals S, F, T, D or A. */
  predicate NameStart(c: char) { c in {'S', 'F', 'T', 'D', 'A'} }

  /**
   * The names a symbol contributes: one per non-zero dimension, in the order
   * value, consequence, side effect, each the word of that dimension's sign
   * written as many times as its magnitude; none for the empty effect.
   */
  lemma EffectNamesInOrder(e: Effect)
    ensures var names := EffectNames(e);
      && |names| == (if e.value != 0 then 1 else 0) + (if e.consequence != 0 then 1 else 0) + (if e.sideEffect != 0 then 1 else 0)
      && (e.value != 0 ==> names[0] == Repeat(Abs(e.value), if e.value > 0 then "Success" else "Failure"))
      && (e.consequence != 0 ==> names[if e.value != 0 then 1 else 0] == Repeat(Abs(e.consequence), if e.consequence > 0 then "Triumph" else "Despair"))
      && (e.sideEffect != 0 ==> names[|names| - 1] == Repeat(Abs(e.sideEffect), if e.sideEffect > 0 then "Advantage" else "Threat"))
      && (names == [] <==> e == NoEffect)
      && forall i :: 0 <= i < |names| ==> |names[i]| > 0 && NameStart(names[i][0])
  {
  }

  /** A symbol has no names exactly when it is empty, and each of its names starts with a capital. */
  lemma EffectNamesShape(e: Effect)
    ensures var names := EffectNames(e);
      && (names == [] <==> e == NoEffect)
      && forall i :: 0 <= i < |names| ==> |names[i]| > 0 && NameStart(names[i][0])
  {
    EffectNamesInOrder(e);
  }

  /**
   * The names of the six symbols. The constant named `Failure` is a negative
   * side effect and so is named "Threat"; the constant named `Threat` is a
   * negative value and so is named "Failure".
   */
  lemma SymbolNames()
    ensures EffectNames(Success) == ["Success"]
    ensures EffectNames(Advantage) == ["Advantage"]
    ensures EffectNames(Triumph) == ["Success", "Triumph"]
    ensures EffectNames(Failure) == ["Threat"]
    ensures EffectNames(Threat) == ["Failure"]
    ensures EffectNames(Despair) == ["Failure", "Despair"]
  {
    assert Repeat(1, "Success") == "Success" && Repeat(1, "Advantage") == "Advantage";
    assert Repeat(1, "Triumph") == "Triumph" && Repeat(1, "Threat") == "Threat";
    assert Repeat(1, "Failure") == "Failure" && Repeat(1, "Despair") == "Despair";
  }

  /** The names of a face: those of its symbols, in order. */
  function FaceNames(f: Face): (r: seq<string>)
    ensures r == [] <==> forall i :: 0 <= i < |f| ==> f[i] == NoEffect
    ensures forall i :: 0 <= i < |r| ==> |r[i]| > 0 && NameStart(r[i][0])
    ensures |f| == 1 ==> r == EffectNames(f[0])
  {
    if f == [] then []
    else
      var rest := FaceNames(f[1..]);
      var first := EffectNames(f[0]);
      EffectNamesShape(f[0]);
      assert forall i :: 1 <= i < |f| ==> f[i] == f[1..][i - 1];
      assert forall i :: |first| <= i < |first| + |rest| ==> (first + rest)[i] == rest[i - |first|];
      assert |f| == 1 ==> first + rest == first;
      first + rest
  }

  /** The names of consecutive symbols follow each other. */
  lemma {:induction false} FaceNamesAppend(a: Face, b: Face)
    ensures FaceNames(a + b) == FaceNames(a) + FaceNames(b)
  {
    if a == [] {
      assert a + b == b;
    } else {
      assert (a + b)[0] == a[0] && (a + b)[1..] == a[1..] + b;
      FaceNamesAppend(a[1..], b);
    }
  }

  /** One die of the breakdown: "(Success, Advantage)", or "(Nothing)" for a blank face. */
  function RenderFace(f: Face): (r: string)
    ensures r == "(Nothing)" <==> forall i :: 0 <= i < |f| ==> f[i] == NoEffect
    ensures r != "(Nothing)" ==> r == "(" + Join(FaceNames(f), ", ") + ")"
  {
    var names := FaceNames(f);
    if names == [] then "(Nothing)"
    else
      var r := "(" + Join(names, ", ") + ")";
      assert names[0] <= Join(names, ", ") && |names[0]| > 0 && NameStart(names[0][0]);
      assert r[1] != "(Nothing)"[1];
      r
  }

  /** Each face rendered on its own. */
  function RenderEach(faces: seq<Face>): (r: seq<string>)
    ensures |r| == |faces|
    ensures forall i :: 0 <= i < |faces| ==> r[i] == RenderFace(faces[i])
  {
    seq(|faces|, i requires 0 <= i < |faces| => RenderFace(faces[i]))
  }

  /** The face-by-face breakdown, dice joined by ", " in roll order. */
  function RenderFaces(faces: seq<Face>): (r: string)
    ensures faces == [] ==> r == ""
    ensures |faces| == 1 ==> r == RenderFace(faces[0])
  {
    Join(RenderEach(faces), ", ")
  }

  /** The breakdown of consecutive dice: the first dice, ", ", then the rest, so roll order is kept. */
  lemma RenderFacesAppend(a: seq<Face>, b: seq<Face>)
    requires a != [] && b != []
    ensures RenderFaces(a + b) == RenderFaces(a) + ", " + RenderFaces(b)
  {
    assert RenderEach(a + b) == RenderEach(a) + RenderEach(b);
    JoinAppend(RenderEach(a), RenderEach(b), ", ");
  }

  /** A face of a narrative die renders as "(Nothing)" exactly when it is blank. */
  lemma TableFaceBlank(die: StarDie, i: int)
    requires 0 <= i < |Tables.FaceTable(die)|
    ensures RenderFace(Tables.FaceTable(die)[i]) == "(Nothing)" <==> Tables.FaceTable(die)[i] == []
  {
    var f := Tables.FaceTable(die)[i];
    Tables.FaceTableSymbols(die);
    if f != [] {
      assert Tables.IsSymbol(f[0]);
    }
  }

  datatype Summary = Summary(totals: Effect, description: string, faces: string)

  /**
   * The narrative summary: absent unless the evaluation was narrative; an
   * error when no rolled face showed any symbol (the source reduces an empty
   * array without a seed).
   */
  function StarWarsResult(rolls: seq<Die>, starwars: seq<Face>): (r: Result<Option<Summary>>)
    ensures r == Ok(None) <==> !OnlyStarWars(rolls, starwars)
    ensures r.Err? <==> OnlyStarWars(rolls, starwars) && forall i :: 0 <= i < |starwars| ==> starwars[i] == []
    ensures r.Ok? && r.value.Some? ==>
      var s := r.value.value;
      && s.totals == Effect(Sum(ValuesOf(Flatten(starwars))), Sum(ConsequencesOf(Flatten(starwars))), Sum(SideEffectsOf(Flatten(starwars))))
      && (s.description == "No effect" <==> s.totals == NoEffect)
      && s.description == Describe(s.totals)
      && s.faces == RenderFaces(starwars)
  {
    FlattenEmpty(starwars);
    if !OnlyStarWars(rolls, starwars) then Ok(None)
    else
      var effects := Flatten(starwars);
      if effects == [] then Err("Reduce of empty array with no initial value")
      else
        var totals := Totals(effects);
        TotalsAreSums(effects);
        Ok(Some(Summary(totals, Describe(totals), RenderFaces(starwars))))
  }
}
