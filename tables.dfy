/**
 * The fixed tables of the dice language: the narrative dice faces, the
 * game-master oracle phrases and the parser's precedence table.
 */
module Tables {
  import opened Values

  const SwaFaces: seq<Face> := [
    [Success], [Advantage], [Success, Advantage], [Success, Success],
    [Advantage], [Success], [Advantage, Advantage], []
  ]

  const SwdFaces: seq<Face> := [
    [Threat], [Failure], [Threat, Failure], [Threat, Threat],
    [Failure], [Threat], [Failure, Failure], []
  ]

  const SwpFaces: seq<Face> := [
    [Advantage, Advantage], [Advantage], [Advantage, Advantage], [Triumph],
    [Success], [Success, Advantage], [Success], [Success, Advantage],
    [Success, Success], [Success, Advantage], [Success, Success], []
  ]

  const SwcFaces: seq<Face> := [
    [Threat, Threat], [Threat], [Threat, Threat], [Threat],
    [Threat, Failure], [Failure], [Threat, Failure], [Failure],
    [Failure, Failure], [Despair], [Failure, Failure], []
  ]

  const SwbFaces: seq<Face> := [
    [Threat], [Threat], [Failure], [Failure], [], []
  ]

  const SwsFaces: seq<Face> := [
    [Success], [Success, Advantage], [Advantage, Advantage], [Advantage], [], []
  ]

  /** The six symbols that appear on narrative dice. */
  predicate IsSymbol(e: Effect) {
    e == Success || e == Failure || e == Advantage || e == Threat || e == Triumph || e == Despair
  }

  /** The face table of one narrative die, indexed by the drawn face number. */
  function FaceTable(die: StarDie): (t: seq<Face>)
    ensures |t| == (match die case Swa => 8 case Swd => 8 case Swp => 12 case Swc => 12 case Swb => 6 case Sws => 6)
    ensures t[|t| - 1] == []
  {
    match die
    case Swa => SwaFaces
    case Swd => SwdFaces
    case Swp => SwpFaces
    case Swc => SwcFaces
    case Swb => SwbFaces
    case Sws => SwsFaces
  }

  /**
   * Every face shows only the six symbols; a Triumph appears only on the
   * proficiency die and a Despair only on the challenge die.
   */
  lemma FaceTableSymbols(die: StarDie)
    ensures var t := FaceTable(die);
      && (forall i, j :: 0 <= i < |t| && 0 <= j < |t[i]| ==> IsSymbol(t[i][j]))
      && ((exists i :: 0 <= i < |t| && Triumph in t[i]) <==> die == Swp)
      && ((exists i :: 0 <= i < |t| && Despair in t[i]) <==> die == Swc)
  {
    match die
    case Swp => assert Triumph in SwpFaces[3];
    case Swc => assert Despair in SwcFaces[9];
    case _ =>
  }

  /**
   * The game-master oracle: 30 phrases followed by one empty entry, which
   * the source stores as an empty list and so renders as the empty string.
   */
  const OracleSize := 31

  /** Entry `i` of the oracle table. */
  function Oracle(i: nat): (r: string)
    requires i < OracleSize
    ensures r == "" <==> i == OracleSize - 1
  {
    match i
    case 0 => "Separate them"
    case 1 => "Put them together"
    case 2 => "Show their connection"
    case 3 => "Show their connection increasing"
    case 4 => "Show their connection strained"
    case 5 => "The weather obstructs you"
    case 6 => "The landscape obstructs you"
    case 7 => "The enviroment obstructs you"
    case 8 => "A beast obstructs you"
    case 9 => "An NPC obstructs you"
    case 10 => "Your past obstructs you"
    case 11 => "Your equipment obstructs you"
    case 12 => "An old friend makes contact"
    case 13 => "An old enemy reappears"
    case 14 => "Something bad on the horizon"
    case 15 => "Something you believe in happens"
    case 16 => "Something good happens"
    case 17 => "Something useful happens"
    case 18 => "You lose some equipment"
    case 19 => "You lose a resource"
    case 20 => "You find a trap"
    case 21 => "Tensions escalate"
    case 22 => "Show what your character is good at"
    case 23 => "Show what your character likes"
    case 24 => "Show what your character thinks of another character"
    case 25 => "Someone has a job for you"
    case 26 => "Someone has an offer for you"
    case 27 => "Someone has something you want"
    case 28 => "It is valuable, but the price is high"
    case 29 => "Lose something, or another character is hurt"
    case _ => ""
  }

  datatype Associativity = Left | Right

  /** A precedence tier (higher binds tighter) and the associativity of an operator. */
  datatype OperatorSpec = OperatorSpec(precedence: nat, associativity: Associativity)

  const FirstTier := OperatorSpec(4, Left)
  const SecondTier := OperatorSpec(3, Left)
  const ThirdTier := OperatorSpec(2, Left)
  const FourthTier := OperatorSpec(1, Left)

  /** The table handed to the infix-to-postfix parser, keyed by operator spelling. */
  const PrecedenceTable: map<string, OperatorSpec> := map[
    "d" := FirstTier,
    "df" := FirstTier,
    "kh" := SecondTier,
    "kl" := SecondTier,
    "k" := SecondTier,
    ">" := SecondTier,
    "b" := SecondTier,
    "w" := SecondTier,
    "!" := SecondTier,
    "e" := SecondTier,
    "swa" := SecondTier,
    "swd" := SecondTier,
    "gm" := SecondTier,
    "*" := ThirdTier,
    "/" := ThirdTier,
    "+" := FourthTier,
    "-" := FourthTier
  ]

  /** How an operator is spelled in a command. */
  function Symbol(op: Op): string {
    match op
    case D => "d"
    case Df => "df"
    case Explode => "!"
    case Kh => "kh"
    case Kl => "kl"
    case K => "k"
    case B => "b"
    case W => "w"
    case Greater => ">"
    case Equal => "e"
    case Star(die) =>
      (match die case Swa => "swa" case Swd => "swd" case Swp => "swp"
                 case Swc => "swc" case Swb => "swb" case Sws => "sws")
    case Gm => "gm"
    case Plus => "+"
    case Minus => "-"
    case Times => "*"
  }

  /** The precedence tier the parser gives an operator, if the table lists it. */
  function PrecedenceOf(op: Op): (r: Option<nat>)
    ensures r.None? <==> op in {Star(Swp), Star(Swc), Star(Swb), Star(Sws)}
    ensures op in {D, Df} ==> r == Some(4)
    ensures op in {Kh, Kl, K, B, W, Greater, Equal, Explode, Star(Swa), Star(Swd), Gm} ==> r == Some(3)
    ensures op == Times ==> r == Some(2)
    ensures op in {Plus, Minus} ==> r == Some(1)
    ensures r.Some? ==> PrecedenceTable[Symbol(op)].associativity == Left
  {
    var s := Symbol(op);
    if s in PrecedenceTable then Some(PrecedenceTable[s].precedence) else None
  }
}
