/** The rule table of the game: which moves beat which, and how one round is
    judged from the human player's side. */
module RuleTable {

  /** A throw, written as the token the player types ("R", "P", "S"). */
  type Move = string

  /** `losesTo[m]` lists every move that beats `m`. */
  type LosesTo = map<Move, seq<Move>>

  /** The result of a round, seen from the human player. */
  datatype Outcome = Loss | Win | Tie

  predicate Distinct<T(==)>(xs: seq<T>) {
    forall i, j :: 0 <= i < j < |xs| ==> xs[i] != xs[j]
  }

  /** Dropping the head of a repetition-free sequence leaves one without the head. */
  lemma DistinctTail<T>(xs: seq<T>)
    requires xs != [] && Distinct(xs)
    ensures Distinct(xs[1..]) && xs[0] !in xs[1..]
  {
  }

  /** A configuration the game can run on: the valid moves enumerate the keys
      of the table once each, every move has at least one counter, and every
      counter is itself a move (the game looks each one up again). */
  ghost predicate WellFormed(losesTo: LosesTo, validMoves: seq<Move>) {
    && Distinct(validMoves)
    && (forall m :: m in validMoves <==> m in losesTo)
    && (forall m :: m in losesTo ==> |losesTo[m]| > 0)
    && (forall m, c :: m in losesTo && c in losesTo[m] ==> c in losesTo)
  }

  /** Judges a round: a loss when the computer's move beats the human's, else
      a win when the human's move beats the computer's, else a tie. */
  function Judge(losesTo: LosesTo, human: Move, ai: Move): (r: Outcome)
    requires human in losesTo && ai in losesTo
  {
    if ai in losesTo[human] then Loss
    else if human in losesTo[ai] then Win
    else Tie
  }

  /** Whatever the table, a move taken from `losesTo[p]` defeats `p`: the
      human who plays `p` against it loses. */
  lemma CounterBeatsPrediction(losesTo: LosesTo, p: Move, c: Move)
    requires p in losesTo && c in losesTo && c in losesTo[p]
    ensures Judge(losesTo, p, c) == Loss
  {
  }

  /** The configured table: paper beats rock, rock beats scissors, scissors
      beats paper. */
  function Classic(): LosesTo {
    map["R" := ["P"], "S" := ["R"], "P" := ["S"]]
  }

  /** The keys of `Classic()` in the order the table lists them. */
  function ClassicMoves(): seq<Move> {
    ["R", "S", "P"]
  }

  lemma ClassicIsWellFormed()
    ensures WellFormed(Classic(), ClassicMoves())
  {
  }

  /** In the configured table no move beats itself, every move is beaten by
      exactly one move, and every move beats exactly one move. */
  lemma ClassicSingleCycle(m: Move)
    requires m in Classic()
    ensures |Classic()[m]| == 1 && m !in Classic()[m]
    ensures exists v :: v in Classic() && m in Classic()[v]
    ensures forall v, w :: v in Classic() && w in Classic() && m in Classic()[v] && m in Classic()[w] ==> v == w
  {
    var t := Classic();
    if m == "R" { assert m in t["S"]; }
    else if m == "S" { assert m in t["P"]; }
    else { assert m in t["R"]; }
  }

  /** With the configured table a round is a tie exactly when both players
      threw the same move. */
  lemma ClassicTieIffEqual(human: Move, ai: Move)
    requires human in Classic() && ai in Classic()
    ensures Judge(Classic(), human, ai) == Tie <==> human == ai
  {
  }

  /** With the configured table the human wins a round exactly when the
      human would have lost with the two moves swapped. */
  lemma ClassicWinMirrorsLoss(human: Move, ai: Move)
    requires human in Classic() && ai in Classic()
    ensures Judge(Classic(), human, ai) == Win <==> Judge(Classic(), ai, human) == Loss
  {
  }

  /** Rounds judged with the configured table: rock loses to paper, ties
      with rock, beats scissors; scissors loses to rock. */
  lemma ClassicScenarios()
    ensures Judge(Classic(), "R", "P") == Loss
    ensures Judge(Classic(), "R", "R") == Tie
    ensures Judge(Classic(), "R", "S") == Win
    ensures Judge(Classic(), "S", "R") == Loss
  {
  }
}
