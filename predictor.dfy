/** The adaptive opponent: a table counting what the human threw after each
    pair of moves (a first-order Markov model), and the choice of the
    computer's next move from it. */
module Predictor {
  import opened RuleTable

  /** The previous round: (human's move, computer's move). */
  type State = (Move, Move)

  /** How often the human threw each move. */
  type Counts = map<Move, nat>

  /** For each previous round, the counts of the human's next move. */
  type Frequencies = map<State, Counts>

  /** The table has one entry per pair of valid moves, and each entry counts
      exactly the valid moves. */
  ghost predicate Shaped(frequencies: Frequencies, validMoves: seq<Move>) {
    && (forall s: State {:trigger s in frequencies} :: s in frequencies <==> s.0 in validMoves && s.1 in validMoves)
    && (forall s: State, m: Move {:trigger m in frequencies[s]} :: s in frequencies ==> (m in frequencies[s] <==> m in validMoves))
  }

  /** A count of 0 for every valid move. */
  function ZeroCounts(validMoves: seq<Move>): (r: Counts) {
    map m | m in validMoves :: 0
  }

  /** The table before any round is played. */
  function InitialFrequencies(validMoves: seq<Move>): (r: Frequencies)
    ensures Shaped(r, validMoves)
    ensures forall s, m :: s in r && m in r[s] ==> r[s][m] == 0
  {
    map first, second | first in validMoves && second in validMoves :: (first, second) := ZeroCounts(validMoves)
  }

  /** The sum of the counts of `moves`. */
  function Total(counts: Counts, moves: seq<Move>): (r: nat)
    requires forall m :: m in moves ==> m in counts
  {
    if moves == [] then 0 else counts[moves[0]] + Total(counts, moves[1..])
  }

  /** A sum of counts is zero exactly when every count in it is zero. */
  lemma {:induction false} TotalZeroIff(counts: Counts, moves: seq<Move>)
    requires forall m :: m in moves ==> m in counts
    ensures Total(counts, moves) == 0 <==> forall m :: m in moves ==> counts[m] == 0
  {
    if moves != [] {
      TotalZeroIff(counts, moves[1..]);
      assert forall m :: m in moves <==> m == moves[0] || m in moves[1..];
    }
  }

  /** Records that the human threw `humanMove` after the round `state`. */
  function Observe(frequencies: Frequencies, state: State, humanMove: Move): (r: Frequencies)
    requires state in frequencies && humanMove in frequencies[state]
    ensures r.Keys == frequencies.Keys
    ensures forall s :: s in r ==> r[s].Keys == frequencies[s].Keys
    ensures r[state][humanMove] == frequencies[state][humanMove] + 1
    ensures forall s, m :: s in frequencies && m in frequencies[s] && (s != state || m != humanMove) ==>
              r[s][m] == frequencies[s][m]
  {
    frequencies[state := frequencies[state][humanMove := frequencies[state][humanMove] + 1]]
  }

  /** The moves the computer may answer with, given the table: any valid
      move for a state never seen, otherwise a counter to some move the human
      has thrown after that state (a move of count zero is never drawn). */
  ghost predicate CanPick(losesTo: LosesTo, validMoves: seq<Move>, frequencies: Frequencies, state: State, m: Move)
    requires WellFormed(losesTo, validMoves) && Shaped(frequencies, validMoves) && state in frequencies
  {
    var counts := frequencies[state];
    if Total(counts, validMoves) == 0 then m in losesTo
    else exists p :: p in validMoves && counts[p] > 0 && m in losesTo[p]
  }

  /** Chooses the computer's move. Both random draws are modelled by their
      support: the weighted draw of a predicted human move picks some move of
      positive count, and the counter is any move that beats it. */
  method PickMove(losesTo: LosesTo, validMoves: seq<Move>, frequencies: Frequencies, state: State) returns (m: Move)
    requires WellFormed(losesTo, validMoves) && Shaped(frequencies, validMoves) && state in frequencies
    ensures m in validMoves
    ensures CanPick(losesTo, validMoves, frequencies, state, m)
  {
    var responseFreqs := frequencies[state];
    if Total(responseFreqs, validMoves) == 0 {
      assert state.0 in losesTo;
      m :| m in losesTo;
    } else {
      TotalZeroIff(responseFreqs, validMoves);
      var predicted :| predicted in validMoves && responseFreqs[predicted] > 0;
      assert losesTo[predicted][0] in losesTo[predicted];
      m :| m in losesTo[predicted];
    }
  }

  /** Cold start: for a state whose counts are all zero, every valid move
      can be chosen, and only valid moves. */
  lemma ColdStart(losesTo: LosesTo, validMoves: seq<Move>, frequencies: Frequencies, state: State, m: Move)
    requires WellFormed(losesTo, validMoves) && Shaped(frequencies, validMoves) && state in frequencies
    requires forall p :: p in validMoves ==> frequencies[state][p] == 0
    ensures CanPick(losesTo, validMoves, frequencies, state, m) <==> m in validMoves
  {
    TotalZeroIff(frequencies[state], validMoves);
  }

  /** Warm case: once the human has answered `state` at least once, the
      computer's move beats some move the human has thrown after `state`. */
  lemma WarmPickBeatsObserved(losesTo: LosesTo, validMoves: seq<Move>, frequencies: Frequencies, state: State, m: Move)
    requires WellFormed(losesTo, validMoves) && Shaped(frequencies, validMoves) && state in frequencies
    requires exists q :: q in validMoves && frequencies[state][q] > 0
    requires CanPick(losesTo, validMoves, frequencies, state, m)
    ensures m in losesTo
    ensures exists p :: p in validMoves && frequencies[state][p] > 0 && Judge(losesTo, p, m) == Loss
  {
    TotalZeroIff(frequencies[state], validMoves);
    var p :| p in validMoves && frequencies[state][p] > 0 && m in losesTo[p];
    CounterBeatsPrediction(losesTo, p, m);
  }

  /** When the human has only ever answered `state` with `q`, the computer
      answers with exactly the moves that beat `q`. */
  lemma BiasConvergence(losesTo: LosesTo, validMoves: seq<Move>, frequencies: Frequencies, state: State, q: Move, m: Move)
    requires WellFormed(losesTo, validMoves) && Shaped(frequencies, validMoves) && state in frequencies
    requires q in validMoves && frequencies[state][q] > 0
    requires forall p :: p in validMoves && p != q ==> frequencies[state][p] == 0
    ensures CanPick(losesTo, validMoves, frequencies, state, m) <==> m in losesTo[q]
  {
    TotalZeroIff(frequencies[state], validMoves);
  }

  /** With the configured table, such a state is always answered with the
      one move that beats `q`. */
  lemma ClassicBiasConvergence(frequencies: Frequencies, state: State, q: Move, m: Move)
    requires Shaped(frequencies, ClassicMoves()) && state in frequencies
    requires q in ClassicMoves() && frequencies[state][q] > 0
    requires forall p :: p in ClassicMoves() && p != q ==> frequencies[state][p] == 0
    ensures CanPick(Classic(), ClassicMoves(), frequencies, state, m) <==> m == Classic()[q][0]
  {
    ClassicIsWellFormed();
    BiasConvergence(Classic(), ClassicMoves(), frequencies, state, q, m);
  }

  /** The choice reads only the entry for `state`: two tables that agree
      there allow the same moves. */
  lemma PickReadsOnlyState(losesTo: LosesTo, validMoves: seq<Move>, f: Frequencies, g: Frequencies, state: State, m: Move)
    requires WellFormed(losesTo, validMoves) && Shaped(f, validMoves) && Shaped(g, validMoves)
    requires state in f && state in g && f[state] == g[state]
    ensures CanPick(losesTo, validMoves, f, state, m) == CanPick(losesTo, validMoves, g, state, m)
  {
  }

  /** The number of rounds the table has recorded: the sum of all counts. */
  ghost function Observations(frequencies: Frequencies, validMoves: seq<Move>): nat
    requires Shaped(frequencies, validMoves)
  {
    TableTotal(frequencies, validMoves, validMoves)
  }

  ghost function RowTotal(frequencies: Frequencies, first: Move, seconds: seq<Move>, validMoves: seq<Move>): nat
    requires Shaped(frequencies, validMoves) && first in validMoves
    requires forall b :: b in seconds ==> b in validMoves
  {
    if seconds == [] then 0
    else Total(frequencies[(first, seconds[0])], validMoves) + RowTotal(frequencies, first, seconds[1..], validMoves)
  }

  ghost function TableTotal(frequencies: Frequencies, firsts: seq<Move>, validMoves: seq<Move>): nat
    requires Shaped(frequencies, validMoves)
    requires forall a :: a in firsts ==> a in validMoves
  {
    if firsts == [] then 0
    else RowTotal(frequencies, firsts[0], validMoves, validMoves) + TableTotal(frequencies, firsts[1..], validMoves)
  }

  lemma {:induction false} TotalBump(counts: Counts, moves: seq<Move>, humanMove: Move)
    requires humanMove in counts && Distinct(moves)
    requires forall m :: m in moves ==> m in counts
    ensures Total(counts[humanMove := counts[humanMove] + 1], moves) == Total(counts, moves) + (if humanMove in moves then 1 else 0)
  {
    if moves != [] {
      DistinctTail(moves);
      TotalBump(counts, moves[1..], humanMove);
    }
  }

  lemma ObserveKeepsShape(frequencies: Frequencies, validMoves: seq<Move>, state: State, humanMove: Move)
    requires Shaped(frequencies, validMoves) && state in frequencies && humanMove in validMoves
    ensures Shaped(Observe(frequencies, state, humanMove), validMoves)
  {
  }

  lemma {:induction false} RowTotalBump(frequencies: Frequencies, observed: Frequencies, validMoves: seq<Move>,
                                        state: State, humanMove: Move, first: Move, seconds: seq<Move>)
    requires Distinct(validMoves) && Shaped(frequencies, validMoves) && Shaped(observed, validMoves)
    requires state in frequencies && humanMove in validMoves
    requires observed == Observe(frequencies, state, humanMove)
    requires first in validMoves && Distinct(seconds) && forall b :: b in seconds ==> b in validMoves
    ensures RowTotal(observed, first, seconds, validMoves)
         == RowTotal(frequencies, first, seconds, validMoves) + (if first == state.0 && state.1 in seconds then 1 else 0)
  {
    if seconds != [] {
      var s := (first, seconds[0]);
      if s == state {
        TotalBump(frequencies[state], validMoves, humanMove);
      } else {
        assert observed[s] == frequencies[s];
      }
      DistinctTail(seconds);
      RowTotalBump(frequencies, observed, validMoves, state, humanMove, first, seconds[1..]);
    }
  }

  lemma {:induction false} TableTotalBump(frequencies: Frequencies, observed: Frequencies, validMoves: seq<Move>,
                                          state: State, humanMove: Move, firsts: seq<Move>)
    requires Distinct(validMoves) && Shaped(frequencies, validMoves) && Shaped(observed, validMoves)
    requires state in frequencies && humanMove in validMoves
    requires observed == Observe(frequencies, state, humanMove)
    requires Distinct(firsts) && forall a :: a in firsts ==> a in validMoves
    ensures TableTotal(observed, firsts, validMoves)
         == TableTotal(frequencies, firsts, validMoves) + (if state.0 in firsts then 1 else 0)
  {
    if firsts != [] {
      RowTotalBump(frequencies, observed, validMoves, state, humanMove, firsts[0], validMoves);
      DistinctTail(firsts);
      TableTotalBump(frequencies, observed, validMoves, state, humanMove, firsts[1..]);
    }
  }

  /** Recording a round adds exactly one to the number of recorded rounds
      and keeps the table's shape. */
  lemma ObserveAddsOne(frequencies: Frequencies, validMoves: seq<Move>, state: State, humanMove: Move)
    requires Distinct(validMoves) && Shaped(frequencies, validMoves)
    requires state in frequencies && humanMove in validMoves
    ensures Shaped(Observe(frequencies, state, humanMove), validMoves)
    ensures Observations(Observe(frequencies, state, humanMove), validMoves) == Observations(frequencies, validMoves) + 1
  {
    ObserveKeepsShape(frequencies, validMoves, state, humanMove);
    TableTotalBump(frequencies, Observe(frequencies, state, humanMove), validMoves, state, humanMove, validMoves);
  }

  lemma {:induction false} RowTotalOfZeros(frequencies: Frequencies, first: Move, seconds: seq<Move>, validMoves: seq<Move>)
    requires Shaped(frequencies, validMoves) && first in validMoves
    requires forall b :: b in seconds ==> b in validMoves
    requires forall s, m :: s in frequencies && m in frequencies[s] ==> frequencies[s][m] == 0
    ensures RowTotal(frequencies, first, seconds, validMoves) == 0
  {
    if seconds != [] {
      TotalZeroIff(frequencies[(first, seconds[0])], validMoves);
      RowTotalOfZeros(frequencies, first, seconds[1..], validMoves);
    }
  }

  lemma {:induction false} TableTotalOfZeros(frequencies: Frequencies, firsts: seq<Move>, validMoves: seq<Move>)
    requires Shaped(frequencies, validMoves)
    requires forall a :: a in firsts ==> a in validMoves
    requires forall s, m :: s in frequencies && m in frequencies[s] ==> frequencies[s][m] == 0
    ensures TableTotal(frequencies, firsts, validMoves) == 0
  {
    if firsts != [] {
      RowTotalOfZeros(frequencies, firsts[0], validMoves, validMoves);
      TableTotalOfZeros(frequencies, firsts[1..], validMoves);
    }
  }

  /** The fresh table has recorded no round. */
  lemma InitialObservationsZero(validMoves: seq<Move>)
    ensures Shaped(InitialFrequencies(validMoves), validMoves)
    ensures Observations(InitialFrequencies(validMoves), validMoves) == 0
  {
    TableTotalOfZeros(InitialFrequencies(validMoves), validMoves, validMoves);
  }
}
