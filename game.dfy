/** The game loop: the score counters, the frequency table, the previous
    round and the computer's pending move, updated once per response. */
module Game {
  import opened RuleTable
  import opened Predictor

  /** What one response at the prompt leads to. */
  datatype Reply = Quit | Invalid | Played(outcome: Outcome)

  /** The tokens that end the game (already upper-cased). */
  predicate IsQuit(response: string) {
    response == "Q" || response == "QUIT"
  }

  /** The number of rounds a sequence of responses plays: the valid moves
      before the first quit token. */
  function GamesBeforeQuit(responses: seq<string>, validMoves: seq<Move>): (n: nat)
    ensures n <= |responses|
    ensures responses != [] && IsQuit(responses[0]) ==> n == 0
  {
    if responses == [] || IsQuit(responses[0]) then 0
    else (if responses[0] in validMoves then 1 else 0) + GamesBeforeQuit(responses[1..], validMoves)
  }

  /** The position of the first quit token, or the length when there is
      none: the loop reads exactly the responses before it. */
  function QuitIndex(responses: seq<string>): (k: nat)
    ensures k <= |responses|
    ensures k < |responses| ==> IsQuit(responses[k])
  {
    if responses == [] || IsQuit(responses[0]) then 0 else 1 + QuitIndex(responses[1..])
  }

  /** No response before `QuitIndex` is a quit token. */
  lemma {:induction false} NoQuitBeforeQuitIndex(responses: seq<string>, j: nat)
    requires j < QuitIndex(responses)
    ensures !IsQuit(responses[j])
  {
    if j > 0 {
      NoQuitBeforeQuitIndex(responses[1..], j - 1);
    }
  }

  /** The number of responses that are valid moves. */
  function CountValid(responses: seq<string>, validMoves: seq<Move>): (n: nat)
    ensures n <= |responses|
  {
    if responses == [] then 0
    else (if responses[0] in validMoves then 1 else 0) + CountValid(responses[1..], validMoves)
  }

  /** The rounds played are exactly the valid moves among the responses the
      loop reads, those before the first quit token. */
  lemma {:induction false} GamesBeforeQuitCountsRead(responses: seq<string>, validMoves: seq<Move>)
    ensures GamesBeforeQuit(responses, validMoves) == CountValid(responses[..QuitIndex(responses)], validMoves)
  {
    if responses != [] && !IsQuit(responses[0]) {
      GamesBeforeQuitCountsRead(responses[1..], validMoves);
      assert responses[..QuitIndex(responses)][1..] == responses[1..][..QuitIndex(responses[1..])];
    }
  }

  class Session {
    const losesTo: LosesTo
    const validMoves: seq<Move>
    var wins: nat
    var losses: nat
    var ties: nat
    var gamesPlayed: nat
    var frequencies: Frequencies
    var state: State
    var aiMove: Move

    /** Every round played is scored exactly once and recorded exactly once
        in the table; the previous round and the pending move are valid. */
    ghost predicate Valid()
      reads this
    {
      && ModelValid()
      && gamesPlayed == wins + losses + ties
      && Observations(frequencies, validMoves) == gamesPlayed
    }

    /** The table has its shape, and the previous round and the pending
        move are valid. */
    ghost predicate ModelValid()
      reads this
    {
      && WellFormed(losesTo, validMoves)
      && Shaped(frequencies, validMoves)
      && state in frequencies
      && aiMove in validMoves
    }

    /** Sets up a game from a rule table and the initial previous round
        (drawn at random by the caller), and picks the computer's first move. */
    constructor (losesTo: LosesTo, validMoves: seq<Move>, initialState: State)
      requires WellFormed(losesTo, validMoves)
      requires initialState.0 in validMoves && initialState.1 in validMoves
      ensures Valid()
      ensures this.losesTo == losesTo && this.validMoves == validMoves
      ensures wins == 0 && losses == 0 && ties == 0 && gamesPlayed == 0
      ensures frequencies == InitialFrequencies(validMoves)
      ensures state == initialState
      ensures CanPick(losesTo, validMoves, frequencies, state, aiMove)
    {
      var initial := InitialFrequencies(validMoves);
      var first := PickMove(losesTo, validMoves, initial, initialState);
      InitialObservationsZero(validMoves);
      this.losesTo := losesTo;
      this.validMoves := validMoves;
      wins, losses, ties, gamesPlayed := 0, 0, 0, 0;
      frequencies := initial;
      state := initialState;
      aiMove := first;
    }

    /** Handles one response at the prompt: a quit token or an invalid token
        changes nothing; a valid move plays a round. */
    method Respond(response: string) returns (reply: Reply)
      requires Valid()
      modifies this
      ensures Valid()
      ensures reply.Quit? <==> IsQuit(response)
      ensures reply.Invalid? <==> !IsQuit(response) && response !in validMoves
      ensures !reply.Played? ==> unchanged(this)
      ensures reply.Played? ==>
        && reply.outcome == Judge(losesTo, response, old(aiMove))
        && losses == old(losses) + (if reply.outcome == Loss then 1 else 0)
        && wins == old(wins) + (if reply.outcome == Win then 1 else 0)
        && ties == old(ties) + (if reply.outcome == Tie then 1 else 0)
        && gamesPlayed == old(gamesPlayed) + 1
        && frequencies == Observe(old(frequencies), old(state), response)
        && state == (response, old(aiMove))
        && CanPick(losesTo, validMoves, frequencies, state, aiMove)
    {
      if IsQuit(response) {
        return Quit;
      }
      if response !in validMoves {
        return Invalid;
      }
      var outcome := PlayRound(response);
      reply := Played(outcome);
    }

    /** Plays one round with a valid human move against the pending
        computer move: scores it, records the human move under the previous
        round, makes this round the previous one and picks the next computer
        move. */
    method PlayRound(humanMove: Move) returns (outcome: Outcome)
      requires Valid() && humanMove in validMoves
      modifies this
      ensures Valid()
      ensures outcome == Judge(losesTo, humanMove, old(aiMove))
      ensures losses == old(losses) + (if outcome == Loss then 1 else 0)
      ensures wins == old(wins) + (if outcome == Win then 1 else 0)
      ensures ties == old(ties) + (if outcome == Tie then 1 else 0)
      ensures gamesPlayed == old(gamesPlayed) + 1
      ensures frequencies == Observe(old(frequencies), old(state), humanMove)
      ensures state == (humanMove, old(aiMove))
      ensures CanPick(losesTo, validMoves, frequencies, state, aiMove)
    {
      outcome := Judge(losesTo, humanMove, aiMove);
      Score(outcome);
      Learn(humanMove);
    }

    /** Scores a round: exactly one of losses, wins and ties goes up, and so
        does the number of games played. */
    method Score(outcome: Outcome)
      modifies this`wins, this`losses, this`ties, this`gamesPlayed
      ensures losses == old(losses) + (if outcome == Loss then 1 else 0)
      ensures wins == old(wins) + (if outcome == Win then 1 else 0)
      ensures ties == old(ties) + (if outcome == Tie then 1 else 0)
      ensures gamesPlayed == old(gamesPlayed) + 1
    {
      match outcome {
        case Loss => losses := losses + 1;
        case Win => wins := wins + 1;
        case Tie => ties := ties + 1;
      }
      gamesPlayed := gamesPlayed + 1;
    }

    /** Records the human move under the previous round, makes the round just
        played the previous one, and picks the next computer move. */
    method Learn(humanMove: Move)
      requires ModelValid() && humanMove in validMoves
      modifies this`frequencies, this`state, this`aiMove
      ensures ModelValid()
      ensures frequencies == Observe(old(frequencies), old(state), humanMove)
      ensures Observations(frequencies, validMoves) == Observations(old(frequencies), validMoves) + 1
      ensures state == (humanMove, old(aiMove))
      ensures CanPick(losesTo, validMoves, frequencies, state, aiMove)
    {
      ObserveAddsOne(frequencies, validMoves, state, humanMove);
      frequencies := Observe(frequencies, state, humanMove);
      state := (humanMove, aiMove);
      aiMove := PickMove(losesTo, validMoves, frequencies, state);
    }

    /** Runs the prompt loop over the responses the player types, until a
        quit token or the end of the input. Returns the responses not read:
        empty, or starting with the quit token. */
    method Play(responses: seq<string>) returns (rest: seq<string>)
      requires Valid()
      modifies this
      ensures Valid()
      ensures rest == responses[QuitIndex(responses)..]
      ensures gamesPlayed == old(gamesPlayed) + GamesBeforeQuit(responses, validMoves)
    {
      var i := 0;
      while i < |responses| && !IsQuit(responses[i])
        invariant 0 <= i <= QuitIndex(responses)
        invariant i + QuitIndex(responses[i..]) == QuitIndex(responses)
        invariant Valid()
        invariant gamesPlayed + GamesBeforeQuit(responses[i..], validMoves)
               == old(gamesPlayed) + GamesBeforeQuit(responses, validMoves)
      {
        assert responses[i..][1..] == responses[i + 1..];
        assert GamesBeforeQuit(responses[i..], validMoves)
            == (if responses[i] in validMoves then 1 else 0) + GamesBeforeQuit(responses[i + 1..], validMoves);
        var _ := Respond(responses[i]);
        i := i + 1;
      }
      rest := responses[i..];
    }
  }
}
