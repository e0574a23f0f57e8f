/**
  core/scramble.py: the 18 move tokens, scramble generation without two
  consecutive turns of one face (the random draw is a nondeterministic
  choice), and token dispatch onto the move methods of the core cube.
*/
module Scramble {

  import opened Wrappers
  import opened Faces
  import opened CoreCube

  /** `Scrambler.MOVES`, in the order the class lists them. */
  const Moves: seq<string> := [
    "U", "U'", "U2",
    "D", "D'", "D2",
    "F", "F'", "F2",
    "B", "B'", "B2",
    "R", "R'", "R2",
    "L", "L'", "L2"
  ]

  /** The scrambler object: the list of every scramble it generated. */
  datatype Scrambler = Scrambler(history: seq<seq<string>>)

  /** `Scrambler()`: no scrambles yet. */
  function NewScrambler(): (s: Scrambler)
    ensures |s.history| == 0
  {
    Scrambler([])
  }

  /** The 18 logical moves in the order of `MOVES`. */
  const AllMoves: seq<Move> := [
    Move(U, Single), Move(U, Inverse), Move(U, Double),
    Move(D, Single), Move(D, Inverse), Move(D, Double),
    Move(F, Single), Move(F, Inverse), Move(F, Double),
    Move(B, Single), Move(B, Inverse), Move(B, Double),
    Move(R, Single), Move(R, Inverse), Move(R, Double),
    Move(L, Single), Move(L, Inverse), Move(L, Double)
  ]

  /** A move's place in `AllMoves`. */
  function MoveIndex(m: Move): (i: nat)
    ensures i < 18
  {
    var rank := match m.face case U => 0 case D => 1 case F => 2 case B => 3 case R => 4 case L => 5;
    var step := match m.amount case Single => 0 case Inverse => 1 case Double => 2;
    3 * rank + step
  }

  /** `MOVES` lists the token of each logical move, each once, in the order of `AllMoves`. */
  lemma MovesTable()
    ensures |Moves| == 18 && |AllMoves| == 18
    ensures forall i :: 0 <= i < 18 ==> Moves[i] == Token(AllMoves[i]) && MoveIndex(AllMoves[i]) == i
    ensures forall m: Move :: AllMoves[MoveIndex(m)] == m
  {
    forall i | 0 <= i < 18 ensures Moves[i] == Token(AllMoves[i]) {
      TokenAt(i);
    }
  }

  lemma TokenAt(i: nat)
    requires i < 18
    ensures Moves[i] == Token(AllMoves[i])
  {
    if i < 9 {
      assert AllMoves[i].face in {U, D, F};
    }
  }

  /**
    `MOVES` holds 18 distinct tokens, exactly the history tokens of the 18
    logical moves: every move's token is listed, and every listed token is
    the token of one move.
  */
  lemma MovesAreTokens()
    ensures |Moves| == 18
    ensures forall i, j :: 0 <= i < j < |Moves| ==> Moves[i] != Moves[j]
    ensures forall m: Move :: Token(m) in Moves
    ensures forall t :: t in Moves ==> exists m: Move :: Token(m) == t
  {
    MovesTable();
    forall i, j | 0 <= i < j < 18 ensures Moves[i] != Moves[j] {
      ParseToken(AllMoves[i]);
      ParseToken(AllMoves[j]);
    }
    forall m: Move ensures Token(m) in Moves {
      assert Moves[MoveIndex(m)] == Token(m);
    }
    forall t | t in Moves ensures exists m: Move :: Token(m) == t {
      var i :| 0 <= i < 18 && Moves[i] == t;
      assert Token(AllMoves[i]) == t;
    }
  }

  // ---------------------------------------------------------------------
  // Generation
  // ---------------------------------------------------------------------

  /** The face letter a token starts with (`move[0]`). */
  function Lead(t: string): (c: char)
    requires |t| > 0
  {
    t[0]
  }

  /** No two neighbouring tokens start with the same letter. */
  predicate NoRepeatedFace(s: seq<string>)
    requires forall i :: 0 <= i < |s| ==> |s[i]| > 0
  {
    forall i :: 0 < i < |s| ==> Lead(s[i - 1]) != Lead(s[i])
  }

  /** Some token the redraw loop accepts after a token starting with `last`. */
  function Acceptable(last: Option<char>): (t: string)
    ensures t in Moves && |t| > 0 && (last.None? || Lead(t) != last.value)
  {
    if last == Some('U') then "D" else "U"
  }

  /**
    `generate_scramble(length)`: `length` tokens (none for a negative length,
    as `range` gives), each drawn from `MOVES` and redrawn while it starts
    with the previous token's face letter; the scramble is appended to the
    history and returned. The draw is any token the loop could accept.
  */
  method GenerateScramble(s: Scrambler, length: int) returns (r: Scrambler, scramble: seq<string>)
    ensures |scramble| == if length < 0 then 0 else length
    ensures forall i :: 0 <= i < |scramble| ==> scramble[i] in Moves
    ensures NoRepeatedFace(scramble)
    ensures r.history == s.history + [scramble]
  {
    scramble := [];
    var last: Option<char> := None;
    var k := 0;
    while k < length
      invariant 0 <= k <= if length < 0 then 0 else length
      invariant |scramble| == k
      invariant forall i :: 0 <= i < |scramble| ==> scramble[i] in Moves
      invariant NoRepeatedFace(scramble)
      invariant last.Some? <==> |scramble| > 0
      invariant last.Some? ==> last.value == Lead(scramble[|scramble| - 1])
    {
      assert Acceptable(last) in Moves;  // a witness for the choice below
      var move :| move in Moves && (last.None? || Lead(move) != last.value);
      var longer := scramble + [move];
      assert forall i :: 0 <= i < |scramble| ==> longer[i] == scramble[i];
      scramble := longer;
      last := Some(Lead(move));
      k := k + 1;
    }
    r := Scrambler(s.history + [scramble]);
  }

  // ---------------------------------------------------------------------
  // Dispatch
  // ---------------------------------------------------------------------

  /** What a token can go wrong with in `apply_scramble`. */
  datatype ScrambleError =
    | EmptyToken                 // IndexError: `move[0]` of the empty string
    | NoSuchMove(name: string)   // AttributeError: the cube has no method of that name
    | UnboundMethod              // UnboundLocalError: a bad modifier before any method was chosen
    | BadModifier(token: string) // a modifier other than "", "'" and "2"

  /**
    The method one token selects: the face letter `move[0]` and the
    modifier `move[1:]`. "" selects `X`, "'" selects `X_prime` and "2"
    selects `X2`; a letter the cube has no method for is an `AttributeError`.
    Any other modifier selects nothing (`BadModifier`).
  */
  function ParseMove(t: string): (r: Result<Move, ScrambleError>)
    ensures r.Ok? ==> Token(r.value) == t
    ensures |t| == 0 ==> r == Err(EmptyToken)
    ensures |t| > 0 && t[1..] !in {"", "'", "2"} ==> r == Err(BadModifier(t))
  {
    if |t| == 0 then Err(EmptyToken)
    else
      var face := t[..1];
      var modifier := t[1..];
      assert t == face + modifier;
      if modifier == "" then
        match ParseFace(face)
        case Some(x) => Ok(Move(x, Single))
        case None => Err(NoSuchMove(face))
      else if modifier == "'" then
        match ParseFace(face)
        case Some(x) => Ok(Move(x, Inverse))
        case None => Err(NoSuchMove(face + "_prime"))
      else if modifier == "2" then
        match ParseFace(face)
        case Some(x) => Ok(Move(x, Double))
        case None => Err(NoSuchMove(face + "2"))
      else Err(BadModifier(t))
  }

  /** Every move's token selects that move. */
  lemma ParseToken(m: Move)
    ensures ParseMove(Token(m)) == Ok(m)
  {
    FaceLetterRoundTrip(m.face);
    var t := Token(m);
    var x := FaceLetter(m.face);
    match m.amount
    case Single =>
      assert t == x && t[..1] == x && t[1..] == "";
    case Inverse =>
      assert t == x + "'" && t[..1] == x && t[1..] == "'";
    case Double =>
      assert t == x + "2" && t[..1] == x && t[1..] == "2";
  }

  /** A token selects a move exactly when it is one of `MOVES`. */
  lemma ParseMoveAccepts(t: string)
    ensures ParseMove(t).Ok? <==> t in Moves
  {
    MovesAreTokens();
    if t in Moves {
      var m :| Token(m) == t;
      ParseToken(m);
    }
  }

  /** The moves a run of `apply_scramble` performed, in order, and the exception that ended it, if any. */
  datatype Run = Run(performed: seq<Move>, raised: Option<ScrambleError>)

  /**
    `apply_scramble` as the selection is evidently meant: each token performs
    its own move, in order, and the first token that selects no method ends
    the run with its error, after every move before it was performed.
  */
  function Dispatch(ts: seq<string>): (r: Run)
    ensures |r.performed| <= |ts|
    ensures forall i :: 0 <= i < |r.performed| ==> ParseMove(ts[i]) == Ok(r.performed[i])
    ensures r.raised.None? ==> |r.performed| == |ts|
    ensures r.raised.Some? ==> |r.performed| < |ts| && ParseMove(ts[|r.performed|]) == Err(r.raised.value)
    decreases |ts|
  {
    if |ts| == 0 then Run([], None)
    else
      match ParseMove(ts[0])
      case Err(e) => Run([], Some(e))
      case Ok(m) =>
        var rest := Dispatch(ts[1..]);
        Run([m] + rest.performed, rest.raised)
  }

  /** A run performs nothing it was not asked to: the tokens of the performed moves are the tokens consumed. */
  lemma DispatchTokens(ts: seq<string>)
    ensures Tokens(Dispatch(ts).performed) == ts[..|Dispatch(ts).performed|]
    ensures Dispatch(ts).raised.None? <==> forall i :: 0 <= i < |ts| ==> ts[i] in Moves
  {
    var run := Dispatch(ts);
    var n := |run.performed|;
    forall i | 0 <= i < n ensures Tokens(run.performed)[i] == ts[i] {
      assert ParseMove(ts[i]) == Ok(run.performed[i]);
    }
    forall i | 0 <= i < |ts| ensures ParseMove(ts[i]).Ok? <==> ts[i] in Moves {
      ParseMoveAccepts(ts[i]);
    }
    if run.raised.Some? {
      ParseMoveAccepts(ts[n]);
    }
  }

  /** Dispatching the tokens of a move sequence performs exactly that sequence. */
  lemma {:induction false} DispatchRoundTrip(ms: seq<Move>)
    ensures Dispatch(Tokens(ms)) == Run(ms, None)
    decreases |ms|
  {
    if |ms| > 0 {
      var ts := Tokens(ms);
      assert |ts| > 0 && ts[0] == Token(ms[0]);
      ParseToken(ms[0]);
      assert ts[1..] == Tokens(ms[1..]);
      DispatchRoundTrip(ms[1..]);
      assert Dispatch(ts) == Run([ms[0]] + ms[1..], None);
      assert ms == [ms[0]] + ms[1..];
    }
  }

  /**
    `apply_scramble` as written: a token whose modifier is not "", "'" or
    "2" leaves `method` as the previous iteration bound it, so the previous
    move is performed again; on the first token there is no such binding and
    the run ends with `UnboundLocalError`. `prev` is the method bound so far.
  */
  function DispatchAsWritten(ts: seq<string>, prev: Option<Move>): (r: Run)
    ensures |r.performed| <= |ts|
    decreases |ts|
  {
    if |ts| == 0 then Run([], None)
    else
      var step :=
        match ParseMove(ts[0])
        case Ok(m) => Ok(m)
        case Err(BadModifier(_)) => if prev.Some? then Ok(prev.value) else Err(UnboundMethod)
        case Err(e) => Err(e);
      match step
      case Err(e) => Run([], Some(e))
      case Ok(m) =>
        var rest := DispatchAsWritten(ts[1..], Some(m));
        Run([m] + rest.performed, rest.raised)
  }

  /** On tokens that all come from `MOVES` the code as written and the intended dispatch agree. */
  lemma {:induction false} AsWrittenAgreesOnMoves(ts: seq<string>, prev: Option<Move>)
    requires forall i :: 0 <= i < |ts| ==> ts[i] in Moves
    ensures DispatchAsWritten(ts, prev) == Dispatch(ts)
    decreases |ts|
  {
    if |ts| > 0 {
      AsWrittenAgreesOnMoves(ts[1..], Some(ParseMove(ts[0]).value));
    }
  }

  /**
    The discrepancy: `["U", "U3"]` turns U twice without complaint, though
    "U3" is no move (the intended dispatch stops at it with an error), and
    `["U3"]` alone ends in `UnboundLocalError`.
  */
  lemma BadModifierReusesPreviousMove()
    ensures DispatchAsWritten(["U", "U3"], None) == Run([Move(U, Single), Move(U, Single)], None)
    ensures Dispatch(["U", "U3"]) == Run([Move(U, Single)], Some(BadModifier("U3")))
    ensures DispatchAsWritten(["U3"], None) == Run([], Some(UnboundMethod))
  {
    assert "U3"[..1] == "U" && "U3"[1..] == "3";
    assert ["U", "U3"][1..] == ["U3"];
    assert ParseMove("U") == Ok(Move(U, Single));
    assert ParseMove("U3") == Err(BadModifier("U3"));
  }

  /**
    `apply_scramble(cube, scramble)` on the core cube, with the intended
    dispatch: the moves go through the cube's own methods in token order, so
    the history grows by one token per performed move; a scramble of tokens
    from `MOVES` is performed whole and extends the history by exactly its
    tokens, in order. A bad token ends the call, leaving the moves before it
    done.
  */
  method ApplyScramble(c: Cube, scramble: seq<string>) returns (r: Cube, raised: Option<ScrambleError>)
    requires Complete(c.pieces)
    ensures Complete(r.pieces)
    ensures raised == Dispatch(scramble).raised
    ensures r.pieces == TurnAll(c.pieces, Dispatch(scramble).performed)
    ensures r.history == c.history + scramble[..|Dispatch(scramble).performed|]
    ensures (forall i :: 0 <= i < |scramble| ==> scramble[i] in Moves) ==>
              raised.None? && r.history == c.history + scramble
  {
    var run := Dispatch(scramble);
    DispatchTokens(scramble);
    r := PerformAll(c, run.performed);
    raised := run.raised;
  }
}
