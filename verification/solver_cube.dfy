/**
  The cube of solver/cube.py: the older copy of the engine. It has the same
  fetch/rotate/apply/rearrange helpers (`_rotate_edges` and `_rotate_corners`
  are one procedure here, `RotateLayer`), its own transcription of the six
  move tables, prime moves as three quarter-turns, no half-turns and no move
  history.

  A raised exception does not roll anything back, so an operation's outcome
  is the state it leaves together with the exception it raised, if any.

  The helpers read and write a piece through `get_position`, `get_name`,
  `set_faces` and `set_name` (solver/cube.py:177, 196-198, 208-210), the
  accessors of the core cube's pieces. The classes of solver/pieces.py have
  only `set_position` and `get_faces`, so on those classes the first present
  key would raise `AttributeError`. This module uses the core's piece record
  (`PieceObj`, with name, position and colour map), the pieces the helpers
  are written against.
*/
module Solver {

  import opened Wrappers
  import opened Faces
  import opened Slots
  import opened Engine
  import CoreCube
  import Invariants
  import Projection

  /** The solver's cube object: only the piece registry. */
  datatype SolverCube = SolverCube(pieces: Registry)

  /** The state a call leaves and the exception it raised, if any. */
  datatype Outcome = Outcome(cube: SolverCube, raised: Option<CubeError>)

  /** The edge keys each rotation method passes to `_rotate_edges`. */
  function EdgeKeys(f: Face): seq<Slot> {
    match f
    case U => [Edge(UF), Edge(UL), Edge(UB), Edge(UR)]
    case D => [Edge(DF), Edge(DR), Edge(DB), Edge(DL)]
    case F => [Edge(UF), Edge(FR), Edge(DF), Edge(FL)]
    case B => [Edge(UB), Edge(BL), Edge(DB), Edge(BR)]
    case R => [Edge(UR), Edge(BR), Edge(DR), Edge(FR)]
    case L => [Edge(UL), Edge(FL), Edge(DL), Edge(BL)]
  }

  /** The corner keys each rotation method passes to `_rotate_corners`. */
  function CornerKeys(f: Face): seq<Slot> {
    match f
    case U => [Corner(UFL), Corner(UBL), Corner(UBR), Corner(UFR)]
    case D => [Corner(DFL), Corner(DFR), Corner(DBR), Corner(DBL)]
    case F => [Corner(UFL), Corner(UFR), Corner(DFR), Corner(DFL)]
    case B => [Corner(UBL), Corner(DBL), Corner(DBR), Corner(UBR)]
    case R => [Corner(UFR), Corner(UBR), Corner(DBR), Corner(DFR)]
    case L => [Corner(UFL), Corner(DFL), Corner(DBL), Corner(UBL)]
  }

  /**
    `_rotate_edges` and `_rotate_corners`, which run the same steps: a
    missing key (the first one) or a bad face token raises before anything
    changes; on distinct present keys and a face letter the colour maps move
    one key along the list, rewritten through the face's table, and every key
    keeps its name and position.
  */
  function RotateLayer(c: SolverCube, keys: seq<Slot>, face: string): (r: Outcome)
    ensures r.raised.Some? ==> r.cube == c
    ensures r.raised.None? <==> AllIn(c.pieces, keys) && ParseFace(face).Some? && |keys| > 0
    ensures !AllIn(c.pieces, keys) ==>
              exists j :: 0 <= j < |keys| && keys[j] !in c.pieces && AllIn(c.pieces, keys[..j])
                          && r.raised == Some(PieceNotFound(keys[j]))
    ensures AllIn(c.pieces, keys) && ParseFace(face).None? ==> r.raised == Some(InvalidFaceToken(face))
    ensures |keys| > 0 && Distinct(keys) && AllIn(c.pieces, keys) && ParseFace(face).Some? ==>
              r == Outcome(SolverCube(Shift(c.pieces, keys, ParseFace(face).value)), None)
  {
    RotatePiecesErrors(c.pieces, keys, face);
    if |keys| > 0 && Distinct(keys) && AllIn(c.pieces, keys) && ParseFace(face).Some? then
      RotatePiecesShifts(c.pieces, keys, ParseFace(face).value);
      Outcome(SolverCube(RotatePieces(c.pieces, keys, face).value), None)
    else
      match RotatePieces(c.pieces, keys, face)
      case Ok(reg) => Outcome(SolverCube(reg), None)
      case Err(e) => Outcome(c, Some(e))
  }

  /** The methods `U`, `D`, `F`, `B`, `R`, `L`: the edge cycle, then the corner cycle. */
  function Quarter(c: SolverCube, f: Face): Outcome {
    var afterEdges := RotateLayer(c, EdgeKeys(f), FaceLetter(f));
    if afterEdges.raised.Some? then afterEdges
    else RotateLayer(afterEdges.cube, CornerKeys(f), FaceLetter(f))
  }

  /**
    The exceptions of a quarter-turn: a missing edge key raises with the cube
    untouched; a missing corner key raises after the edges have already
    turned, and that partial turn is the state left behind.
  */
  lemma QuarterErrors(c: SolverCube, f: Face)
    ensures !AllIn(c.pieces, EdgeKeys(f)) ==>
              Quarter(c, f).cube == c && Quarter(c, f).raised.Some? && Quarter(c, f).raised.value.PieceNotFound?
    ensures AllIn(c.pieces, EdgeKeys(f)) && !AllIn(c.pieces, CornerKeys(f)) ==>
              Quarter(c, f).cube == SolverCube(Shift(c.pieces, EdgeKeys(f), f))
              && Quarter(c, f).raised.Some? && Quarter(c, f).raised.value.PieceNotFound?
  {
    FaceLetterRoundTrip(f);
    var E, C := EdgeKeys(f), CornerKeys(f);
    var afterEdges := RotateLayer(c, E, FaceLetter(f));
    if AllIn(c.pieces, E) {
      CoreCube.CyclesShape(f);
      assert E == CoreCube.EdgeCycle(f);
      assert afterEdges == Outcome(SolverCube(Shift(c.pieces, E, f)), None);
      assert afterEdges.cube.pieces.Keys == c.pieces.Keys;
      assert AllIn(afterEdges.cube.pieces, C) <==> AllIn(c.pieces, C);
    }
  }

  /** The methods `X_prime`: three quarter-turns; an exception in any of them ends the move there. */
  function Prime(c: SolverCube, f: Face): (r: Outcome)
    ensures Quarter(c, f).raised.Some? ==> r == Quarter(c, f)
  {
    var o1 := Quarter(c, f);
    if o1.raised.Some? then o1
    else
      var o2 := Quarter(o1.cube, f);
      if o2.raised.Some? then o2
      else Quarter(o2.cube, f)
  }

  /**
    The solver's six quarter-turns list the same cycles as core/cube.py and
    so, on a registry holding every key, make the same slot-level change: no
    exception, and `Spin` of the core model.
  */
  lemma QuarterIsCoreSpin(c: SolverCube, f: Face)
    requires CoreCube.Total(c.pieces)
    ensures Quarter(c, f) == Outcome(SolverCube(CoreCube.Spin(c.pieces, f)), None)
  {
    CoreCube.CycleFacts(c.pieces, f);
    assert EdgeKeys(f) == CoreCube.EdgeCycle(f) && CornerKeys(f) == CoreCube.CornerCycle(f);
    var E, C := EdgeKeys(f), CornerKeys(f);
    FaceLetterRoundTrip(f);
    var mid := Shift(c.pieces, E, f);
    assert AllIn(mid, C);
    assert RotateLayer(c, E, FaceLetter(f)) == Outcome(SolverCube(mid), None);
    assert RotateLayer(SolverCube(mid), C, FaceLetter(f)) == Outcome(SolverCube(Shift(mid, C, f)), None);
    CoreCube.SpinIsShifts(c.pieces, f);
  }

  /** A prime move on a full registry raises nothing and is three core quarter-turns, as the core's `X'` is. */
  lemma PrimeIsCorePrime(c: SolverCube, f: Face)
    requires CoreCube.Total(c.pieces)
    ensures Prime(c, f) == Outcome(SolverCube(CoreCube.Spin(CoreCube.Spin(CoreCube.Spin(c.pieces, f), f), f)), None)
  {
    var r1 := CoreCube.Spin(c.pieces, f);
    var r2 := CoreCube.Spin(r1, f);
    var r3 := CoreCube.Spin(r2, f);
    QuarterIsCoreSpin(c, f);
    QuarterIsCoreSpin(SolverCube(r1), f);
    QuarterIsCoreSpin(SolverCube(r2), f);
    assert Quarter(c, f) == Outcome(SolverCube(r1), None);
    assert Quarter(SolverCube(r1), f) == Outcome(SolverCube(r2), None);
  }

  /** `X` then `X_prime`, or `X_prime` then `X`, leaves a full registry as it was. */
  lemma PrimeUndoesQuarter(c: SolverCube, f: Face)
    requires CoreCube.Total(c.pieces)
    ensures Prime(Quarter(c, f).cube, f) == Outcome(c, None)
    ensures Quarter(Prime(c, f).cube, f) == Outcome(c, None)
  {
    var r1 := CoreCube.Spin(c.pieces, f);
    var r2 := CoreCube.Spin(r1, f);
    var r3 := CoreCube.Spin(r2, f);
    QuarterIsCoreSpin(c, f);
    QuarterIsCoreSpin(SolverCube(r1), f);
    QuarterIsCoreSpin(SolverCube(r2), f);
    QuarterIsCoreSpin(SolverCube(r3), f);
    CoreCube.SpinFour(c.pieces, f);
  }

  /** Every solver move keeps the cube invariant of the core model. */
  lemma QuarterKeepsValid(c: SolverCube, f: Face)
    requires Invariants.Valid(c.pieces)
    ensures Quarter(c, f).raised.None? && Invariants.Valid(Quarter(c, f).cube.pieces)
  {
    QuarterIsCoreSpin(c, f);
    Invariants.SpinKeepsValid(c.pieces, f);
  }

  /**
    `get_face`: `KeyError` for an argument that is not a `Face`, otherwise the
    same per-face coordinate map, grid and colour names as core/cube.py.
  */
  method GetFace(c: SolverCube, arg: Projection.FaceArg) returns (r: Result<seq<seq<string>>, CubeError>)
    ensures arg.OtherArg? ==> r == Err(NotAFace)
    ensures arg.FaceArg? ==> r == Ok(Projection.FaceGrid(c.pieces, arg.face))
  {
    r := Projection.GetFace(CoreCube.Cube(c.pieces, []), arg);
  }
}
