/**
  The cube of core/cube.py: 26 pieces in a registry keyed by slot label, the
  six clockwise quarter-turns as two 4-cycles each, the half-turns and prime
  moves built from them, and the move history.
*/
module CoreCube {

  import opened Wrappers
  import opened Faces
  import opened Slots
  import opened Engine

  /** The four edge keys a clockwise quarter-turn of `f` cycles, in the order the move method lists them. */
  function EdgeCycle(f: Face): seq<Slot> {
    match f
    case U => [Edge(UF), Edge(UL), Edge(UB), Edge(UR)]
    case D => [Edge(DF), Edge(DR), Edge(DB), Edge(DL)]
    case F => [Edge(UF), Edge(FR), Edge(DF), Edge(FL)]
    case B => [Edge(UB), Edge(BL), Edge(DB), Edge(BR)]
    case R => [Edge(UR), Edge(BR), Edge(DR), Edge(FR)]
    case L => [Edge(UL), Edge(FL), Edge(DL), Edge(BL)]
  }

  /** The four corner keys a clockwise quarter-turn of `f` cycles. */
  function CornerCycle(f: Face): seq<Slot> {
    match f
    case U => [Corner(UFL), Corner(UBL), Corner(UBR), Corner(UFR)]
    case D => [Corner(DFL), Corner(DFR), Corner(DBR), Corner(DBL)]
    case F => [Corner(UFL), Corner(UFR), Corner(DFR), Corner(DFL)]
    case B => [Corner(UBL), Corner(DBL), Corner(DBR), Corner(UBR)]
    case R => [Corner(UFR), Corner(UBR), Corner(DBR), Corner(DFR)]
    case L => [Corner(UFL), Corner(DFL), Corner(DBL), Corner(UBL)]
  }

  lemma CyclesShape(f: Face)
    ensures |EdgeCycle(f)| == 4 && Distinct(EdgeCycle(f))
    ensures |CornerCycle(f)| == 4 && Distinct(CornerCycle(f))
    ensures forall i :: 0 <= i < 4 ==> EdgeCycle(f)[i].Edge? && CornerCycle(f)[i].Corner?
  {
  }

  /** The slots a quarter-turn of `f` moves a colour map into. */
  predicate OnLayer(f: Face, s: Slot) {
    s in EdgeCycle(f) || s in CornerCycle(f)
  }

  /**
    The two cycles of a face are exactly the eight non-centre slots whose
    label names that face.
  */
  lemma OnLayerIsGeometric(f: Face, s: Slot)
    ensures OnLayer(f, s) <==> !s.Center? && f in LabelFaces(s)
  {
    match s
    case Center(_) =>
    case Edge(e) => EdgeLayers(f, e);
    case Corner(c) => CornerLayers(f, c);
  }

  lemma EdgeLayers(f: Face, e: EdgeSlot)
    ensures OnLayer(f, Edge(e)) <==> f in LabelFaces(Edge(e))
  {
    CyclesShape(f);
    assert Edge(e) !in CornerCycle(f);
    EdgeCycleExact(f, e);
  }

  lemma CornerLayers(f: Face, c: CornerSlot)
    ensures OnLayer(f, Corner(c)) <==> f in LabelFaces(Corner(c))
  {
    CyclesShape(f);
    assert Corner(c) !in EdgeCycle(f);
    CornerCycleExact(f, c);
  }

  lemma {:induction false} EdgeCycleExact(f: Face, e: EdgeSlot)
    ensures Edge(e) in EdgeCycle(f) <==> f in LabelFaces(Edge(e))
  {
    match f
    case U => case D => case F => case B => case L => case R =>
  }

  lemma {:induction false} CornerCycleExact(f: Face, c: CornerSlot)
    ensures Corner(c) in CornerCycle(f) <==> f in LabelFaces(Corner(c))
  {
    match f
    case U => case D => case F => case B => case L => case R =>
  }

  /** The slot whose colour map a clockwise quarter-turn of `f` brings into `s` (`s` itself off the layer). */
  function Source(f: Face, s: Slot): Slot {
    if s in EdgeCycle(f) then CycPrev(EdgeCycle(f), s)
    else if s in CornerCycle(f) then CycPrev(CornerCycle(f), s)
    else s
  }

  /** The slot a clockwise quarter-turn of `f` carries the colour map of `s` to. */
  function Dest(f: Face, s: Slot): Slot {
    if s in EdgeCycle(f) then CycNext(EdgeCycle(f), s)
    else if s in CornerCycle(f) then CycNext(CornerCycle(f), s)
    else s
  }

  /** On a cycle, the source of the j-th key is the key before it. */
  lemma SourceOnCycles(f: Face)
    ensures forall j {:trigger Source(f, EdgeCycle(f)[j])} :: 0 <= j < 4 ==>
              Source(f, EdgeCycle(f)[j]) == EdgeCycle(f)[Pred(j, 4)]
    ensures forall j {:trigger Source(f, CornerCycle(f)[j])} :: 0 <= j < 4 ==>
              Source(f, CornerCycle(f)[j]) == CornerCycle(f)[Pred(j, 4)]
  {
    forall j | 0 <= j < 4
      ensures Source(f, EdgeCycle(f)[j]) == EdgeCycle(f)[Pred(j, 4)]
      ensures Source(f, CornerCycle(f)[j]) == CornerCycle(f)[Pred(j, 4)]
    {
      SourceAt(f, j);
    }
  }

  lemma SourceAt(f: Face, j: int)
    requires 0 <= j < 4
    ensures Source(f, EdgeCycle(f)[j]) == EdgeCycle(f)[Pred(j, 4)]
    ensures Source(f, CornerCycle(f)[j]) == CornerCycle(f)[Pred(j, 4)]
  {
    CyclesShape(f);
    var E, C := EdgeCycle(f), CornerCycle(f);
    IndexOfDistinct(E, j);
    IndexOfDistinct(C, j);
    assert C[j].Corner?;
    assert C[j] !in E;
  }

  /**
    `Source` and `Dest` undo each other, keep a slot on or off the layer, and
    four steps of `Source` come back to the start: a quarter-turn permutes the
    26 slots as two 4-cycles.
  */
  lemma SourceDest(f: Face, s: Slot)
    ensures Dest(f, Source(f, s)) == s && Source(f, Dest(f, s)) == s
    ensures OnLayer(f, Source(f, s)) <==> OnLayer(f, s)
    ensures OnLayer(f, Dest(f, s)) <==> OnLayer(f, s)
    ensures Source(f, Source(f, Source(f, Source(f, s)))) == s
    ensures Source(f, Source(f, Source(f, s))) == Dest(f, s)
  {
    CyclesShape(f);
    var E, C := EdgeCycle(f), CornerCycle(f);
    if s in E {
      CycleLaws(E, s);
      CycleLaws(E, CycPrev(E, s));
      CycleLaws(E, CycPrev(E, CycPrev(E, s)));
      CycleLaws(E, CycPrev(E, CycPrev(E, CycPrev(E, s))));
    } else if s in C {
      CycleLaws(C, s);
      CycleLaws(C, CycPrev(C, s));
      CycleLaws(C, CycPrev(C, CycPrev(C, s)));
      CycleLaws(C, CycPrev(C, CycPrev(C, CycPrev(C, s))));
      assert forall t :: t in C ==> t !in E;
    }
  }

  /** Every slot present. */
  ghost predicate Total(reg: Registry) {
    forall s: Slot :: s in reg
  }

  /**
    The registry invariant the constructor establishes: every slot present,
    and the piece stored under each key carries that key as its name and the
    key's own coordinate as its position.
  */
  ghost predicate Complete(reg: Registry) {
    forall s: Slot :: s in reg && reg[s].name == s && reg[s].position == Home(s)
  }

  /**
    The slot-level reading of a quarter-turn of `f`: on the face's layer the
    colour map of `Source(f, s)` arrives at `s`, rewritten through the face's
    table; everything else, names and positions included, stays.
  */
  function Spin(reg: Registry, f: Face): (r: Registry)
    requires Total(reg)
    ensures Total(r)
  {
    map s | s in reg :: if OnLayer(f, s) then reg[s].(faces := Rewrite(f, reg[Source(f, s)].faces)) else reg[s]
  }

  /** The body of a quarter-turn method before it logs: rotate the edge cycle, then the corner cycle. */
  function TurnFace(reg: Registry, f: Face): Result<Registry, CubeError> {
    var afterEdges :- RotatePieces(reg, EdgeCycle(f), FaceLetter(f));
    RotatePieces(afterEdges, CornerCycle(f), FaceLetter(f))
  }

  /** Two shifts along a face's cycles, edges first, are the slot-level quarter-turn. */
  lemma SpinIsShifts(reg: Registry, f: Face)
    requires Total(reg)
    ensures Spin(reg, f) == Shift(Shift(reg, EdgeCycle(f), f), CornerCycle(f), f)
  {
    CyclesShape(f);
    var E, C := EdgeCycle(f), CornerCycle(f);
    assert forall k :: k in C ==> k !in E;
    var r2 := Shift(Shift(reg, E, f), C, f);
    var sp := Spin(reg, f);
    forall s | s in sp ensures sp[s] == r2[s] {
      ShiftTwiceAt(reg, E, C, f, s);
    }
    RegistryExt(sp, r2);
  }

  /** Two shifts along disjoint cycles, read at one key. */
  lemma ShiftTwiceAt(reg: Registry, E: seq<Slot>, C: seq<Slot>, x: Face, s: Slot)
    requires AllIn(reg, E) && AllIn(reg, C)
    requires |C| == 4 && Distinct(C) && forall k :: k in C ==> k !in E
    requires s in reg
    ensures Shift(Shift(reg, E, x), C, x)[s]
              == if s in E then reg[s].(faces := Rewrite(x, reg[CycPrev(E, s)].faces))
                 else if s in C then reg[s].(faces := Rewrite(x, reg[CycPrev(C, s)].faces))
                 else reg[s]
  {
    if s in C {
      CycleLaws(C, s);
    }
  }

  /**
    The two `_rotate_pieces` calls of a quarter-turn, on any registry that has
    every key, amount to `Spin`: only the 8 layer slots change, each receiving
    the rewritten map of its cycle predecessor; names and positions never move.
  */
  lemma TurnFaceIsSpin(reg: Registry, f: Face)
    requires Total(reg)
    ensures TurnFace(reg, f) == Ok(Spin(reg, f))
  {
    CycleFacts(reg, f);
    TwoRotations(reg, EdgeCycle(f), CornerCycle(f), f);
    SpinIsShifts(reg, f);
  }

  /** What the two rotations of a quarter-turn need of its cycles, on a registry with every key. */
  lemma CycleFacts(reg: Registry, f: Face)
    requires Total(reg)
    ensures |EdgeCycle(f)| > 0 && Distinct(EdgeCycle(f)) && AllIn(reg, EdgeCycle(f))
    ensures |CornerCycle(f)| > 0 && Distinct(CornerCycle(f)) && AllIn(reg, CornerCycle(f))
  {
    CyclesShape(f);
  }

  /** Two `_rotate_pieces` calls in a row, each along distinct keys the registry has. */
  lemma TwoRotations(reg: Registry, E: seq<Slot>, C: seq<Slot>, x: Face)
    requires |E| > 0 && Distinct(E) && AllIn(reg, E)
    requires |C| > 0 && Distinct(C) && AllIn(reg, C)
    ensures RotatePieces(reg, E, FaceLetter(x)) == Ok(Shift(reg, E, x))
    ensures RotatePieces(Shift(reg, E, x), C, FaceLetter(x)) == Ok(Shift(Shift(reg, E, x), C, x))
  {
    RotatePiecesShifts(reg, E, x);
    RotatePiecesShifts(Shift(reg, E, x), C, x);
  }


  lemma SpinKeepsComplete(reg: Registry, f: Face)
    requires Complete(reg)
    ensures Complete(Spin(reg, f))
  {
  }

  /** The cube object: the piece registry and the move history. */
  datatype Cube = Cube(pieces: Registry, history: seq<string>)

  /** The registry the constructor builds from its table, in solved state. */
  function SolvedPieces(): Registry {
    map s | s in AllSlots :: PieceObj(s, Home(s), HomeStickers(s))
  }

  /** `RubiksCube()`: the solved pieces and an empty history. */
  function NewCube(): (c: Cube)
    ensures Complete(c.pieces) && c.history == []
    ensures forall s: Slot :: c.pieces[s].faces == HomeStickers(s)
  {
    AllSlotsShape();
    Cube(SolvedPieces(), [])
  }

  /** `reset()` re-runs the constructor. */
  function Reset(c: Cube): (r: Cube)
    ensures r.history == [] && Complete(r.pieces)
    ensures forall s: Slot :: r.pieces[s].faces == HomeStickers(s)
  {
    NewCube()
  }

  /**
    The 26-piece construction: 26 keys, pairwise-distinct coordinates inside
    the grid, none at (1,1,1); 6 one-sticker centres, 12 two-sticker edges and
    8 three-sticker corners, each sticker on a face its label spells.
  */
  lemma NewCubeShape()
    ensures |NewCube().pieces| == 26
    ensures forall s: Slot :: InCube(NewCube().pieces[s].position) && NewCube().pieces[s].position != Coord(1, 1, 1)
    ensures forall s, t: Slot :: NewCube().pieces[s].position == NewCube().pieces[t].position ==> s == t
    ensures forall s: Slot :: |NewCube().pieces[s].faces| == Arity(s)
    ensures forall s: Slot, i :: 0 <= i < |NewCube().pieces[s].faces| ==> NewCube().pieces[s].faces[i].face in LabelFaces(s)
  {
    AllSlotsShape();
    var reg := NewCube().pieces;
    assert reg.Keys == set i | 0 <= i < 26 :: AllSlots[i];
    DistinctCard(AllSlots);
    forall s: Slot ensures InCube(Home(s)) && Home(s) != Coord(1, 1, 1) && |HomeStickers(s)| == Arity(s) {
      HomeIsGeometric(s);
    }
    forall s, t: Slot ensures Home(s) == Home(t) ==> s == t {
      HomeInjective(s, t);
    }
  }

  /** How far a logical move turns its face. */
  datatype Amount = Single | Double | Inverse

  /** One of the 18 logical moves. */
  datatype Move = Move(face: Face, amount: Amount)

  /** The token a logical move writes into the history: "X", "X2" or "X'". */
  function Token(m: Move): string {
    match m.amount
    case Single => FaceLetter(m.face)
    case Double => FaceLetter(m.face) + "2"
    case Inverse => FaceLetter(m.face) + "'"
  }

  /** The slot-level effect of one logical move: one, two or three quarter-turns. */
  function Turn(reg: Registry, m: Move): (r: Registry)
    requires Total(reg)
    ensures Total(r)
  {
    match m.amount
    case Single => Spin(reg, m.face)
    case Double => Spin(Spin(reg, m.face), m.face)
    case Inverse => Spin(Spin(Spin(reg, m.face), m.face), m.face)
  }

  /** The slot-level effect of a sequence of logical moves, in order. */
  function TurnAll(reg: Registry, ms: seq<Move>): (r: Registry)
    requires Total(reg)
    ensures Total(r)
    decreases |ms|
  {
    if |ms| == 0 then reg else Turn(TurnAll(reg, ms[..|ms| - 1]), ms[|ms| - 1])
  }

  /** The history entries of a sequence of logical moves. */
  function Tokens(ms: seq<Move>): (ts: seq<string>) {
    seq(|ms|, i requires 0 <= i < |ms| => Token(ms[i]))
  }

  /** Every quarter-turn keeps the constructor's invariant. */
  lemma TurnKeepsComplete(reg: Registry, m: Move)
    requires Complete(reg)
    ensures Complete(Turn(reg, m))
  {
    SpinKeepsComplete(reg, m.face);
    SpinKeepsComplete(Spin(reg, m.face), m.face);
    SpinKeepsComplete(Spin(Spin(reg, m.face), m.face), m.face);
  }

  /** The methods `U`, `D`, `F`, `B`, `R`, `L`: one quarter-turn, one history entry. */
  method Quarter(c: Cube, f: Face) returns (r: Cube)
    requires Complete(c.pieces)
    ensures Complete(r.pieces)
    ensures r.pieces == Spin(c.pieces, f)
    ensures r.history == c.history + [Token(Move(f, Single))]
  {
    TurnFaceIsSpin(c.pieces, f);
    SpinKeepsComplete(c.pieces, f);
    r := Cube(TurnFace(c.pieces, f).value, c.history + [FaceLetter(f)]);
  }

  /** The methods `X2`: two quarter-turns, after which the two logged entries collapse into one "X2". */
  method Half(c: Cube, f: Face) returns (r: Cube)
    requires Complete(c.pieces)
    ensures Complete(r.pieces)
    ensures r.pieces == Spin(Spin(c.pieces, f), f)
    ensures r.history == c.history + [Token(Move(f, Double))]
  {
    var c1 := Quarter(c, f);
    var c2 := Quarter(c1, f);
    var popped := c2.history[..|c2.history| - 1];
    r := Cube(c2.pieces, popped[|popped| - 1 := FaceLetter(f) + "2"]);
  }

  /** The methods `X_prime`: three quarter-turns, whose three entries collapse into one "X'". */
  method Prime(c: Cube, f: Face) returns (r: Cube)
    requires Complete(c.pieces)
    ensures Complete(r.pieces)
    ensures r.pieces == Spin(Spin(Spin(c.pieces, f), f), f)
    ensures r.history == c.history + [Token(Move(f, Inverse))]
  {
    var c1 := Quarter(c, f);
    var c2 := Quarter(c1, f);
    var c3 := Quarter(c2, f);
    var popped := c3.history[..|c3.history| - 2];
    r := Cube(c3.pieces, popped[|popped| - 1 := FaceLetter(f) + "'"]);
  }

  /** Dispatch one logical move to its method. */
  method Perform(c: Cube, m: Move) returns (r: Cube)
    requires Complete(c.pieces)
    ensures Complete(r.pieces)
    ensures r.pieces == Turn(c.pieces, m)
    ensures r.history == c.history + [Token(m)]
  {
    match m.amount
    case Single => r := Quarter(c, m.face);
    case Double => r := Half(c, m.face);
    case Inverse => r := Prime(c, m.face);
  }

  /**
    A sequence of logical moves, performed in order: the pieces end as the
    slot-level turns say, and the history grows by exactly one token per
    move, in order, leaving earlier entries untouched.
  */
  method PerformAll(c: Cube, ms: seq<Move>) returns (r: Cube)
    requires Complete(c.pieces)
    ensures Complete(r.pieces)
    ensures r.pieces == TurnAll(c.pieces, ms)
    ensures r.history == c.history + Tokens(ms)
  {
    r := c;
    var i := 0;
    while i < |ms|
      invariant 0 <= i <= |ms|
      invariant Complete(r.pieces)
      invariant r.pieces == TurnAll(c.pieces, ms[..i])
      invariant r.history == c.history + Tokens(ms[..i])
    {
      r := Perform(r, ms[i]);
      assert ms[..i + 1][..i] == ms[..i];
      assert Tokens(ms[..i + 1]) == Tokens(ms[..i]) + [Token(ms[i])];
      i := i + 1;
    }
    assert ms[..i] == ms;
  }

  /** Four rewrites through the same table restore a colour map. */
  lemma RewriteFour(f: Face, m: ColorMap)
    ensures Rewrite(f, Rewrite(f, Rewrite(f, Rewrite(f, m)))) == m
  {
    var r := Rewrite(f, Rewrite(f, Rewrite(f, Rewrite(f, m))));
    forall i | 0 <= i < |m| ensures r[i] == m[i] {
      RotateIsQuarterCycle(f, m[i].face);
    }
  }

  /** Three rewrites through a table are one rewrite through its inverse. */
  lemma RewriteThree(f: Face, m: ColorMap)
    ensures Rewrite(f, Rewrite(f, Rewrite(f, m))) == Unrewrite(f, m)
  {
  }

  /** Every sticker's face taken one step backwards through face `f`'s table. */
  function Unrewrite(f: Face, m: ColorMap): (r: ColorMap)
    ensures |r| == |m|
    ensures forall i :: 0 <= i < |m| ==> r[i].color == m[i].color && Rotate(f, r[i].face) == m[i].face
  {
    seq(|m|, i requires 0 <= i < |m| => (RotateIsQuarterCycle(f, m[i].face); Sticker(m[i].color, Unrotate(f, m[i].face))))
  }

  /**
    Four quarter-turns of one face restore every piece: each layer map goes
    once round its cycle and through the table four times.
  */
  lemma SpinFour(reg: Registry, f: Face)
    requires Total(reg)
    ensures Spin(Spin(Spin(Spin(reg, f), f), f), f) == reg
  {
    var r1 := Spin(reg, f);
    var r2 := Spin(r1, f);
    var r3 := Spin(r2, f);
    var r4 := Spin(r3, f);
    forall s: Slot ensures r4[s] == reg[s] {
      if OnLayer(f, s) {
        SourceDest(f, s);
        var s1 := Source(f, s);
        var s2 := Source(f, s1);
        var s3 := Source(f, s2);
        SourceDest(f, s1);
        SourceDest(f, s2);
        assert r4[s].faces == Rewrite(f, r3[s1].faces);
        assert r3[s1].faces == Rewrite(f, r2[s2].faces);
        assert r2[s2].faces == Rewrite(f, r1[s3].faces);
        assert r1[s3].faces == Rewrite(f, reg[s].faces);
        RewriteFour(f, reg[s].faces);
      }
    }
    assert r4 == reg;
  }

  /**
    Three quarter-turns are the inverse turn: the layer maps move one step
    backwards along each cycle, rewritten through the inverse table.
  */
  lemma SpinThree(reg: Registry, f: Face)
    requires Total(reg)
    ensures forall s: Slot :: Spin(Spin(Spin(reg, f), f), f)[s]
              == if OnLayer(f, s) then reg[s].(faces := Unrewrite(f, reg[Dest(f, s)].faces)) else reg[s]
  {
    var r1 := Spin(reg, f);
    var r2 := Spin(r1, f);
    var r3 := Spin(r2, f);
    forall s: Slot ensures r3[s] == if OnLayer(f, s) then reg[s].(faces := Unrewrite(f, reg[Dest(f, s)].faces)) else reg[s] {
      if OnLayer(f, s) {
        SourceDest(f, s);
        var s1 := Source(f, s);
        var s2 := Source(f, s1);
        SourceDest(f, s1);
        assert r3[s].faces == Rewrite(f, r2[s1].faces);
        assert r2[s1].faces == Rewrite(f, r1[s2].faces);
        assert r1[s2].faces == Rewrite(f, reg[Dest(f, s)].faces);
        RewriteThree(f, reg[Dest(f, s)].faces);
      }
    }
  }

  /** The move that undoes `m`: the same face, the opposite amount. */
  function InverseMove(m: Move): Move {
    Move(m.face, match m.amount case Single => Inverse case Double => Double case Inverse => Single)
  }

  /** The moves that undo `ms`: its inverses, last first. */
  function InverseMoves(ms: seq<Move>): (r: seq<Move>)
    ensures |r| == |ms|
  {
    seq(|ms|, i requires 0 <= i < |ms| => InverseMove(ms[|ms| - 1 - i]))
  }

  /**
    A move followed by its inverse, in either order, restores every piece; so
    do two half-turns.
  */
  lemma InverseRestores(reg: Registry, m: Move)
    requires Total(reg)
    ensures Turn(Turn(reg, m), InverseMove(m)) == reg
    ensures Turn(Turn(reg, InverseMove(m)), m) == reg
  {
    SpinFour(reg, m.face);
  }

  /** Performing a move first is performing it on the starting registry. */
  lemma {:induction false} TurnAllCons(reg: Registry, m: Move, ms: seq<Move>)
    requires Total(reg)
    ensures TurnAll(reg, [m] + ms) == TurnAll(Turn(reg, m), ms)
    decreases |ms|
  {
    if |ms| > 0 {
      var init := ms[..|ms| - 1];
      var whole := [m] + ms;
      assert whole[..|whole| - 1] == [m] + init && whole[|whole| - 1] == ms[|ms| - 1];
      TurnAllCons(reg, m, init);
      assert TurnAll(reg, whole) == Turn(TurnAll(reg, [m] + init), ms[|ms| - 1]);
    }
  }

  /** Any sequence of moves followed by its inverse sequence restores every piece. */
  lemma {:induction false} UndoAll(reg: Registry, ms: seq<Move>)
    requires Total(reg)
    ensures TurnAll(TurnAll(reg, ms), InverseMoves(ms)) == reg
    decreases |ms|
  {
    if |ms| > 0 {
      var init, last := ms[..|ms| - 1], ms[|ms| - 1];
      var before := TurnAll(reg, init);
      assert InverseMoves(ms) == [InverseMove(last)] + InverseMoves(init);
      TurnAllCons(Turn(before, last), InverseMove(last), InverseMoves(init));
      InverseRestores(before, last);
      UndoAll(reg, init);
    }
  }
}
