/**
  What every reachable cube keeps: each slot holds a map whose stickers lie on
  exactly the faces its label spells, with distinct colours, and no two slots
  hold the same colour set. The quarter-turns preserve all of it.
*/
module Invariants {

  import opened Faces
  import opened Slots
  import opened Engine
  import opened CoreCube

  /** The stickers of a map sit on exactly the faces the slot's label spells, once each, in distinct colours. */
  predicate StickersFit(s: Slot, m: ColorMap) {
    && |m| == Arity(s)
    && (forall i :: 0 <= i < |m| ==> m[i].face in LabelFaces(s))
    && (forall i, j :: 0 <= i < j < |m| ==> m[i].face != m[j].face && m[i].color != m[j].color)
    && (forall y :: y in LabelFaces(s) ==> exists i :: 0 <= i < |m| && m[i].face == y)
  }

  /** Every slot's map fits its label. */
  ghost predicate Oriented(reg: Registry) {
    forall s: Slot :: s in reg && StickersFit(s, reg[s].faces)
  }

  /** The colours a map carries. */
  function ColorSet(m: ColorMap): set<Color> {
    set i | 0 <= i < |m| :: m[i].color
  }

  /** No two slots carry the same colour set. */
  ghost predicate DistinctPieces(reg: Registry) {
    forall s: Slot, t: Slot :: s in reg && t in reg && ColorSet(reg[s].faces) == ColorSet(reg[t].faces) ==> s == t
  }

  /** The centre pieces never move: each shows its home colour on its own face. */
  ghost predicate CentersFixed(reg: Registry) {
    forall x: Face :: Center(x) in reg && reg[Center(x)].faces == HomeStickers(Center(x))
  }

  /** Some slot carries exactly the colours `cs`. */
  ghost predicate Carried(reg: Registry, cs: set<Color>) {
    exists s: Slot :: s in reg && ColorSet(reg[s].faces) == cs
  }

  /** Every solved piece's colour set is carried by some slot. */
  ghost predicate Populated(reg: Registry) {
    forall t: Slot :: Carried(reg, ColorSet(HomeStickers(t)))
  }

  /** The invariant of every cube the constructor and the moves can produce. */
  ghost predicate Valid(reg: Registry) {
    Complete(reg) && Oriented(reg) && DistinctPieces(reg) && CentersFixed(reg) && Populated(reg)
  }

  /**
    Each face's table carries the label of a cycle key onto the label of the
    next key: the faces of the key before, rotated, are the faces of the key.
  */
  lemma CycleTransport(f: Face)
    ensures forall j, x :: 0 <= j < 4 ==>
              (x in LabelFaces(EdgeCycle(f)[Pred(j, 4)]) <==> Rotate(f, x) in LabelFaces(EdgeCycle(f)[j]))
    ensures forall j, x :: 0 <= j < 4 ==>
              (x in LabelFaces(CornerCycle(f)[Pred(j, 4)]) <==> Rotate(f, x) in LabelFaces(CornerCycle(f)[j]))
  {
    forall j, x | 0 <= j < 4
      ensures x in LabelFaces(EdgeCycle(f)[Pred(j, 4)]) <==> Rotate(f, x) in LabelFaces(EdgeCycle(f)[j])
      ensures x in LabelFaces(CornerCycle(f)[Pred(j, 4)]) <==> Rotate(f, x) in LabelFaces(CornerCycle(f)[j])
    {
      EdgeTransportOut(f, j, x);
      EdgeTransportIn(f, j, x);
      CornerTransportOut(f, j, x);
      CornerTransportIn(f, j, x);
      SuccPred(j, 4);
      assert Pred(j, 4) == if j == 0 then 3 else j - 1;
    }
  }

  /** A face of an edge key's label, rotated, lies on the next key's label. */
  lemma EdgeTransportOut(f: Face, j: int, x: Face)
    requires 0 <= j < 4
    ensures x in LabelFaces(EdgeCycle(f)[if j == 0 then 3 else j - 1]) ==> Rotate(f, x) in LabelFaces(EdgeCycle(f)[j])
  {
    match f
    case U => case D => case F => case B => case L => case R =>
  }

  /** A face whose rotation lies on an edge key's label lies on the key before's label. */
  lemma EdgeTransportIn(f: Face, j: int, x: Face)
    requires 0 <= j < 4
    ensures Rotate(f, x) in LabelFaces(EdgeCycle(f)[j]) ==> x in LabelFaces(EdgeCycle(f)[if j == 0 then 3 else j - 1])
  {
    match f
    case U => case D => case F => case B => case L => case R =>
  }

  /** A face of a corner key's label, rotated, lies on the next key's label. */
  lemma CornerTransportOut(f: Face, j: int, x: Face)
    requires 0 <= j < 4
    ensures x in LabelFaces(CornerCycle(f)[if j == 0 then 3 else j - 1]) ==> Rotate(f, x) in LabelFaces(CornerCycle(f)[j])
  {
    match f
    case U => case D => case F => case B => case L => case R =>
  }

  /** A face whose rotation lies on a corner key's label lies on the key before's label. */
  lemma CornerTransportIn(f: Face, j: int, x: Face)
    requires 0 <= j < 4
    ensures Rotate(f, x) in LabelFaces(CornerCycle(f)[j]) ==> x in LabelFaces(CornerCycle(f)[if j == 0 then 3 else j - 1])
  {
    match f
    case U => case D => case F => case B => case L => case R =>
  }

  /**
    The sticker faces of the map a quarter-turn brings into slot `s`, rewritten
    through the table, are exactly the faces `s` spells.
  */
  lemma LabelTransport(f: Face, s: Slot)
    requires OnLayer(f, s)
    ensures Arity(Source(f, s)) == Arity(s)
    ensures forall x :: x in LabelFaces(Source(f, s)) <==> Rotate(f, x) in LabelFaces(s)
  {
    CyclesShape(f);
    CycleTransport(f);
    SourceOnCycles(f);
    var E, C := EdgeCycle(f), CornerCycle(f);
    if s in E {
      var j := IndexOf(E, s);
      assert Source(f, E[j]) == E[Pred(j, 4)];
      SuccPred(j, 4);
    } else {
      var j := IndexOf(C, s);
      assert Source(f, C[j]) == C[Pred(j, 4)];
      SuccPred(j, 4);
    }
  }

  /** A map that fits the source slot fits the destination once rewritten. */
  lemma RewriteFits(f: Face, s: Slot, m: ColorMap)
    requires OnLayer(f, s)
    requires StickersFit(Source(f, s), m)
    ensures StickersFit(s, Rewrite(f, m))
  {
    LabelTransport(f, s);
    var r := Rewrite(f, m);
    forall i | 0 <= i < |r| ensures r[i].face in LabelFaces(s) {
      assert m[i].face in LabelFaces(Source(f, s));
    }
    forall i, j | 0 <= i < j < |r| ensures r[i].face != r[j].face {
      RotateIsQuarterCycle(f, m[i].face);
      RotateIsQuarterCycle(f, m[j].face);
    }
    forall y | y in LabelFaces(s) ensures exists i :: 0 <= i < |r| && r[i].face == y {
      RotateIsQuarterCycle(f, y);
      var x := Unrotate(f, y);
      assert Rotate(f, x) == y;
      assert x in LabelFaces(Source(f, s));
      var i :| 0 <= i < |m| && m[i].face == x;
      assert r[i].face == y;
    }
  }

  /** A quarter-turn keeps every map fitting its label. */
  lemma SpinKeepsOriented(reg: Registry, f: Face)
    requires Oriented(reg)
    ensures Oriented(Spin(reg, f))
  {
    forall s: Slot ensures StickersFit(s, Spin(reg, f)[s].faces) {
      if OnLayer(f, s) {
        RewriteFits(f, s, reg[Source(f, s)].faces);
      }
    }
  }

  /**
    A quarter-turn never changes a map's colours or sticker count: the map
    arriving at `s` carries the colours of the one that left `Source(f, s)`,
    in the same order.
  */
  lemma SpinKeepsColours(reg: Registry, f: Face, s: Slot)
    requires Total(reg)
    ensures |Spin(reg, f)[s].faces| == |reg[Source(f, s)].faces|
    ensures forall i :: 0 <= i < |reg[Source(f, s)].faces| ==>
              Spin(reg, f)[s].faces[i].color == reg[Source(f, s)].faces[i].color
    ensures ColorSet(Spin(reg, f)[s].faces) == ColorSet(reg[Source(f, s)].faces)
  {
  }

  /** A quarter-turn only permutes colour sets among slots, so distinct ones stay distinct. */
  lemma SpinKeepsDistinct(reg: Registry, f: Face)
    requires Total(reg) && DistinctPieces(reg)
    ensures DistinctPieces(Spin(reg, f))
  {
    forall s: Slot, t: Slot | ColorSet(Spin(reg, f)[s].faces) == ColorSet(Spin(reg, f)[t].faces)
      ensures s == t
    {
      SpinKeepsColours(reg, f, s);
      SpinKeepsColours(reg, f, t);
      SourceDest(f, s);
      SourceDest(f, t);
    }
  }

  /** A quarter-turn moves no centre. */
  lemma SpinKeepsCenters(reg: Registry, f: Face)
    requires Total(reg) && CentersFixed(reg)
    ensures CentersFixed(Spin(reg, f))
  {
    forall x: Face ensures Spin(reg, f)[Center(x)].faces == HomeStickers(Center(x)) {
      OnLayerIsGeometric(f, Center(x));
    }
  }

  /** A quarter-turn hands each colour set on to the slot after it, so none is lost. */
  lemma SpinKeepsPopulated(reg: Registry, f: Face)
    requires Total(reg) && Populated(reg)
    ensures Populated(Spin(reg, f))
  {
    forall t: Slot ensures Carried(Spin(reg, f), ColorSet(HomeStickers(t))) {
      assert Carried(reg, ColorSet(HomeStickers(t)));
      var s: Slot :| s in reg && ColorSet(reg[s].faces) == ColorSet(HomeStickers(t));
      SourceDest(f, s);
      SpinKeepsColours(reg, f, Dest(f, s));
    }
  }

  /** One quarter-turn keeps the invariant. */
  lemma SpinKeepsValid(reg: Registry, f: Face)
    requires Valid(reg)
    ensures Valid(Spin(reg, f))
  {
    SpinKeepsComplete(reg, f);
    SpinKeepsOriented(reg, f);
    SpinKeepsDistinct(reg, f);
    SpinKeepsCenters(reg, f);
    SpinKeepsPopulated(reg, f);
  }

  lemma TurnKeepsValid(reg: Registry, m: Move)
    requires Valid(reg)
    ensures Valid(Turn(reg, m))
  {
    var once := Spin(reg, m.face);
    var twice := Spin(once, m.face);
    SpinKeepsValid(reg, m.face);
    match m.amount
    case Single =>
    case Double => SpinKeepsValid(once, m.face);
    case Inverse =>
      SpinKeepsValid(once, m.face);
      SpinKeepsValid(twice, m.face);
  }

  /** Any sequence of logical moves keeps the invariant. */
  lemma {:induction false} TurnAllKeepsValid(reg: Registry, ms: seq<Move>)
    requires Valid(reg)
    ensures Valid(TurnAll(reg, ms))
    decreases |ms|
  {
    if |ms| > 0 {
      TurnAllKeepsValid(reg, ms[..|ms| - 1]);
      TurnKeepsValid(TurnAll(reg, ms[..|ms| - 1]), ms[|ms| - 1]);
    }
  }

  /** The solved pieces each carry their label's faces in the home colours. */
  lemma HomeStickersFit(s: Slot)
    ensures StickersFit(s, HomeStickers(s))
    ensures forall y :: y in LabelFaces(s) <==> HomeColor(y) in ColorSet(HomeStickers(s))
  {
    HomeIsGeometric(s);
    LabelFacesDistinct(s);
    var m := HomeStickers(s);
    forall i, j | 0 <= i < j < |m| ensures m[i].color != m[j].color {
      HomeColorInjective(m[i].face, m[j].face);
    }
    forall y | y in LabelFaces(s) ensures exists i :: 0 <= i < |m| && m[i].face == y {
      var i :| 0 <= i < |LabelFaces(s)| && LabelFaces(s)[i] == y;
      assert m[i].face == y;
    }
    forall y | HomeColor(y) in ColorSet(m) ensures y in LabelFaces(s) {
      var i :| 0 <= i < |m| && m[i].color == HomeColor(y);
      HomeColorInjective(m[i].face, y);
    }
  }

  /** Two slots whose labels spell the same faces are the same slot. */
  lemma SameFacesSameSlot(s: Slot, t: Slot)
    requires forall y :: y in LabelFaces(s) <==> y in LabelFaces(t)
    ensures s == t
  {
    HomeIsGeometric(s);
    HomeIsGeometric(t);
    HomeInjective(s, t);
  }

  /** The constructor's cube satisfies the invariant. */
  lemma NewCubeValid()
    ensures Valid(NewCube().pieces)
  {
    var reg := NewCube().pieces;
    forall s: Slot ensures StickersFit(s, reg[s].faces) {
      HomeStickersFit(s);
    }
    forall s: Slot, t: Slot | ColorSet(reg[s].faces) == ColorSet(reg[t].faces) ensures s == t {
      HomeStickersFit(s);
      HomeStickersFit(t);
      SameFacesSameSlot(s, t);
    }
    forall t: Slot ensures Carried(reg, ColorSet(HomeStickers(t))) {
      assert t in reg && ColorSet(reg[t].faces) == ColorSet(HomeStickers(t));
    }
  }

  /** Every cube reached from the constructor by logical moves satisfies the invariant. */
  lemma ReachableValid(ms: seq<Move>)
    ensures Valid(TurnAll(NewCube().pieces, ms))
  {
    NewCubeValid();
    TurnAllKeepsValid(NewCube().pieces, ms);
  }
}
