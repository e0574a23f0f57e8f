/**
  The 26 slot labels of the cube's piece registry, the coordinate each label
  is created at, and the stickers each piece carries on a solved cube
  (the `piece_definitions` table of the cube constructor).
*/
module Slots {

  import opened Wrappers
  import opened Faces

  datatype EdgeSlot = UF | UL | UB | UR | DF | DR | DL | DB | FL | FR | BL | BR

  datatype CornerSlot = UFL | UFR | UBL | UBR | DFL | DFR | DBL | DBR

  /** A registry key: centres are named by their face, edges and corners by their label. */
  datatype Slot = Center(face: Face) | Edge(edge: EdgeSlot) | Corner(corner: CornerSlot)

  /** A grid position `(x, y, z)`; x grows towards R, y towards U, z towards F. */
  datatype Coord = Coord(x: int, y: int, z: int)

  /** One colour of a piece together with the face it currently shows on. */
  datatype Sticker = Sticker(color: Color, face: Face)

  /** A piece's colour-to-face map, in the insertion order of the Python dict. */
  type ColorMap = seq<Sticker>

  /** The registry's insertion order: centres, then edges, then corners. */
  const AllSlots: seq<Slot> := [
    Center(U), Center(D), Center(F), Center(B), Center(R), Center(L),
    Edge(UF), Edge(UL), Edge(UB), Edge(UR),
    Edge(DF), Edge(DR), Edge(DL), Edge(DB),
    Edge(FL), Edge(FR), Edge(BL), Edge(BR),
    Corner(UFL), Corner(UFR), Corner(UBL), Corner(UBR),
    Corner(DFL), Corner(DFR), Corner(DBL), Corner(DBR)
  ]

  /** The faces spelled by a slot's label, in label order ("UFR" is U, F, R). */
  function LabelFaces(s: Slot): seq<Face> {
    match s
    case Center(x) => [x]
    case Edge(e) => (
      match e
      case UF => [U, F]
      case UL => [U, L]
      case UB => [U, B]
      case UR => [U, R]
      case DF => [D, F]
      case DR => [D, R]
      case DL => [D, L]
      case DB => [D, B]
      case FL => [F, L]
      case FR => [F, R]
      case BL => [B, L]
      case BR => [B, R])
    case Corner(c) => (
      match c
      case UFL => [U, F, L]
      case UFR => [U, F, R]
      case UBL => [U, B, L]
      case UBR => [U, B, R]
      case DFL => [D, F, L]
      case DFR => [D, F, R]
      case DBL => [D, B, L]
      case DBR => [D, B, R])
  }

  /** The registry key as the Python string. */
  function Label(s: Slot): string {
    if |LabelFaces(s)| == 1 then FaceLetter(LabelFaces(s)[0])
    else if |LabelFaces(s)| == 2 then FaceLetter(LabelFaces(s)[0]) + FaceLetter(LabelFaces(s)[1])
    else FaceLetter(LabelFaces(s)[0]) + FaceLetter(LabelFaces(s)[1]) + FaceLetter(LabelFaces(s)[2])
  }

  /** How many stickers the piece of this slot has: 1 for a centre, 2 for an edge, 3 for a corner. */
  function Arity(s: Slot): nat {
    match s
    case Center(_) => 1
    case Edge(_) => 2
    case Corner(_) => 3
  }

  /** The coordinate the constructor gives each piece, as listed in its table. */
  function Home(s: Slot): Coord {
    match s
    case Center(x) => (
      match x
      case U => Coord(1, 2, 1)
      case D => Coord(1, 0, 1)
      case F => Coord(1, 1, 2)
      case B => Coord(1, 1, 0)
      case R => Coord(2, 1, 1)
      case L => Coord(0, 1, 1))
    case Edge(e) => (
      match e
      case UF => Coord(1, 2, 2)
      case UL => Coord(0, 2, 1)
      case UB => Coord(1, 2, 0)
      case UR => Coord(2, 2, 1)
      case DF => Coord(1, 0, 2)
      case DR => Coord(2, 0, 1)
      case DL => Coord(0, 0, 1)
      case DB => Coord(1, 0, 0)
      case FL => Coord(0, 1, 2)
      case FR => Coord(2, 1, 2)
      case BL => Coord(0, 1, 0)
      case BR => Coord(2, 1, 0))
    case Corner(c) => (
      match c
      case UFL => Coord(0, 2, 2)
      case UFR => Coord(2, 2, 2)
      case UBL => Coord(0, 2, 0)
      case UBR => Coord(2, 2, 0)
      case DFL => Coord(0, 0, 2)
      case DFR => Coord(2, 0, 2)
      case DBL => Coord(0, 0, 0)
      case DBR => Coord(2, 0, 0))
  }

  /** The coordinate a set of outer faces pins down: R/L fix x, U/D fix y, F/B fix z. */
  function CoordOfFaces(fs: seq<Face>): Coord {
    Coord(if R in fs then 2 else if L in fs then 0 else 1,
          if U in fs then 2 else if D in fs then 0 else 1,
          if F in fs then 2 else if B in fs then 0 else 1)
  }

  /** The stickers of a slot's piece on a solved cube: each label face in its home colour. */
  function HomeStickers(s: Slot): ColorMap {
    seq(|LabelFaces(s)|, i requires 0 <= i < |LabelFaces(s)| =>
      Sticker(HomeColor(LabelFaces(s)[i]), LabelFaces(s)[i]))
  }

  predicate InCube(p: Coord) {
    0 <= p.x < 3 && 0 <= p.y < 3 && 0 <= p.z < 3
  }

  /**
    The constructor's table places every label where its faces say, so the 26
    coordinates are pairwise distinct, inside the 3x3x3 grid, and never the
    hidden middle (1,1,1).
  */
  lemma {:induction false} HomeIsGeometric(s: Slot)
    ensures Home(s) == CoordOfFaces(LabelFaces(s))
    ensures InCube(Home(s)) && Home(s) != Coord(1, 1, 1)
    ensures |LabelFaces(s)| == Arity(s) == |Label(s)|
  {
    match s
    case Center(x) => CenterIsGeometric(x);
    case Edge(e) => EdgeIsGeometric(e);
    case Corner(c) => CornerIsGeometric(c);
  }

  lemma CenterIsGeometric(x: Face)
    ensures Home(Center(x)) == CoordOfFaces(LabelFaces(Center(x)))
    ensures InCube(Home(Center(x))) && Home(Center(x)) != Coord(1, 1, 1)
    ensures |LabelFaces(Center(x))| == Arity(Center(x)) == |Label(Center(x))|
  {
    match x
    case U => case D => case F => case B => case R => case L =>
  }

  lemma EdgeIsGeometric(e: EdgeSlot)
    ensures Home(Edge(e)) == CoordOfFaces(LabelFaces(Edge(e)))
    ensures InCube(Home(Edge(e))) && Home(Edge(e)) != Coord(1, 1, 1)
    ensures |LabelFaces(Edge(e))| == Arity(Edge(e)) == |Label(Edge(e))|
  {
    match e
    case UF => case UL => case UB => case UR => case DF => case DR =>
    case DL => case DB => case FL => case FR => case BL => case BR =>
  }

  lemma CornerIsGeometric(c: CornerSlot)
    ensures Home(Corner(c)) == CoordOfFaces(LabelFaces(Corner(c)))
    ensures InCube(Home(Corner(c))) && Home(Corner(c)) != Coord(1, 1, 1)
    ensures |LabelFaces(Corner(c))| == Arity(Corner(c)) == |Label(Corner(c))|
  {
    match c
    case UFL => case UFR => case UBL => case UBR =>
    case DFL => case DFR => case DBL => case DBR =>
  }

  /** The slot whose piece is created at `p`, if any: the inverse of `Home`. */
  function SlotAt(p: Coord): Option<Slot> {
    match (p.x, p.y, p.z)
    case (1, 2, 1) => Some(Center(U))
    case (1, 0, 1) => Some(Center(D))
    case (1, 1, 2) => Some(Center(F))
    case (1, 1, 0) => Some(Center(B))
    case (2, 1, 1) => Some(Center(R))
    case (0, 1, 1) => Some(Center(L))
    case (1, 2, 2) => Some(Edge(UF))
    case (0, 2, 1) => Some(Edge(UL))
    case (1, 2, 0) => Some(Edge(UB))
    case (2, 2, 1) => Some(Edge(UR))
    case (1, 0, 2) => Some(Edge(DF))
    case (2, 0, 1) => Some(Edge(DR))
    case (0, 0, 1) => Some(Edge(DL))
    case (1, 0, 0) => Some(Edge(DB))
    case (0, 1, 2) => Some(Edge(FL))
    case (2, 1, 2) => Some(Edge(FR))
    case (0, 1, 0) => Some(Edge(BL))
    case (2, 1, 0) => Some(Edge(BR))
    case (0, 2, 2) => Some(Corner(UFL))
    case (2, 2, 2) => Some(Corner(UFR))
    case (0, 2, 0) => Some(Corner(UBL))
    case (2, 2, 0) => Some(Corner(UBR))
    case (0, 0, 2) => Some(Corner(DFL))
    case (2, 0, 2) => Some(Corner(DFR))
    case (0, 0, 0) => Some(Corner(DBL))
    case (2, 0, 0) => Some(Corner(DBR))
    case _ => None
  }

  /**
    `SlotAt` inverts `Home`, and the only in-grid coordinate no piece is
    created at is the middle (1,1,1).
  */
  lemma {:induction false} SlotAtHome(s: Slot)
    ensures SlotAt(Home(s)) == Some(s)
  {
    match s
    case Center(x) => {
      match x
      case U => case D => case F => case B => case R => case L =>
    }
    case Edge(e) => {
      match e
      case UF => case UL => case UB => case UR => case DF => case DR =>
      case DL => case DB => case FL => case FR => case BL => case BR =>
    }
    case Corner(c) => {
      match c
      case UFL => case UFR => case UBL => case UBR =>
      case DFL => case DFR => case DBL => case DBR =>
    }
  }

  lemma SlotAtOnlyHomes(p: Coord)
    ensures SlotAt(p).Some? ==> Home(SlotAt(p).value) == p
    ensures SlotAt(p).None? && InCube(p) ==> p == Coord(1, 1, 1)
  {
  }

  lemma HomeInjective(s: Slot, t: Slot)
    ensures Home(s) == Home(t) ==> s == t
  {
    SlotAtHome(s);
    SlotAtHome(t);
  }

  /** Each label spells distinct faces, no two of them opposite. */
  lemma LabelFacesDistinct(s: Slot)
    ensures forall i, j :: 0 <= i < j < |LabelFaces(s)| ==>
              LabelFaces(s)[i] != LabelFaces(s)[j] && LabelFaces(s)[i] != Opposite(LabelFaces(s)[j])
  {
  }

  /** A slot's place in the constructor's insertion order. */
  function SlotIndex(s: Slot): nat {
    match s
    case Center(x) => (match x case U => 0 case D => 1 case F => 2 case B => 3 case R => 4 case L => 5)
    case Edge(e) =>
      6 + (match e
           case UF => 0 case UL => 1 case UB => 2 case UR => 3 case DF => 4 case DR => 5
           case DL => 6 case DB => 7 case FL => 8 case FR => 9 case BL => 10 case BR => 11)
    case Corner(c) =>
      18 + (match c
            case UFL => 0 case UFR => 1 case UBL => 2 case UBR => 3
            case DFL => 4 case DFR => 5 case DBL => 6 case DBR => 7)
  }

  lemma SlotIndexFinds(s: Slot)
    ensures SlotIndex(s) < |AllSlots| && AllSlots[SlotIndex(s)] == s
  {
  }

  lemma SlotIndexOfEntries()
    ensures forall i :: 0 <= i < |AllSlots| ==> SlotIndex(AllSlots[i]) == i
  {
  }

  /**
    The constructor's insertion order lists each of the 26 slots exactly once:
    6 one-sticker centres, then 12 two-sticker edges, then 8 three-sticker corners.
  */
  lemma AllSlotsShape()
    ensures |AllSlots| == 26
    ensures forall s: Slot :: s in AllSlots
    ensures forall i, j :: 0 <= i < j < |AllSlots| ==> AllSlots[i] != AllSlots[j]
    ensures forall i :: 0 <= i < 6 ==> AllSlots[i].Center? && Arity(AllSlots[i]) == 1
    ensures forall i :: 6 <= i < 18 ==> AllSlots[i].Edge? && Arity(AllSlots[i]) == 2
    ensures forall i :: 18 <= i < 26 ==> AllSlots[i].Corner? && Arity(AllSlots[i]) == 3
  {
    forall s: Slot ensures s in AllSlots {
      SlotIndexFinds(s);
    }
    SlotIndexOfEntries();
  }

  /** The insertion order groups slots by sticker count: fewer stickers, earlier place. */
  lemma SlotIndexByArity(s: Slot)
    ensures Arity(s) == 1 ==> SlotIndex(s) < 6
    ensures Arity(s) == 2 ==> 6 <= SlotIndex(s) < 18
    ensures Arity(s) == 3 ==> 18 <= SlotIndex(s) < 26
  {
  }
}
