/**
  The piece classes of solver/pieces.py: a piece is a key-to-value map and a
  position. `Center` builds its one-entry map itself; `Edge` and `Corner`
  take the caller's map and refuse one of the wrong size.

  The classes do not fix what the map's keys and values are (the constructor
  comment says faces to colours, `Center` stores `{face: color}`, callers
  pass colour-to-face maps), so the key and value types are parameters.
*/
module SolverPieces {

  import opened Wrappers
  import opened Faces
  import opened Slots

  /** A piece: its map and its position (`None` when none was given). */
  datatype Piece<K, V> = Piece(colorFaceMap: map<K, V>, position: Option<Coord>)

  /** The `ValueError`s the arity checks raise; each has one fixed message. */
  datatype PieceError = EdgeArity | CornerArity

  /** `Piece(color_face_map, position)`: stores both as given. */
  function NewPiece<K, V>(m: map<K, V>, position: Option<Coord>): (r: Piece<K, V>)
    ensures GetFaces(r) == m && r.position == position
  {
    Piece(m, position)
  }

  /** `Center(color, face, position)`: the one-entry map from the face to the colour. */
  function NewCenter(color: Color, face: Face, position: Option<Coord>): (r: Piece<Face, Color>)
    ensures |GetFaces(r)| == 1
    ensures face in GetFaces(r) && GetFaces(r)[face] == color
    ensures r.position == position
  {
    NewPiece(map[face := color], position)
  }

  /** `Edge(color_face_map, position)`: exactly two entries, or `ValueError`. */
  function NewEdge<K, V>(m: map<K, V>, position: Option<Coord>): (r: Result<Piece<K, V>, PieceError>)
    ensures r.Ok? <==> |m| == 2
    ensures r.Ok? ==> GetFaces(r.value) == m && r.value.position == position
    ensures r.Err? ==> r.error == EdgeArity
  {
    if |m| != 2 then Err(EdgeArity) else Ok(NewPiece(m, position))
  }

  /** `Corner(color_face_map, position)`: exactly three entries, or `ValueError`. */
  function NewCorner<K, V>(m: map<K, V>, position: Option<Coord>): (r: Result<Piece<K, V>, PieceError>)
    ensures r.Ok? <==> |m| == 3
    ensures r.Ok? ==> GetFaces(r.value) == m && r.value.position == position
    ensures r.Err? ==> r.error == CornerArity
  {
    if |m| != 3 then Err(CornerArity) else Ok(NewPiece(m, position))
  }

  /** `set_position`: a new position, the same map. */
  function SetPosition<K, V>(p: Piece<K, V>, position: Option<Coord>): (r: Piece<K, V>)
    ensures GetFaces(r) == GetFaces(p) && r.position == position
  {
    p.(position := position)
  }

  /** `get_faces`: the map the piece holds. */
  function GetFaces<K, V>(p: Piece<K, V>): map<K, V> {
    p.colorFaceMap
  }

  /**
    Only the position is state `set_position` touches: moving a piece and
    moving it back gives the piece it was, and the last move wins.
  */
  lemma SetPositionRoundTrip<K, V>(p: Piece<K, V>, position: Option<Coord>)
    ensures SetPosition(SetPosition(p, position), p.position) == p
    ensures SetPosition(SetPosition(p, position), position) == SetPosition(p, position)
  {
  }

  /**
    An edge's and a corner's sizes are exclusive: no map builds both, and a
    centre (size one) would be refused by either class.
  */
  lemma ArityChecksExclusive<K, V>(m: map<K, V>, position: Option<Coord>)
    ensures !(NewEdge(m, position).Ok? && NewCorner(m, position).Ok?)
    ensures |m| == 1 ==> NewEdge(m, position).Err? && NewCorner(m, position).Err?
  {
  }

  /**
    The arity checks accept exactly the sticker maps of the matching slots of
    a cube: a slot's home map, keyed by colour, builds an `Edge` exactly when
    the slot is an edge and a `Corner` exactly when it is a corner.
  */
  lemma HomeMapsPassArity(s: Slot)
    ensures NewEdge(StickerMap(HomeStickers(s)), Some(Home(s))).Ok? <==> s.Edge?
    ensures NewCorner(StickerMap(HomeStickers(s)), Some(Home(s))).Ok? <==> s.Corner?
  {
    HomeStickerColorsDistinct(s);
    StickerMapSize(HomeStickers(s));
  }

  /** A sticker list as a Python dict from colour to face. */
  function StickerMap(m: ColorMap): (r: map<Color, Face>)
    ensures r.Keys == set i | 0 <= i < |m| :: m[i].color
    decreases |m|
  {
    if |m| == 0 then map[]
    else
      var init := m[..|m| - 1];
      var rest := StickerMap(init);
      assert forall i :: 0 <= i < |init| ==> init[i] == m[i];
      assert (set i | 0 <= i < |m| :: m[i].color) == (set i | 0 <= i < |init| :: init[i].color) + {m[|m| - 1].color};
      rest[m[|m| - 1].color := m[|m| - 1].face]
  }

  /** Colours pairwise distinct along a sticker list. */
  predicate ColorsDistinct(m: ColorMap) {
    forall i, j :: 0 <= i < j < |m| ==> m[i].color != m[j].color
  }

  /** A sticker list with distinct colours gives a dict of the same size. */
  lemma {:induction false} StickerMapSize(m: ColorMap)
    requires ColorsDistinct(m)
    ensures |StickerMap(m)| == |m|
    decreases |m|
  {
    if |m| > 0 {
      var init := m[..|m| - 1];
      assert ColorsDistinct(init);
      StickerMapSize(init);
      assert m[|m| - 1].color !in StickerMap(init);
    }
  }

  lemma HomeStickerColorsDistinct(s: Slot)
    ensures ColorsDistinct(HomeStickers(s))
    ensures |HomeStickers(s)| == Arity(s)
  {
    HomeIsGeometric(s);
    LabelFacesDistinct(s);
    forall i, j | 0 <= i < j < |HomeStickers(s)|
      ensures HomeStickers(s)[i].color != HomeStickers(s)[j].color
    {
      HomeColorInjective(HomeStickers(s)[i].face, HomeStickers(s)[j].face);
    }
  }
}
