/**
  The read side of core/cube.py: the position matrix, the per-face colour
  grids, the Kociemba facelet string, the solved test and the two lookups
  (by position and by colours).
*/
module Projection {

  import opened Wrappers
  import opened Faces
  import opened Slots
  import opened Engine
  import opened CoreCube
  import opened Invariants

  /** The argument handed to the face projections: a `Face` member, or any other value. */
  datatype FaceArg = FaceArg(face: Face) | OtherArg

  /**
    The last of `slots` (in list order) whose piece sits at `p`: what
    `_rebuild_matrix` leaves in `matrix[x][y][z]` after writing every piece
    in insertion order.
  */
  function LastAt(reg: Registry, slots: seq<Slot>, p: Coord): (r: Option<PieceObj>)
    ensures r.Some? ==> exists i :: 0 <= i < |slots| && slots[i] in reg && reg[slots[i]] == r.value && r.value.position == p
    ensures r.None? <==> forall i :: 0 <= i < |slots| ==> slots[i] !in reg || reg[slots[i]].position != p
    decreases |slots|
  {
    if |slots| == 0 then None
    else
      var s := slots[|slots| - 1];
      if s in reg && reg[s].position == p then Some(reg[s])
      else
        var r := LastAt(reg, slots[..|slots| - 1], p);
        assert forall i :: 0 <= i < |slots| - 1 ==> slots[..|slots| - 1][i] == slots[i];
        r
  }

  /** `matrix[x][y][z]` after `_rebuild_matrix`. */
  function MatrixAt(reg: Registry, p: Coord): Option<PieceObj> {
    LastAt(reg, AllSlots, p)
  }

  /** When exactly one listed slot sits at `p`, the rebuild leaves that slot's piece there. */
  lemma {:induction false} LastAtUnique(reg: Registry, slots: seq<Slot>, p: Coord, t: Slot)
    requires t in slots && t in reg
    requires forall i :: 0 <= i < |slots| ==> slots[i] in reg && (reg[slots[i]].position == p <==> slots[i] == t)
    ensures LastAt(reg, slots, p) == Some(reg[t])
    decreases |slots|
  {
    var s := slots[|slots| - 1];
    if s != t {
      var init := slots[..|slots| - 1];
      assert t in init by {
        var k :| 0 <= k < |slots| && slots[k] == t;
        assert init[k] == t;
      }
      LastAtUnique(reg, init, p, t);
    }
  }

  /**
    On a complete registry the matrix holds, at each slot's home, that
    slot's piece, and nothing at the hidden middle or outside the grid.
  */
  lemma MatrixAtComplete(reg: Registry, p: Coord)
    requires Complete(reg)
    ensures SlotAt(p).Some? ==> MatrixAt(reg, p) == Some(reg[SlotAt(p).value])
    ensures SlotAt(p).None? ==> MatrixAt(reg, p) == None
  {
    AllSlotsShape();
    SlotAtOnlyHomes(p);
    if SlotAt(p).Some? {
      var t := SlotAt(p).value;
      forall i | 0 <= i < |AllSlots| ensures reg[AllSlots[i]].position == p <==> AllSlots[i] == t {
        HomeInjective(AllSlots[i], t);
      }
      LastAtUnique(reg, AllSlots, p, t);
    } else {
      forall i | 0 <= i < |AllSlots| ensures reg[AllSlots[i]].position != p {
        SlotAtHome(AllSlots[i]);
      }
    }
  }

  /** The colour of the first sticker in the map that shows on face `f`, if any. */
  function FirstOn(m: ColorMap, f: Face): (r: Option<Color>)
    ensures r.None? <==> forall i :: 0 <= i < |m| ==> m[i].face != f
    ensures r.Some? ==> exists i :: 0 <= i < |m| && m[i] == Sticker(r.value, f)
                                    && forall j :: 0 <= j < i ==> m[j].face != f
  {
    if |m| == 0 then None
    else if m[0].face == f then Some(m[0].color)
    else
      var r := FirstOn(m[1..], f);
      assert forall i :: 0 <= i < |m| - 1 ==> m[1..][i] == m[i + 1];
      r
  }

  /** `_get_color`: the name of the colour a piece shows on `f`, or "BLACK". */
  function GetColor(piece: Option<PieceObj>, f: Face): (r: string)
    ensures r == "BLACK" <==> piece.None? || FirstOn(piece.value.faces, f).None?
    ensures r != "BLACK" ==> r == ColorName(FirstOn(piece.value.faces, f).value)
  {
    match piece
    case None => "BLACK"
    case Some(p) =>
      match FirstOn(p.faces, f)
      case None => "BLACK"
      case Some(c) => ColorName(c)
  }

  /** The grid coordinate behind row `row`, column `col` of face `f`'s 3x3 view. */
  function CellCoord(f: Face, row: int, col: int): Coord {
    match f
    case U => Coord(col, 2, row)
    case D => Coord(col, 0, 2 - row)
    case F => Coord(col, 2 - row, 2)
    case B => Coord(2 - col, 2 - row, 0)
    case R => Coord(2, 2 - row, 2 - col)
    case L => Coord(0, 2 - row, col)
  }

  /** The colour name shown at row `row`, column `col` of face `f`. */
  function Shown(reg: Registry, f: Face, row: int, col: int): string {
    GetColor(MatrixAt(reg, CellCoord(f, row, col)), f)
  }

  /** The 3x3 view of face `f`, row by row. */
  function FaceGrid(reg: Registry, f: Face): (g: seq<seq<string>>)
    ensures |g| == 3 && forall row :: 0 <= row < 3 ==> |g[row]| == 3
    ensures forall row, col :: 0 <= row < 3 && 0 <= col < 3 ==> g[row][col] == Shown(reg, f, row, col)
  {
    seq(3, row requires 0 <= row < 3 => seq(3, col requires 0 <= col < 3 => Shown(reg, f, row, col)))
  }

  /** The coordinate the projection's loops visit at outer index `a`, inner index `b`. */
  function LoopCoord(f: Face, a: int, b: int): Coord {
    match f
    case U => Coord(a, 2, b)
    case D => Coord(a, 0, b)
    case F => Coord(a, b, 2)
    case B => Coord(a, b, 0)
    case R => Coord(2, a, b)
    case L => Coord(0, a, b)
  }

  /** The cell the projection writes at outer index `a`, inner index `b`. */
  datatype Cell = Cell(row: int, col: int)

  function LoopCell(f: Face, a: int, b: int): Cell {
    match f
    case U => Cell(b, a)
    case D => Cell(2 - b, a)
    case F => Cell(2 - b, a)
    case B => Cell(2 - b, 2 - a)
    case R => Cell(2 - a, 2 - b)
    case L => Cell(2 - a, b)
  }

  /**
    The loops write each cell exactly once: the visited coordinate is the one
    behind the written cell, and two visits never write the same cell.
  */
  lemma LoopCellFacts(f: Face)
    ensures forall a, b :: 0 <= a < 3 && 0 <= b < 3 ==>
              && 0 <= LoopCell(f, a, b).row < 3 && 0 <= LoopCell(f, a, b).col < 3
              && CellCoord(f, LoopCell(f, a, b).row, LoopCell(f, a, b).col) == LoopCoord(f, a, b)
    ensures forall a, b, a', b' ::
              (0 <= a < 3 && 0 <= b < 3 && 0 <= a' < 3 && 0 <= b' < 3 && LoopCell(f, a, b) == LoopCell(f, a', b'))
              ==> a == a' && b == b'
  {
  }

  /** The loop indices at which the projection writes cell (row, col): every cell is written. */
  function LoopVisit(f: Face, row: int, col: int): (v: (int, int))
    requires 0 <= row < 3 && 0 <= col < 3
    ensures 0 <= v.0 < 3 && 0 <= v.1 < 3 && LoopCell(f, v.0, v.1) == Cell(row, col)
  {
    match f
    case U => (col, row)
    case D => (col, 2 - row)
    case F => (col, 2 - row)
    case B => (2 - col, 2 - row)
    case R => (2 - row, 2 - col)
    case L => (2 - row, col)
  }

  /**
    `get_face`: rejects a non-`Face` argument with KeyError, otherwise runs
    the two nested loops of the face's branch, writing the colour of the
    piece at each visited coordinate into the cell the branch names.
  */
  method GetFace(c: Cube, arg: FaceArg) returns (r: Result<seq<seq<string>>, CubeError>)
    ensures arg.OtherArg? ==> r == Err(NotAFace)
    ensures arg.FaceArg? ==> r == Ok(FaceGrid(c.pieces, arg.face))
  {
    if arg.OtherArg? {
      return Err(NotAFace);
    }
    var f := arg.face;
    LoopCellFacts(f);
    var grid: seq<seq<string>> := [["", "", ""], ["", "", ""], ["", "", ""]];
    for a := 0 to 3
      invariant |grid| == 3 && forall row :: 0 <= row < 3 ==> |grid[row]| == 3
      invariant forall a', b' {:trigger LoopCell(f, a', b')} :: 0 <= a' < a && 0 <= b' < 3 ==>
                  grid[LoopCell(f, a', b').row][LoopCell(f, a', b').col]
                    == GetColor(MatrixAt(c.pieces, LoopCoord(f, a', b')), f)
    {
      for b := 0 to 3
        invariant |grid| == 3 && forall row :: 0 <= row < 3 ==> |grid[row]| == 3
        invariant forall a', b' {:trigger LoopCell(f, a', b')} :: (0 <= a' < a && 0 <= b' < 3) || (a' == a && 0 <= b' < b) ==>
                    grid[LoopCell(f, a', b').row][LoopCell(f, a', b').col]
                      == GetColor(MatrixAt(c.pieces, LoopCoord(f, a', b')), f)
      {
        var cell := LoopCell(f, a, b);
        var piece := MatrixAt(c.pieces, LoopCoord(f, a, b));
        grid := grid[cell.row := grid[cell.row][cell.col := GetColor(piece, f)]];
      }
    }
    forall row, col | 0 <= row < 3 && 0 <= col < 3 ensures grid[row][col] == Shown(c.pieces, f, row, col) {
      var v := LoopVisit(f, row, col);
      assert LoopCell(f, v.0, v.1) == Cell(row, col);
    }
    var want := FaceGrid(c.pieces, f);
    forall row | 0 <= row < 3 ensures grid[row] == want[row] {
    }
    assert grid == want;
    return Ok(grid);
  }

  /** The slot whose piece shows in row `row`, column `col` of face `f`: its label always names `f`. */
  function CellSlot(f: Face, row: int, col: int): (s: Slot)
    requires 0 <= row < 3 && 0 <= col < 3
    ensures SlotAt(CellCoord(f, row, col)) == Some(s) && Home(s) == CellCoord(f, row, col)
    ensures f in LabelFaces(s)
  {
    var p := CellCoord(f, row, col);
    SlotAtOnlyHomes(p);
    var s := SlotAt(p).value;
    HomeIsGeometric(s);
    assert CoordOfFaces(LabelFaces(s)) == p;
    s
  }

  /** On a valid cube the piece behind a cell of face `f` always has a sticker on `f`, so no cell is "BLACK". */
  lemma ShownOnValid(reg: Registry, f: Face, row: int, col: int)
    requires Valid(reg) && 0 <= row < 3 && 0 <= col < 3
    ensures FirstOn(reg[CellSlot(f, row, col)].faces, f).Some?
    ensures Shown(reg, f, row, col) == ColorName(FirstOn(reg[CellSlot(f, row, col)].faces, f).value)
    ensures Shown(reg, f, row, col) != "BLACK"
  {
    var s := CellSlot(f, row, col);
    MatrixAtComplete(reg, CellCoord(f, row, col));
    assert StickersFit(s, reg[s].faces);
  }

  /** The first sticker of a home map on one of its label faces carries that face's home colour. */
  lemma FirstOnHome(s: Slot, f: Face)
    requires f in LabelFaces(s)
    ensures FirstOn(HomeStickers(s), f) == Some(HomeColor(f))
  {
    var m, labels := HomeStickers(s), LabelFaces(s);
    var i :| 0 <= i < |labels| && labels[i] == f;
    assert m[i].face == f;
    assert FirstOn(m, f).Some?;
    var k :| 0 <= k < |m| && m[k] == Sticker(FirstOn(m, f).value, f);
    assert m[k] == Sticker(HomeColor(labels[k]), labels[k]);
  }

  /** The middle cell of each face shows the face's own centre, in its home colour. */
  lemma CenterCellOnValid(reg: Registry, f: Face)
    requires Valid(reg)
    ensures Shown(reg, f, 1, 1) == ColorName(HomeColor(f))
  {
    MiddleCellSlot(f);
    ShownOnValid(reg, f, 1, 1);
    FirstOnHome(Center(f), f);
  }

  /** The middle cell of each face shows that face's centre slot. */
  lemma MiddleCellSlot(f: Face)
    ensures CellSlot(f, 1, 1) == Center(f)
  {
    HomeInjective(CellSlot(f, 1, 1), Center(f));
    match f
    case U => case D => case F => case B => case L => case R =>
  }

  /** On the constructor's cube every cell of face `f` shows the face's home colour. */
  lemma NewCubeShown(f: Face, row: int, col: int)
    requires 0 <= row < 3 && 0 <= col < 3
    ensures Shown(NewCube().pieces, f, row, col) == ColorName(HomeColor(f))
  {
    NewCubeValid();
    ShownOnValid(NewCube().pieces, f, row, col);
    FirstOnHome(CellSlot(f, row, col), f);
  }

  /**
    `name[0]`. The `' '` for an empty name is never reached from a cube:
    every shown name is "BLACK" or a colour name (`ShownNonEmpty`), so
    Python's `IndexError` on `""[0]` has no counterpart here.
  */
  function FirstChar(name: string): char {
    if |name| > 0 then name[0] else ' '
  }

  /** Every cell shows a non-empty name, so its initial is that name's first character. */
  lemma ShownNonEmpty(reg: Registry, f: Face, row: int, col: int)
    ensures |Shown(reg, f, row, col)| > 0
    ensures Initial(reg, f, row, col) == Shown(reg, f, row, col)[0]
  {
    var piece := MatrixAt(reg, CellCoord(f, row, col));
    if Shown(reg, f, row, col) != "BLACK" {
      ColorFacelet(FirstOn(piece.value.faces, f).value);
    }
  }

  /** `_get_color(...)[0]` at a cell: the initial of the colour name shown there. */
  function Initial(reg: Registry, f: Face, row: int, col: int): char {
    FirstChar(Shown(reg, f, row, col))
  }

  /** The nine initials `get_face_for_kociemba` concatenates, row by row. */
  function FaceString(reg: Registry, f: Face): (r: string)
    ensures |r| == 9
    ensures forall i :: 0 <= i < 9 ==> r[i] == Initial(reg, f, i / 3, i % 3)
  {
    seq(9, i requires 0 <= i < 9 => Initial(reg, f, i / 3, i % 3))
  }

  /**
    `get_face_for_kociemba`: the same grid as `get_face`, with each cell cut
    to its first letter and the rows concatenated.
  */
  method GetFaceForKociemba(c: Cube, arg: FaceArg) returns (r: Result<string, CubeError>)
    ensures arg.OtherArg? ==> r == Err(NotAFace)
    ensures arg.FaceArg? ==> r == Ok(FaceString(c.pieces, arg.face))
  {
    var grid :- GetFace(c, arg);
    var out := JoinInitials(grid);
    assert out == FaceString(c.pieces, arg.face);
    return Ok(out);
  }

  /** The concatenating loop: the first letter of each cell, row by row. */
  method JoinInitials(grid: seq<seq<string>>) returns (out: string)
    requires |grid| == 3 && forall row :: 0 <= row < 3 ==> |grid[row]| == 3
    ensures |out| == 9
    ensures forall i :: 0 <= i < 9 ==> out[i] == FirstChar(grid[i / 3][i % 3])
  {
    out := "";
    for row := 0 to 3
      invariant |out| == 3 * row
      invariant forall r, k :: 0 <= r < row && 0 <= k < 3 ==> out[3 * r + k] == FirstChar(grid[r][k])
    {
      for col := 0 to 3
        invariant |out| == 3 * row + col
        invariant forall r, k :: 0 <= r < row && 0 <= k < 3 ==> out[3 * r + k] == FirstChar(grid[r][k])
        invariant forall k :: 0 <= k < col ==> out[3 * row + k] == FirstChar(grid[row][k])
      {
        out := out + [FirstChar(grid[row][col])];
      }
    }
    forall i | 0 <= i < 9 ensures out[i] == FirstChar(grid[i / 3][i % 3]) {
      assert i == 3 * (i / 3) + i % 3;
    }
  }

  /** The facelet table of `toString`: a colour initial becomes the letter of the face that colour belongs to. */
  function Facelet(ch: char): char {
    if ch == 'Y' then 'U'
    else if ch == 'R' then 'R'
    else if ch == 'B' then 'F'
    else if ch == 'W' then 'D'
    else if ch == 'O' then 'L'
    else if ch == 'G' then 'B'
    else ch
  }

  /** The face letter as a character. */
  function FaceChar(x: Face): char {
    FaceLetter(x)[0]
  }

  /** Each colour's initial translates to the letter of the face it is the home colour of. */
  lemma FaceletOfHomeColor(x: Face)
    ensures |ColorName(HomeColor(x))| > 0
    ensures Facelet(ColorName(HomeColor(x))[0]) == FaceChar(x)
  {
    match x
    case U => case D => case F => case B => case L => case R =>
  }

  /** The faces in the order `toString` concatenates them. */
  const KociembaOrder: seq<Face> := [U, R, F, D, L, B]

  /**
    `toString`: the six face strings concatenated in U, R, F, D, L, B order
    (character `i` comes from face `i / 9`, position `i % 9`), translated
    character by character.
  */
  function ToString(c: Cube): (r: string)
    ensures |r| == 54
  {
    seq(54, i requires 0 <= i < 54 => Facelet(FaceString(c.pieces, KociembaOrder[i / 9])[i % 9]))
  }

  /** Character `9 * k + 3 * row + col` of the string: the translated initial in that cell of the `k`-th face. */
  lemma ToStringAt(c: Cube, k: int, row: int, col: int)
    requires 0 <= k < 6 && 0 <= row < 3 && 0 <= col < 3
    ensures 0 <= 9 * k + 3 * row + col < 54
    ensures ToString(c)[9 * k + 3 * row + col] == Facelet(Initial(c.pieces, KociembaOrder[k], row, col))
  {
    var i := 9 * k + 3 * row + col;
    assert i / 9 == k && i % 9 == 3 * row + col;
    assert (i % 9) / 3 == row && (i % 9) % 3 == col;
  }

  /**
    On a valid cube the string is a Kociemba facelet string: 54 face letters,
    with each face's middle facelet naming the face itself.
  */
  lemma ToStringOnValid(c: Cube)
    requires Valid(c.pieces)
    ensures forall i :: 0 <= i < 54 ==> ToString(c)[i] in "URFDLB"
    ensures forall k :: 0 <= k < 6 ==> ToString(c)[9 * k + 4] == FaceChar(KociembaOrder[k])
  {
    forall i | 0 <= i < 54 ensures ToString(c)[i] in "URFDLB" {
      LetterOnValid(c, i);
    }
    forall k | 0 <= k < 6 ensures ToString(c)[9 * k + 4] == FaceChar(KociembaOrder[k]) {
      CenterLetterOnValid(c, k);
    }
  }

  lemma LetterOnValid(c: Cube, i: int)
    requires Valid(c.pieces) && 0 <= i < 54
    ensures ToString(c)[i] in "URFDLB"
  {
    var k, row, col := i / 9, (i % 9) / 3, (i % 9) % 3;
    assert i == 9 * k + 3 * row + col;
    ToStringAt(c, k, row, col);
    var f := KociembaOrder[k];
    ShownOnValid(c.pieces, f, row, col);
    ColorFacelet(FirstOn(c.pieces[CellSlot(f, row, col)].faces, f).value);
  }

  lemma CenterLetterOnValid(c: Cube, k: int)
    requires Valid(c.pieces) && 0 <= k < 6
    ensures ToString(c)[9 * k + 4] == FaceChar(KociembaOrder[k])
  {
    ToStringAt(c, k, 1, 1);
    CenterOfFace(c, KociembaOrder[k]);
  }

  lemma CenterOfFace(c: Cube, f: Face)
    requires Valid(c.pieces)
    ensures Facelet(Initial(c.pieces, f, 1, 1)) == FaceChar(f)
  {
    CenterCellOnValid(c.pieces, f);
    FaceletOfHomeColor(f);
  }

  /** Every colour's initial translates to a face letter. */
  lemma ColorFacelet(col: Color)
    ensures |ColorName(col)| > 0 && Facelet(ColorName(col)[0]) in "URFDLB"
  {
  }

  /** On the constructor's cube character `i` names the `i / 9`-th face of the U, R, F, D, L, B order. */
  lemma NewCubeStringAt(i: int)
    requires 0 <= i < 54
    ensures ToString(NewCube())[i] == FaceChar(KociembaOrder[i / 9])
  {
    var k, row, col := i / 9, (i % 9) / 3, (i % 9) % 3;
    assert i == 9 * k + 3 * row + col;
    ToStringAt(NewCube(), k, row, col);
    NewCubeShown(KociembaOrder[k], row, col);
    FaceletOfHomeColor(KociembaOrder[k]);
  }

  /** The constructor's cube prints as nine of each face letter, in U, R, F, D, L, B order. */
  lemma NewCubeString()
    ensures ToString(NewCube()) == "UUUUUUUUU" + "RRRRRRRRR" + "FFFFFFFFF" + "DDDDDDDDD" + "LLLLLLLLL" + "BBBBBBBBB"
  {
    var want := "UUUUUUUUU" + "RRRRRRRRR" + "FFFFFFFFF" + "DDDDDDDDD" + "LLLLLLLLL" + "BBBBBBBBB";
    forall i | 0 <= i < 54 ensures ToString(NewCube())[i] == want[i] {
      NewCubeStringAt(i);
      SolvedLetters(i);
    }
  }

  /** The solved string spells the U, R, F, D, L, B order nine letters at a time. */
  lemma SolvedLetters(i: int)
    requires 0 <= i < 54
    ensures ("UUUUUUUUU" + "RRRRRRRRR" + "FFFFFFFFF" + "DDDDDDDDD" + "LLLLLLLLL" + "BBBBBBBBB")[i] == FaceChar(KociembaOrder[i / 9])
  {
    if i < 9 { assert i / 9 == 0; }
    else if i < 18 { assert i / 9 == 1; }
    else if i < 27 { assert i / 9 == 2; }
    else if i < 36 { assert i / 9 == 3; }
    else if i < 45 { assert i / 9 == 4; }
    else { assert i / 9 == 5; }
  }

  /** Every cell of every face shows the same colour name as the face's middle cell. */
  ghost predicate Uniform(reg: Registry) {
    forall f: Face :: FaceUniform(reg, f)
  }

  /** The position of each face in enum order. */
  function FaceIndex(f: Face): (k: nat)
    ensures k < |AllFaces| && AllFaces[k] == f
  {
    match f
    case U => 0 case D => 1 case F => 2 case B => 3 case L => 4 case R => 5
  }

  /** Every cell of face `f` shows the same colour name as its middle cell. */
  ghost predicate FaceUniform(reg: Registry, f: Face) {
    forall row, col :: 0 <= row < 3 && 0 <= col < 3 ==> Shown(reg, f, row, col) == Shown(reg, f, 1, 1)
  }

  /**
    `is_solved`: visits the faces in enum order and answers False at the
    first face with a cell unlike its middle one.
  */
  method IsSolved(c: Cube) returns (r: bool)
    ensures r <==> Uniform(c.pieces)
  {
    for n := 0 to |AllFaces|
      invariant forall k :: 0 <= k < n ==> FaceUniform(c.pieces, AllFaces[k])
    {
      var same := CheckFace(c, AllFaces[n]);
      if !same {
        return false;
      }
    }
    forall f: Face ensures FaceUniform(c.pieces, f) {
      assert AllFaces[FaceIndex(f)] == f;
    }
    return true;
  }

  /** The inner loops of `is_solved` for one face: its grid against the middle cell. */
  method CheckFace(c: Cube, f: Face) returns (same: bool)
    ensures same <==> FaceUniform(c.pieces, f)
  {
    var res := GetFace(c, FaceArg(f));
    same := MatchesMiddle(res.value);
  }

  /** Whether every cell of a 3x3 grid equals its middle cell `grid[1][1]`, scanning rows then columns. */
  method MatchesMiddle(grid: seq<seq<string>>) returns (same: bool)
    requires |grid| == 3 && forall row :: 0 <= row < 3 ==> |grid[row]| == 3
    ensures same <==> forall row, col :: 0 <= row < 3 && 0 <= col < 3 ==> grid[row][col] == grid[1][1]
  {
    var center := grid[1][1];
    for row := 0 to 3
      invariant forall r', col :: 0 <= r' < row && 0 <= col < 3 ==> grid[r'][col] == center
    {
      for col := 0 to 3
        invariant forall r', k :: (0 <= r' < row && 0 <= k < 3) || (r' == row && 0 <= k < col) ==> grid[r'][k] == center
      {
        if grid[row][col] != center {
          return false;
        }
      }
    }
    return true;
  }

  /** On a valid cube a face is uniform exactly when every cell shows the face's home colour. */
  lemma FaceUniformOnValid(reg: Registry, f: Face)
    requires Valid(reg)
    ensures FaceUniform(reg, f) <==> forall row, col :: 0 <= row < 3 && 0 <= col < 3 ==>
                                       Shown(reg, f, row, col) == ColorName(HomeColor(f))
  {
    CenterCellOnValid(reg, f);
  }

  /** The constructor's cube is solved. */
  lemma NewCubeSolved()
    ensures Uniform(NewCube().pieces)
  {
    forall f: Face ensures FaceUniform(NewCube().pieces, f) {
      forall row, col | 0 <= row < 3 && 0 <= col < 3
        ensures Shown(NewCube().pieces, f, row, col) == Shown(NewCube().pieces, f, 1, 1)
      {
        NewCubeShown(f, row, col);
        NewCubeShown(f, 1, 1);
      }
    }
  }

  /** Any sequence of moves from the constructor's cube, followed by its inverse sequence, leaves it solved. */
  lemma UndoSolves(ms: seq<Move>)
    ensures Uniform(TurnAll(TurnAll(NewCube().pieces, ms), InverseMoves(ms)))
  {
    UndoAll(NewCube().pieces, ms);
    NewCubeSolved();
  }

  /** Rewriting a map through a face's table moves the sticker that showed on `Unrotate(f, g)` onto `g`. */
  lemma {:induction false} RewriteFirstOn(f: Face, m: ColorMap, g: Face)
    ensures FirstOn(Rewrite(f, m), g) == FirstOn(m, Unrotate(f, g))
    decreases |m|
  {
    if |m| > 0 {
      RotateIsQuarterCycle(f, m[0].face);
      RotateIsQuarterCycle(f, g);
      assert Rotate(f, m[0].face) == g <==> m[0].face == Unrotate(f, g);
      assert Rewrite(f, m)[1..] == Rewrite(f, m[1..]);
      RewriteFirstOn(f, m[1..], g);
    }
  }

  /** For each turned face, a side face and a cell of it on the turned layer. */
  function UnsolvedCell(f: Face): (w: (Face, int, int))
    ensures 0 <= w.1 < 3 && 0 <= w.2 < 3
    ensures w.0 != f && w.0 != Opposite(f)
    ensures OnLayer(f, CellSlot(w.0, w.1, w.2))
  {
    match f
    case U => (F, 0, 0)
    case D => (F, 2, 0)
    case F => (U, 2, 0)
    case B => (U, 0, 0)
    case L => (U, 0, 0)
    case R => (U, 0, 2)
  }

  /** After a quarter-turn of the solved cube, a cell on the turned layer shows the colour of the face before its own. */
  lemma SpunCell(f: Face, g: Face, row: int, col: int)
    requires 0 <= row < 3 && 0 <= col < 3
    requires OnLayer(f, CellSlot(g, row, col))
    ensures Shown(Spin(NewCube().pieces, f), g, row, col) == ColorName(HomeColor(Unrotate(f, g)))
  {
    var reg0 := NewCube().pieces;
    var reg := Spin(reg0, f);
    var s := CellSlot(g, row, col);
    var x := Unrotate(f, g);
    SpinKeepsComplete(reg0, f);
    MatrixAtComplete(reg, CellCoord(g, row, col));
    assert reg[s].faces == Rewrite(f, HomeStickers(Source(f, s)));
    RewriteFirstOn(f, HomeStickers(Source(f, s)), g);
    RotateIsQuarterCycle(f, g);
    LabelTransport(f, s);
    FirstOnHome(Source(f, s), x);
  }

  /**
    A single quarter-turn of the solved cube leaves it unsolved: a side face
    shows, on the turned layer, the colour of the face before it.
  */
  lemma QuarterTurnUnsolves(f: Face)
    ensures !Uniform(Spin(NewCube().pieces, f))
  {
    var reg := Spin(NewCube().pieces, f);
    var w := UnsolvedCell(f);
    var g, row, col := w.0, w.1, w.2;
    SpunCell(f, g, row, col);
    SpunCenter(f, g);
    RotateIsQuarterCycle(f, g);
    HomeColorInjective(Unrotate(f, g), g);
    ColorNameInjective(HomeColor(Unrotate(f, g)), HomeColor(g));
    assert !FaceUniform(reg, g);
  }

  /** A quarter-turn never moves a centre, so every middle cell keeps its home colour. */
  lemma SpunCenter(f: Face, g: Face)
    ensures Shown(Spin(NewCube().pieces, f), g, 1, 1) == ColorName(HomeColor(g))
  {
    var reg0 := NewCube().pieces;
    var reg := Spin(reg0, f);
    SpinKeepsComplete(reg0, f);
    MiddleCellSlot(g);
    MatrixAtComplete(reg, CellCoord(g, 1, 1));
    OnLayerIsGeometric(f, Center(g));
    assert reg[Center(g)] == reg0[Center(g)];
    FirstOnHome(Center(g), g);
  }

  /** Python list indexing on a 3-element list: -3..-1 count from the end, anything else outside 0..2 is an IndexError. */
  function PyIndex(i: int): (r: Option<int>)
    ensures r.Some? <==> -3 <= i < 3
    ensures r.Some? ==> 0 <= r.value < 3 && (r.value == i || r.value == i + 3)
  {
    if 0 <= i < 3 then Some(i) else if -3 <= i < 0 then Some(i + 3) else None
  }

  /** `get_piece_at_position`: rebuild, then `matrix[x][y][z]` with Python's index rules. */
  function GetPieceAtPosition(c: Cube, x: int, y: int, z: int): (r: Result<Option<PieceObj>, CubeError>)
    ensures r.Err? <==> PyIndex(x).None? || PyIndex(y).None? || PyIndex(z).None?
    ensures r.Err? ==> r.error == IndexOutOfRange
  {
    match (PyIndex(x), PyIndex(y), PyIndex(z))
    case (Some(i), Some(j), Some(k)) => Ok(MatrixAt(c.pieces, Coord(i, j, k)))
    case _ => Err(IndexOutOfRange)
  }

  /**
    On a complete cube the lookup at a slot's home returns that slot's piece,
    the middle returns None, and a negative index names the same place as
    the index three higher.
  */
  lemma GetPieceAtHome(c: Cube, s: Slot)
    requires Complete(c.pieces)
    ensures GetPieceAtPosition(c, Home(s).x, Home(s).y, Home(s).z) == Ok(Some(c.pieces[s]))
    ensures GetPieceAtPosition(c, Home(s).x - 3, Home(s).y - 3, Home(s).z - 3) == Ok(Some(c.pieces[s]))
    ensures GetPieceAtPosition(c, 1, 1, 1) == Ok(None)
  {
    HomeIsGeometric(s);
    SlotAtHome(s);
    MatrixAtComplete(c.pieces, Home(s));
    MatrixAtComplete(c.pieces, Coord(1, 1, 1));
  }

  /**
    Every in-range lookup on a complete cube: the index triple, negatives
    counted from the end, names a grid cell, and the result is the piece
    whose home that cell is, or None at the core.
  */
  lemma GetPieceAtIndex(c: Cube, x: int, y: int, z: int)
    requires Complete(c.pieces)
    requires -3 <= x < 3 && -3 <= y < 3 && -3 <= z < 3
    ensures GetPieceAtPosition(c, x, y, z) ==
              Ok(match SlotAt(Coord((x + 3) % 3, (y + 3) % 3, (z + 3) % 3))
                 case Some(s) => Some(c.pieces[s])
                 case None => None)
  {
    var p := Coord((x + 3) % 3, (y + 3) % 3, (z + 3) % 3);
    assert PyIndex(x) == Some(p.x) && PyIndex(y) == Some(p.y) && PyIndex(z) == Some(p.z);
    assert GetPieceAtPosition(c, x, y, z) == Ok(MatrixAt(c.pieces, p));
    MatrixAtComplete(c.pieces, p);
  }

  /** The colours passed to `find_piece_by_colors`, as the set it compares. */
  function ColorsOf(colors: seq<Color>): set<Color> {
    set i | 0 <= i < |colors| :: colors[i]
  }

  /** Whether the piece under `s` carries every wanted colour. */
  predicate Carries(reg: Registry, s: Slot, want: set<Color>) {
    s in reg && want <= ColorSet(reg[s].faces)
  }

  /** The first of `slots` whose piece carries every wanted colour. */
  function FirstCarrier(reg: Registry, slots: seq<Slot>, want: set<Color>): (r: Option<nat>)
    ensures r.Some? ==> r.value < |slots| && Carries(reg, slots[r.value], want)
                        && forall j :: 0 <= j < r.value ==> !Carries(reg, slots[j], want)
    ensures r.None? <==> forall j :: 0 <= j < |slots| ==> !Carries(reg, slots[j], want)
    decreases |slots|
  {
    if |slots| == 0 then None
    else if Carries(reg, slots[0], want) then Some(0)
    else
      match FirstCarrier(reg, slots[1..], want)
      case None => None
      case Some(k) => Some(k + 1)
  }

  /**
    `find_piece_by_colors`: the first piece, in registry order, whose
    colours include every given colour; None when no piece does.
  */
  function FindPieceByColors(c: Cube, colors: seq<Color>): (r: Option<PieceObj>)
    ensures r.None? <==> forall j :: 0 <= j < |AllSlots| ==> !Carries(c.pieces, AllSlots[j], ColorsOf(colors))
    ensures r.Some? ==> exists i :: 0 <= i < |AllSlots| && Carries(c.pieces, AllSlots[i], ColorsOf(colors))
                         && r.value == c.pieces[AllSlots[i]]
                         && forall j :: 0 <= j < i ==> !Carries(c.pieces, AllSlots[j], ColorsOf(colors))
  {
    match FirstCarrier(c.pieces, AllSlots, ColorsOf(colors))
    case None => None
    case Some(i) => Some(c.pieces[AllSlots[i]])
  }

  /** The colours of a solved piece, as its label lists them: the arguments the solver passes. */
  function HomeColors(t: Slot): (cs: seq<Color>)
    ensures |cs| == |LabelFaces(t)|
    ensures forall i :: 0 <= i < |cs| ==> cs[i] == HomeColor(LabelFaces(t)[i])
  {
    seq(|LabelFaces(t)|, i requires 0 <= i < |LabelFaces(t)| => HomeColor(LabelFaces(t)[i]))
  }

  /** Asking for a solved piece's colours asks for exactly the colour set it starts with. */
  lemma HomeColorsWanted(t: Slot)
    ensures ColorsOf(HomeColors(t)) == ColorSet(HomeStickers(t))
  {
    var cs, m := HomeColors(t), HomeStickers(t);
    forall x | x in ColorsOf(cs) ensures x in ColorSet(m) {
      var i :| 0 <= i < |cs| && cs[i] == x;
      assert m[i].color == x;
    }
    forall x | x in ColorSet(m) ensures x in ColorsOf(cs) {
      var i :| 0 <= i < |m| && m[i].color == x;
      assert cs[i] == x;
    }
  }

  /** A subset is no larger than its superset, and equally large only when equal. */
  lemma SubsetCard(a: set<Color>, b: set<Color>)
    requires a <= b
    ensures |a| <= |b|
    ensures |a| == |b| ==> a == b
  {
    assert b == a + (b - a);
    assert a * (b - a) == {};
  }

  /** A map whose colours are pairwise distinct has as many colours as stickers. */
  lemma ColorSetCard(m: ColorMap)
    requires forall i, j :: 0 <= i < j < |m| ==> m[i].color != m[j].color
    ensures |ColorSet(m)| == |m|
  {
    var cs := seq(|m|, i requires 0 <= i < |m| => m[i].color);
    DistinctCard(cs);
    var listed := set i | 0 <= i < |cs| :: cs[i];
    forall x | x in ColorSet(m) ensures x in listed {
      var i :| 0 <= i < |m| && m[i].color == x;
      assert cs[i] == x;
    }
    forall x | x in listed ensures x in ColorSet(m) {
      var i :| 0 <= i < |cs| && cs[i] == x;
      assert m[i].color == x;
    }
    assert ColorSet(m) == listed;
  }

  /** On a valid cube the piece under a slot carries exactly as many colours as the slot has stickers. */
  lemma CarriedCard(reg: Registry, s: Slot)
    requires Oriented(reg)
    ensures |ColorSet(reg[s].faces)| == Arity(s)
  {
    assert StickersFit(s, reg[s].faces);
    ColorSetCard(reg[s].faces);
  }

  /**
    On a valid cube, asking for a solved piece's colours finds the piece that
    carries exactly those colours: no piece with fewer stickers can hold them
    all, and every piece with more comes later in registry order.
  */
  lemma FindsPieceByItsColors(c: Cube, t: Slot)
    requires Valid(c.pieces)
    ensures FindPieceByColors(c, HomeColors(t)).Some?
    ensures ColorSet(FindPieceByColors(c, HomeColors(t)).value.faces) == ColorSet(HomeStickers(t))
  {
    HomeColorsWanted(t);
    var want := ColorSet(HomeStickers(t));
    var i := FirstCarrierExact(c.pieces, t);
    assert FindPieceByColors(c, HomeColors(t)) == Some(c.pieces[AllSlots[i]]);
  }

  /** The search for a solved piece's colour set stops at the slot carrying exactly that set. */
  lemma FirstCarrierExact(reg: Registry, t: Slot) returns (i: nat)
    requires Oriented(reg) && Populated(reg)
    ensures FirstCarrier(reg, AllSlots, ColorSet(HomeStickers(t))) == Some(i)
    ensures ColorSet(reg[AllSlots[i]].faces) == ColorSet(HomeStickers(t))
  {
    var want := ColorSet(HomeStickers(t));
    HomeStickersFit(t);
    ColorSetCard(HomeStickers(t));
    assert Carried(reg, want);
    var e: Slot :| e in reg && ColorSet(reg[e].faces) == want;
    CarriedCard(reg, e);
    SlotIndexFinds(e);
    assert Carries(reg, AllSlots[SlotIndex(e)], want);
    i := FirstCarrier(reg, AllSlots, want).value;
    var s := AllSlots[i];
    CarriedCard(reg, s);
    SubsetCard(want, ColorSet(reg[s].faces));
    SlotIndexOfEntries();
    SlotIndexByArity(s);
    SlotIndexByArity(e);
  }
}
