/**
  The two enumerations of utils/faces.py and utils/colors.py, reduced to their
  tags, plus the letter and name spellings the cube uses for them.
*/
module Faces {

  import opened Wrappers

  /** Declared in the Python enum's order, which is also the order `for face in Face` visits. */
  datatype Face = U | D | F | B | L | R

  datatype Color = White | Yellow | Blue | Green | Red | Orange

  /** Every face, in enum declaration order. */
  const AllFaces: seq<Face> := [U, D, F, B, L, R]

  /** `Face.X.value`: the colour of each face on a solved cube. */
  function HomeColor(x: Face): Color {
    match x
    case U => Yellow
    case D => White
    case F => Blue
    case B => Green
    case R => Red
    case L => Orange
  }

  /** `Color.X.name`, the string the face projection writes into a cell. */
  function ColorName(c: Color): string {
    match c
    case White => "WHITE"
    case Yellow => "YELLOW"
    case Blue => "BLUE"
    case Green => "GREEN"
    case Red => "RED"
    case Orange => "ORANGE"
  }

  /** `Face.X.name` as a one-letter string. */
  function FaceLetter(x: Face): string {
    match x
    case U => "U"
    case D => "D"
    case F => "F"
    case B => "B"
    case L => "L"
    case R => "R"
  }

  /** The reverse of `FaceLetter`: which face a one-letter token names, if any. */
  function ParseFace(t: string): (r: Option<Face>)
    ensures r.Some? <==> t in {"U", "D", "F", "B", "L", "R"}
    ensures r.Some? ==> FaceLetter(r.value) == t
  {
    if t == "U" then Some(U)
    else if t == "D" then Some(D)
    else if t == "F" then Some(F)
    else if t == "B" then Some(B)
    else if t == "L" then Some(L)
    else if t == "R" then Some(R)
    else None
  }

  /** The face across the cube from `x`. */
  function Opposite(x: Face): Face {
    match x
    case U => D
    case D => U
    case F => B
    case B => F
    case L => R
    case R => L
  }

  lemma FaceLetterRoundTrip(x: Face)
    ensures ParseFace(FaceLetter(x)) == Some(x)
    ensures |FaceLetter(x)| == 1
  {
  }

  /** Distinct faces have distinct home colours, and distinct colours distinct names. */
  lemma HomeColorInjective(x: Face, y: Face)
    ensures HomeColor(x) == HomeColor(y) ==> x == y
  {
  }

  lemma ColorNameInjective(a: Color, b: Color)
    ensures ColorName(a) == ColorName(b) ==> a == b
  {
  }
}
