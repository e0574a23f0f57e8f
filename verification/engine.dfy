/**
  The piece-moving helpers that core/cube.py and solver/cube.py share word for
  word: `_fetch_components`, `_rotate_components`, `_apply_components`,
  `_rearrange_pieces` and the fetch/rotate/apply/rearrange sequence that
  `_rotate_pieces` (and the solver's `_rotate_edges`/`_rotate_corners`) run.

  Python objects become values: the registry is a map from key to piece value,
  and a piece's colour map is carried by value rather than shared by reference.
*/
module Engine {

  import opened Wrappers
  import opened Faces
  import opened Slots

  /** A piece object: its name, its position and its colour-to-face map. */
  datatype PieceObj = PieceObj(name: Slot, position: Coord, faces: ColorMap)

  /** The `pieces` dict: registry key to piece. */
  type Registry = map<Slot, PieceObj>

  /** The three parallel lists `_fetch_components` returns. */
  datatype Components = Components(positions: seq<Coord>, faces: seq<ColorMap>, names: seq<Slot>)

  /** The exceptions the cube code raises. */
  datatype CubeError =
    | PieceNotFound(key: Slot)          // ValueError: piece not found in cube
    | InvalidFaceToken(token: string)   // ValueError: invalid face
    | PopFromEmpty                      // IndexError: pop from an empty list
    | NotAFace                          // KeyError: argument is not a Face
    | IndexOutOfRange                   // IndexError: list index out of range

  /**
    The per-face table of `_rotate_components`: the face a sticker shows on
    after a clockwise quarter-turn of face `f`.
  */
  function Rotate(f: Face, x: Face): Face {
    match f
    case U => (match x case F => L case L => B case B => R case R => F case _ => x)
    case D => (match x case F => R case R => B case B => L case L => F case _ => x)
    case R => (match x case F => U case U => B case B => D case D => F case _ => x)
    case L => (match x case F => D case D => B case B => U case U => F case _ => x)
    case B => (match x case R => U case U => L case L => D case D => R case _ => x)
    case F => (match x case R => D case D => L case L => U case U => R case _ => x)
  }

  /** Three more quarter-turns: the face a sticker came from. */
  function Unrotate(f: Face, x: Face): Face {
    Rotate(f, Rotate(f, Rotate(f, x)))
  }

  /**
    Each table fixes the turned face and its opposite and runs the four faces
    around the axis through one 4-cycle: one step moves a face off itself, two
    steps reach the opposite face, four steps return it.
  */
  lemma RotateIsQuarterCycle(f: Face, x: Face)
    ensures Rotate(f, f) == f && Rotate(f, Opposite(f)) == Opposite(f)
    ensures x != f && x != Opposite(f) ==>
              && Rotate(f, x) != x
              && Rotate(f, x) != f && Rotate(f, x) != Opposite(f)
              && Rotate(f, Rotate(f, x)) == Opposite(x)
    ensures Rotate(f, Rotate(f, Rotate(f, Rotate(f, x)))) == x
    ensures Unrotate(f, Rotate(f, x)) == x && Rotate(f, Unrotate(f, x)) == x
  {
  }

  /** Every sticker's face rewritten through face `f`'s table; colours and order kept. */
  function Rewrite(f: Face, m: ColorMap): (r: ColorMap)
    ensures |r| == |m|
    ensures forall i :: 0 <= i < |m| ==> r[i].color == m[i].color && r[i].face == Rotate(f, m[i].face)
  {
    seq(|m|, i requires 0 <= i < |m| => Sticker(m[i].color, Rotate(f, m[i].face)))
  }

  /** The cyclic successor of index i among n. */
  function Succ(i: int, n: int): (r: int)
    ensures 0 <= i < n ==> 0 <= r < n
  {
    if i + 1 >= n then 0 else i + 1
  }

  /** The cyclic predecessor of index i among n. */
  function Pred(i: int, n: int): (r: int)
    ensures 0 <= i < n ==> 0 <= r < n
  {
    if i <= 0 then n - 1 else i - 1
  }

  lemma SuccPred(i: int, n: int)
    requires 0 <= i < n
    ensures 0 <= Succ(i, n) < n && 0 <= Pred(i, n) < n
    ensures Succ(Pred(i, n), n) == i && Pred(Succ(i, n), n) == i
    ensures Succ(i, n) == (i + 1) % n && Pred(i, n) == (i + n - 1) % n
  {
  }

  /** `lst.append(lst.pop(0))`: the first element moves to the end. */
  function RotateLeft<T>(s: seq<T>): (r: seq<T>)
    requires |s| > 0
    ensures |r| == |s|
    ensures forall i {:trigger r[i]} :: 0 <= i < |s| ==> r[i] == s[Succ(i, |s|)]
  {
    s[1..] + [s[0]]
  }

  /** `lst.insert(0, lst.pop())`: the last element moves to the front. */
  function RotateRight<T>(s: seq<T>): (r: seq<T>)
    requires |s| > 0
    ensures |r| == |s|
    ensures forall i {:trigger r[i]} :: 0 <= i < |s| ==> r[i] == s[Pred(i, |s|)]
  {
    [s[|s| - 1]] + s[..|s| - 1]
  }

  predicate AllIn(reg: Registry, keys: seq<Slot>) {
    forall i :: 0 <= i < |keys| ==> keys[i] in reg
  }

  predicate Distinct(keys: seq<Slot>) {
    forall i, j :: 0 <= i < j < |keys| ==> keys[i] != keys[j]
  }

  function IndexOf(cyc: seq<Slot>, s: Slot): (i: nat)
    requires s in cyc
    ensures i < |cyc| && cyc[i] == s
    ensures forall j :: 0 <= j < i ==> cyc[j] != s
  {
    if cyc[0] == s then 0 else 1 + IndexOf(cyc[1..], s)
  }

  /** The key before `s` in a cycle (the last key for the first). */
  function CycPrev(cyc: seq<Slot>, s: Slot): Slot
    requires s in cyc
  {
    cyc[Pred(IndexOf(cyc, s), |cyc|)]
  }

  /** The key after `s` in a cycle (the first key for the last). */
  function CycNext(cyc: seq<Slot>, s: Slot): Slot
    requires s in cyc
  {
    cyc[Succ(IndexOf(cyc, s), |cyc|)]
  }

  lemma IndexOfDistinct(cyc: seq<Slot>, j: int)
    requires Distinct(cyc) && 0 <= j < |cyc|
    ensures IndexOf(cyc, cyc[j]) == j
  {
  }

  /** In a 4-cycle of distinct keys, stepping back and forth cancel, and four steps back return. */
  lemma CycleLaws(cyc: seq<Slot>, s: Slot)
    requires |cyc| == 4 && Distinct(cyc) && s in cyc
    ensures CycPrev(cyc, s) in cyc && CycNext(cyc, s) in cyc
    ensures CycNext(cyc, CycPrev(cyc, s)) == s && CycPrev(cyc, CycNext(cyc, s)) == s
    ensures CycPrev(cyc, CycPrev(cyc, CycPrev(cyc, CycPrev(cyc, s)))) == s
    ensures CycPrev(cyc, CycPrev(cyc, CycPrev(cyc, s))) == CycNext(cyc, s)
  {
    var i := IndexOf(cyc, s);
    SuccPred(i, 4);
    IndexOfDistinct(cyc, Pred(i, 4));
    IndexOfDistinct(cyc, Succ(i, 4));
    var p1 := Pred(i, 4);
    var p2 := Pred(p1, 4);
    var p3 := Pred(p2, 4);
    IndexOfDistinct(cyc, p2);
    IndexOfDistinct(cyc, p3);
    assert CycPrev(cyc, s) == cyc[p1];
    assert CycPrev(cyc, cyc[p1]) == cyc[p2];
    assert CycPrev(cyc, cyc[p2]) == cyc[p3];
    assert CycPrev(cyc, cyc[p3]) == cyc[Pred(p3, 4)];
  }

  /** A sequence without repeats has as many distinct elements as entries. */
  lemma {:induction false} DistinctCard<T>(xs: seq<T>)
    requires forall i, j :: 0 <= i < j < |xs| ==> xs[i] != xs[j]
    ensures |set i | 0 <= i < |xs| :: xs[i]| == |xs|
  {
    if |xs| > 0 {
      var tail := xs[..|xs| - 1];
      DistinctCard(tail);
      assert (set i | 0 <= i < |xs| :: xs[i]) == (set i | 0 <= i < |tail| :: tail[i]) + {xs[|xs| - 1]};
    }
  }

  /**
    `_fetch_components`: the positions, colour maps and names of the listed
    pieces, or the error for the first key the registry lacks.
  */
  function FetchComponents(reg: Registry, keys: seq<Slot>): (r: Result<Components, CubeError>)
    ensures r.Ok? <==> AllIn(reg, keys)
    ensures r.Err? ==> exists j :: 0 <= j < |keys| && r.error == PieceNotFound(keys[j])
                                 && keys[j] !in reg && AllIn(reg, keys[..j])
    ensures r.Ok? ==> && |r.value.positions| == |keys|
                      && |r.value.faces| == |keys|
                      && |r.value.names| == |keys|
                      && forall i :: 0 <= i < |keys| ==>
                           && r.value.positions[i] == reg[keys[i]].position
                           && r.value.faces[i] == reg[keys[i]].faces
                           && r.value.names[i] == reg[keys[i]].name
    decreases |keys|
  {
    if |keys| == 0 then Ok(Components([], [], []))
    else if keys[0] !in reg then Err(PieceNotFound(keys[0]))
    else
      match FetchComponents(reg, keys[1..])
      case Err(e) =>
        FirstMissingShifts(reg, keys, e);
        Err(e)
      case Ok(rest) =>
        var p := reg[keys[0]];
        Ok(Components([p.position] + rest.positions, [p.faces] + rest.faces, [p.name] + rest.names))
  }

  /** The first missing key of the tail, found after a present head, is the first missing key of the whole list. */
  lemma FirstMissingShifts(reg: Registry, keys: seq<Slot>, e: CubeError)
    requires |keys| > 0 && keys[0] in reg
    requires exists j :: 0 <= j < |keys| - 1 && e == PieceNotFound(keys[1..][j])
                         && keys[1..][j] !in reg && AllIn(reg, keys[1..][..j])
    ensures exists j :: 0 <= j < |keys| && e == PieceNotFound(keys[j])
                        && keys[j] !in reg && AllIn(reg, keys[..j])
  {
    var j :| 0 <= j < |keys| - 1 && e == PieceNotFound(keys[1..][j])
             && keys[1..][j] !in reg && AllIn(reg, keys[1..][..j]);
    assert keys[..j + 1] == [keys[0]] + keys[1..][..j];
    assert AllIn(reg, keys[..j + 1]);
  }

  /**
    `_rotate_components`: rejects a face token outside U, D, F, B, R, L before
    touching anything; otherwise names and positions move one place towards
    the front and every colour map is rewritten through the face's table.
  */
  function RotateComponents(c: Components, f: string): (r: Result<Components, CubeError>)
    ensures ParseFace(f).None? ==> r == Err(InvalidFaceToken(f))
    ensures r.Ok? <==> ParseFace(f).Some? && |c.names| > 0 && |c.positions| > 0
    ensures r.Ok? ==>
              && |r.value.names| == |c.names|
              && |r.value.positions| == |c.positions|
              && |r.value.faces| == |c.faces|
              && (forall i {:trigger r.value.names[i]} :: 0 <= i < |c.names| ==> r.value.names[i] == c.names[Succ(i, |c.names|)])
              && (forall i {:trigger r.value.positions[i]} :: 0 <= i < |c.positions| ==> r.value.positions[i] == c.positions[Succ(i, |c.positions|)])
              && (forall i :: 0 <= i < |c.faces| ==> r.value.faces[i] == Rewrite(ParseFace(f).value, c.faces[i]))
  {
    match ParseFace(f)
    case None => Err(InvalidFaceToken(f))
    case Some(x) =>
      if |c.names| == 0 || |c.positions| == 0 then Err(PopFromEmpty)
      else
        var faces := seq(|c.faces|, i requires 0 <= i < |c.faces| => Rewrite(x, c.faces[i]));
        Ok(Components(RotateLeft(c.positions), faces, RotateLeft(c.names)))
  }

  /** Sequential `reg[keys[i]] = vals[i]` for each i; on distinct keys each key gets its own value. */
  function Assign(reg: Registry, keys: seq<Slot>, vals: seq<PieceObj>): (r: Registry)
    requires |keys| == |vals|
    ensures forall k :: k in r <==> k in reg || k in keys
    ensures forall k :: k in reg && k !in keys ==> r[k] == reg[k]
    ensures Distinct(keys) ==> forall i :: 0 <= i < |keys| ==> r[keys[i]] == vals[i]
    decreases |keys|
  {
    if |keys| == 0 then reg
    else
      var r := Assign(reg[keys[0] := vals[0]], keys[1..], vals[1..]);
      assert forall i :: 0 <= i < |keys| - 1 ==> keys[1..][i] == keys[i + 1];
      assert forall k :: k in keys <==> k == keys[0] || k in keys[1..];
      r
  }

  /**
    `_apply_components`: every listed piece (up to the shortest list) takes the
    i-th position, colour map and name.
  */
  function ApplyComponents(reg: Registry, keys: seq<Slot>, c: Components): (r: Registry)
    requires AllIn(reg, keys)
    ensures r.Keys == reg.Keys
  {
    var n := Min(Min(|keys|, |c.positions|), Min(|c.faces|, |c.names|));
    var vals := seq(n, i requires 0 <= i < n => PieceObj(c.names[i], c.positions[i], c.faces[i]));
    Assign(reg, keys[..n], vals)
  }

  function Min(a: int, b: int): int {
    if a <= b then a else b
  }

  /**
    `_rearrange_pieces`: the listed registry entries are read, the list is
    rotated one place towards the back, and written back in key order.
  */
  function RearrangePieces(reg: Registry, keys: seq<Slot>): (r: Registry)
    requires |keys| > 0 && AllIn(reg, keys)
    ensures r.Keys == reg.Keys
  {
    var values := seq(|keys|, i requires 0 <= i < |keys| => reg[keys[i]]);
    Assign(reg, keys, RotateRight(values))
  }

  /**
    `_rotate_pieces` (the solver's `_rotate_edges`/`_rotate_corners`):
    fetch, rotate, apply, rearrange. The matrix rebuild that ends it only
    refreshes a cache and is not state here.
  */
  function RotatePieces(reg: Registry, keys: seq<Slot>, f: string): (r: Result<Registry, CubeError>)
    ensures r.Ok? ==> r.value.Keys == reg.Keys
  {
    var comps :- FetchComponents(reg, keys);
    var turned :- RotateComponents(comps, f);
    Ok(RearrangePieces(ApplyComponents(reg, keys, turned), keys))
  }

  /**
    The errors of `_rotate_pieces` come before any change: a missing key is
    reported (whatever the face token) for the first key missing, and a bad
    face token is reported when every key is present.
  */
  lemma RotatePiecesErrors(reg: Registry, keys: seq<Slot>, f: string)
    ensures !AllIn(reg, keys) ==>
              exists j :: 0 <= j < |keys| && keys[j] !in reg && AllIn(reg, keys[..j])
                          && RotatePieces(reg, keys, f) == Err(PieceNotFound(keys[j]))
    ensures AllIn(reg, keys) && ParseFace(f).None? ==> RotatePieces(reg, keys, f) == Err(InvalidFaceToken(f))
    ensures AllIn(reg, keys) && ParseFace(f).Some? && |keys| == 0 ==> RotatePieces(reg, keys, f) == Err(PopFromEmpty)
    ensures RotatePieces(reg, keys, f).Ok? <==> AllIn(reg, keys) && ParseFace(f).Some? && |keys| > 0
  {
    var fetched := FetchComponents(reg, keys);
    if !AllIn(reg, keys) {
      var j :| 0 <= j < |keys| && fetched.error == PieceNotFound(keys[j])
               && keys[j] !in reg && AllIn(reg, keys[..j]);
      assert RotatePieces(reg, keys, f) == Err(PieceNotFound(keys[j]));
    }
  }

  /**
    The reference reading of `_rotate_pieces` along distinct keys: each listed
    key keeps its name and position and receives the map of the key before it,
    rewritten through the table of face `x`; every other entry stays.
  */
  function Shift(reg: Registry, keys: seq<Slot>, x: Face): (r: Registry)
    requires AllIn(reg, keys)
    ensures r.Keys == reg.Keys
  {
    map k | k in reg :: if k in keys then reg[k].(faces := Rewrite(x, reg[CycPrev(keys, k)].faces)) else reg[k]
  }

  lemma RegistryExt(a: Registry, b: Registry)
    requires a.Keys == b.Keys
    requires forall k | k in a :: a[k] == b[k]
    ensures a == b
  {
  }

  /** A registry that agrees with the shifted one key by key is the shifted one. */
  lemma ShiftExt(reg: Registry, keys: seq<Slot>, x: Face, r: Registry)
    requires |keys| > 0 && Distinct(keys) && AllIn(reg, keys)
    requires r.Keys == reg.Keys
    requires forall j {:trigger r[keys[j]]} :: 0 <= j < |keys| ==>
               r[keys[j]] == reg[keys[j]].(faces := Rewrite(x, reg[keys[Pred(j, |keys|)]].faces))
    requires forall k {:trigger r[k]} :: k in reg && k !in keys ==> r[k] == reg[k]
    ensures r == Shift(reg, keys, x)
  {
    var sh := Shift(reg, keys, x);
    forall k | k in r ensures r[k] == sh[k] {
      if k in keys {
        var j := IndexOf(keys, k);
        assert r[keys[j]] == reg[keys[j]].(faces := Rewrite(x, reg[keys[Pred(j, |keys|)]].faces));
      }
    }
    RegistryExt(r, sh);
  }

  /**
    What `_rotate_pieces` does, whatever state the registry is in: on distinct
    keys and a valid face letter it succeeds with `Shift` -- every key keeps
    its own name and position, and only colour maps travel, the one at keys[i]
    arriving at keys[i+1] (cyclically) rewritten through the table. Keys
    outside the list are untouched.
  */
  lemma RotatePiecesShifts(reg: Registry, keys: seq<Slot>, x: Face)
    requires |keys| > 0 && Distinct(keys) && AllIn(reg, keys)
    ensures RotatePieces(reg, keys, FaceLetter(x)) == Ok(Shift(reg, keys, x))
  {
    var comps, turned := RotatePiecesUnfold(reg, keys, x);
    var applied := ApplyComponents(reg, keys, turned);
    ApplyAfterRotate(reg, keys, x, comps, turned);
    RearrangeAfterApply(reg, keys, x, applied);
    ShiftExt(reg, keys, x, RearrangePieces(applied, keys));
  }

  /** The successful path of `_rotate_pieces`, step by step. */
  lemma RotatePiecesUnfold(reg: Registry, keys: seq<Slot>, x: Face) returns (comps: Components, turned: Components)
    requires |keys| > 0 && AllIn(reg, keys)
    ensures FetchComponents(reg, keys) == Ok(comps)
    ensures RotateComponents(comps, FaceLetter(x)) == Ok(turned)
    ensures RotatePieces(reg, keys, FaceLetter(x)) == Ok(RearrangePieces(ApplyComponents(reg, keys, turned), keys))
  {
    FaceLetterRoundTrip(x);
    comps := FetchComponents(reg, keys).value;
    turned := RotateComponents(comps, FaceLetter(x)).value;
  }

  /** `_apply_components` after `_rotate_components` leaves the listed keys as `AppliedRotation` says and the rest alone. */
  lemma ApplyAfterRotate(reg: Registry, keys: seq<Slot>, x: Face, comps: Components, turned: Components)
    requires |keys| > 0 && Distinct(keys) && AllIn(reg, keys)
    requires FetchComponents(reg, keys) == Ok(comps)
    requires RotateComponents(comps, FaceLetter(x)) == Ok(turned)
    ensures forall k :: k in reg && k !in keys ==> ApplyComponents(reg, keys, turned)[k] == reg[k]
    ensures AppliedRotation(reg, keys, x, ApplyComponents(reg, keys, turned))
  {
    var n := |keys|;
    FaceLetterRoundTrip(x);
    var vals := seq(n, i requires 0 <= i < n => PieceObj(turned.names[i], turned.positions[i], turned.faces[i]));
    assert keys[..n] == keys;
    assert ApplyComponents(reg, keys, turned) == Assign(reg, keys, vals);
  }

  /** `_rearrange_pieces` on distinct keys: each key receives what the key before it held. */
  lemma RearrangeMovesForward(applied: Registry, keys: seq<Slot>)
    requires |keys| > 0 && Distinct(keys) && AllIn(applied, keys)
    ensures forall k :: k in applied && k !in keys ==> RearrangePieces(applied, keys)[k] == applied[k]
    ensures forall j {:trigger RearrangePieces(applied, keys)[keys[j]]} :: 0 <= j < |keys| ==>
              RearrangePieces(applied, keys)[keys[j]] == applied[keys[Pred(j, |keys|)]]
  {
    var n := |keys|;
    var values := seq(n, i requires 0 <= i < n => applied[keys[i]]);
    assert RearrangePieces(applied, keys) == Assign(applied, keys, RotateRight(values));
  }

  /** After `_apply_components`, keys[i] holds keys[i+1]'s name and position and keys[i]'s rewritten map. */
  predicate AppliedRotation(reg: Registry, keys: seq<Slot>, x: Face, applied: Registry)
    requires AllIn(reg, keys) && AllIn(applied, keys)
  {
    forall i {:trigger applied[keys[i]]} :: 0 <= i < |keys| ==>
      applied[keys[i]]
        == PieceObj(reg[keys[Succ(i, |keys|)]].name, reg[keys[Succ(i, |keys|)]].position,
                    Rewrite(x, reg[keys[i]].faces))
  }

  /** Each key of `r` along `keys` holds its own name and position and the rewritten map of the key before it. */
  predicate ShiftedAlong(reg: Registry, keys: seq<Slot>, x: Face, r: Registry)
    requires AllIn(reg, keys) && AllIn(r, keys)
  {
    forall j {:trigger r[keys[j]]} :: 0 <= j < |keys| ==>
      r[keys[j]] == reg[keys[j]].(faces := Rewrite(x, reg[keys[Pred(j, |keys|)]].faces))
  }

  /** After `_rearrange_pieces`, each key gets back the value applied at the key before it. */
  lemma RearrangeAfterApply(reg: Registry, keys: seq<Slot>, x: Face, applied: Registry)
    requires |keys| > 0 && Distinct(keys) && AllIn(reg, keys) && AllIn(applied, keys)
    requires applied.Keys == reg.Keys
    requires forall k :: k in reg && k !in keys ==> applied[k] == reg[k]
    requires AppliedRotation(reg, keys, x, applied)
    ensures RearrangePieces(applied, keys).Keys == reg.Keys
    ensures forall k :: k in reg && k !in keys ==> RearrangePieces(applied, keys)[k] == reg[k]
    ensures ShiftedAlong(reg, keys, x, RearrangePieces(applied, keys))
  {
    var n := |keys|;
    RearrangeMovesForward(applied, keys);
    forall j | 0 <= j < n
      ensures RearrangePieces(applied, keys)[keys[j]] == reg[keys[j]].(faces := Rewrite(x, reg[keys[Pred(j, n)]].faces))
    {
      SuccPred(j, n);
    }
  }
}
