# Rubik's cube piece engine — a Dafny model

This project models the piece-level Rubik's cube of the repository: the
cube of core/cube.py, the older solver cube of solver/cube.py with its piece
classes in solver/pieces.py, and the scrambler of core/scramble.py. The
`Face` and `Color` enums appear as plain datatypes.

The cube keeps a registry from piece name to piece object. There are 26
pieces: 6 centres, 12 edges and 8 corners. Each piece has a name, a
coordinate in the 3×3×3 grid, and a colour map from colour to the face the
colour shows on. A quarter-turn of a face goes through the same steps in
both cubes:

1. Fetch the positions, maps and names of four keys.
2. Rotate the names and positions one place towards the front.
3. Rewrite every colour map through the face's table.
4. Write the results back.
5. Put each key's own name and position back on it.

The model's registry is a `map<Slot, PieceObj>`, where a `Slot` is one of
the 26 piece names. The helpers return a `Result` in place of raising. The
central fact is `Engine.RotatePiecesShifts`: whatever the registry holds,
after the five steps each key keeps its name and position. Only the colour
maps move, one key along the list, through the table. On a complete cube,
a face turn is therefore the slot-level map `CoreCube.Spin`. On top of
that the model proves:

- the cube invariant (`Invariants.Valid`) is kept by every move;
- a move followed by its inverse restores the cube;
- the projections (`get_face`, the Kociemba string, `is_solved`) say what
  they should on any valid cube;
- the solver's moves are the core's moves.

The two cubes differ in how errors behave. A Python exception does not roll
back what already happened, so a solver move's result is an `Outcome`: the
state it leaves, plus the exception it raised, if any. The random choice in
`generate_scramble` is a nondeterministic choice (`:|`) among the 18 move
tokens.

Modules, by file:

| file | module | models |
|---|---|---|
| faces.dfy | `Faces` | utils/faces.py, utils/colors.py |
| slots.dfy | `Slots` | the piece table of core/cube.py `__init__` |
| engine.dfy | `Engine` | the fetch/rotate/apply/rearrange helpers shared by both cubes |
| core_cube.dfy | `CoreCube` | core/cube.py moves, history, `reset` |
| cube_invariants.dfy | `Invariants` | the invariant every reachable cube keeps |
| projection.dfy | `Projection` | core/cube.py `get_face`, `get_face_for_kociemba`, `toString`, `is_solved`, lookups |
| solver_pieces.dfy | `SolverPieces` | solver/pieces.py |
| solver_cube.dfy | `Solver` | solver/cube.py |
| scramble.dfy | `Scramble` | core/scramble.py |
| wrappers.dfy | `Wrappers` | `Option` and `Result` |

## Model

| member | source | states |
|---|---|---|
| Faces.ParseFace | core/cube.py:278-281 | A token is accepted exactly when it is one of U, D, F, B, L, R, and the accepted face prints back as that token. |
| Faces.FaceLetterRoundTrip | utils/faces.py:7-14 | Each of the six faces is named by a one-letter token, and that token parses back to the same face. |
| Faces.HomeColorInjective | utils/faces.py:7-14 | No two faces share a home colour. |
| Faces.ColorNameInjective | utils/colors.py:6-13 | No two colours share a printed name. |
| Slots.HomeIsGeometric | core/cube.py:23-61 | Each piece's starting coordinate is the one its name's faces select, lies in the grid, and is never the core (1,1,1). The name has one letter per face. |
| Slots.HomeInjective | core/cube.py:23-61 | No two of the 26 pieces start at the same coordinate. |
| Slots.SlotAtHome | core/cube.py:23-61 | The piece found at a piece's starting coordinate is that piece. |
| Slots.AllSlotsShape | core/cube.py:23-61 | The piece table lists 26 distinct pieces: 6 centres, then 12 edges, then 8 corners, with 1, 2 and 3 stickers. |
| Engine.RotateIsQuarterCycle | core/cube.py:288-358 | Each face's table fixes that face and its opposite. It moves the other four faces around one 4-cycle: two steps reach the opposite face, four return. `Unrotate` inverts it. |
| Engine.FetchComponents | core/cube.py:248-259 | Succeeds exactly when every key is present, returning the positions, maps and names in key order. Otherwise it reports the first missing key. |
| Engine.RotateComponents | core/cube.py:272-360 | A token that is not a face letter is rejected. Otherwise names and positions move one place cyclically, every map is rewritten through the face's table, and lengths are kept. |
| Engine.Assign | core/cube.py:261-270 | Writing the values back touches only the listed keys; on distinct keys each key gets its own value. |
| Engine.RotatePiecesErrors | core/cube.py:362-371 | `_rotate_pieces` fails before any change. A missing key reports the first one; a bad face token is reported only when all keys are present. It succeeds exactly on present keys, a face letter and a non-empty list. |
| Engine.RotatePiecesShifts | core/cube.py:240-271 | On distinct present keys, each key keeps its own name and position, and receives the previous key's map rewritten through the table. Every other key is untouched, whatever the registry held. |
| Engine.RearrangeAfterApply | core/cube.py:240-246 | Restoring names and positions after the write-back leaves each key with its own name and position and the shifted map. |
| CoreCube.OnLayerIsGeometric | core/cube.py:414-448 | The keys a face turn lists are exactly the edges and corners whose names contain that face. |
| CoreCube.SourceDest | core/cube.py:414-448 | The slot permutation of a turn is a bijection on the layer. Four steps are the identity, and three steps are its inverse. |
| CoreCube.TurnFaceIsSpin | core/cube.py:414-448 | On a cube holding every key, the turn as written (edges, then corners) raises nothing and equals the slot-level spin. |
| CoreCube.NewCube | core/cube.py:9-70 | A new cube holds all 26 pieces, each with its home stickers, and an empty move history. |
| CoreCube.NewCubeShape | core/cube.py:23-66 | The new cube has 26 entries at distinct in-grid positions, none at the core. Each has as many stickers as its name has letters, on faces its name names. |
| CoreCube.Reset | core/cube.py:546-547 | `reset` gives the solved piece set and an empty history, whatever came before. |
| CoreCube.Quarter | core/cube.py:414-448 | `U`…`L` apply one spin and append the plain letter to the history. |
| CoreCube.Half | core/cube.py:450-490 | `U2`…`L2` apply two spins and append one `X2` entry, not two. |
| CoreCube.Prime | core/cube.py:492-545 | `U_prime`…`L_prime` apply three spins and append one `X'` entry. |
| CoreCube.PerformAll | core/cube.py:414-545 | A sequence of moves composes the turns and appends one history token per move, in order. |
| CoreCube.SpinFour | core/cube.py:414-448 | Four quarter-turns of the same face restore every registry. |
| CoreCube.InverseRestores | core/cube.py:492-545 | A move followed by its inverse (X with X', X2 with itself), in either order, restores the registry. |
| CoreCube.UndoAll | core/cube.py:414-545 | Any move sequence followed by its reversed inverse restores the registry. |
| Invariants.SpinKeepsValid | core/cube.py:272-371 | A face turn keeps the invariant. The cube stays complete, stickers sit on faces their slot names, pieces stay distinct, centres stay fixed, and every colour set is still carried. |
| Invariants.SpinKeepsColours | core/cube.py:288-358 | A turn moves each map unchanged in colour: same length, same colours, in the same order, taken from the source slot. |
| Invariants.RewriteFits | core/cube.py:288-358 | A map whose faces fit the source slot fits the destination slot once rewritten through the table. |
| Invariants.NewCubeValid | core/cube.py:23-66 | The new cube satisfies the invariant. |
| Invariants.ReachableValid | core/cube.py:414-545 | Every cube reached from a new one by any moves satisfies the invariant. |
| Projection.MatrixAtComplete | core/cube.py:234-238 | On a complete cube, the rebuilt grid holds at each piece's coordinate that piece, and nothing at the core. |
| Projection.GetColor | core/cube.py:225-232 | The result is "BLACK" exactly when there is no piece or no sticker on the face. Otherwise it is the name of the first colour on that face. |
| Projection.GetFace | core/cube.py:113-163 | A non-face argument raises `KeyError`. A face gives a 3×3 grid whose cells are the colours shown at that face's coordinates. |
| Projection.ShownOnValid | core/cube.py:113-163 | On a valid cube, every cell of every face shows a real colour, never "BLACK". |
| Projection.CenterCellOnValid | core/cube.py:113-163 | On a valid cube, the middle cell of each face shows that face's home colour. |
| Projection.GetFaceForKociemba | core/cube.py:165-222 | A non-face argument raises `KeyError`. A face gives 9 characters: the initials of the cells, row by row. |
| Projection.ShownNonEmpty | core/cube.py:165-222 | Every cell shows a non-empty name ("BLACK" or a colour name), so taking its first character never fails. |
| Projection.ToStringAt | core/cube.py:399-411 | The string is 54 characters. Character 9k+3row+col is the facelet letter of that cell of the k-th face, in the order U R F D L B. |
| Projection.ToStringOnValid | core/cube.py:399-411 | On a valid cube, every character is one of U R F D L B, and each face's centre character is that face's letter. |
| Projection.NewCubeString | core/cube.py:399-411 | A new cube prints as nine U, nine R, nine F, nine D, nine L, nine B. |
| Projection.IsSolved | core/cube.py:375-384 | `is_solved` holds exactly when every face shows one colour in all nine cells. |
| Projection.FaceUniformOnValid | core/cube.py:375-384 | On a valid cube, a face counts as uniform exactly when all its cells show its home colour. |
| Projection.NewCubeSolved | core/cube.py:375-384 | A new cube is solved. |
| Projection.QuarterTurnUnsolves | core/cube.py:375-384 | A single quarter-turn of a new cube leaves it unsolved. |
| Projection.UndoSolves | core/cube.py:375-384 | Any moves followed by their inverse leave a new cube solved. |
| Projection.GetPieceAtPosition | core/cube.py:386-389 | It raises `IndexError` exactly when some index lies outside -3..2. |
| Projection.GetPieceAtIndex | core/cube.py:386-389 | On a complete cube, every in-range index triple, mixed signs included, returns the piece whose home is the cell it names after Python's negative indexing, and nothing at the core. |
| Projection.GetPieceAtHome | core/cube.py:386-389 | On a complete cube, a piece's coordinate (or that coordinate minus 3) finds the piece, and (1,1,1) finds nothing. |
| Projection.FindPieceByColors | core/cube.py:391-397 | Returns nothing exactly when no piece's colours include all the given colours. Otherwise it returns the first such piece in registry order. |
| Projection.FindsPieceByItsColors | core/cube.py:391-397 | On a valid cube, a piece's home colours always find a piece. Although the test is only inclusion, the piece found carries exactly that colour set, not a larger one. |
| SolverPieces.NewPiece | solver/pieces.py:4-7 | A piece stores the map and the position it was given; `get_faces` returns the map. |
| SolverPieces.SetPosition | solver/pieces.py:12-14 | `set_position` replaces the position and keeps the map. |
| SolverPieces.SetPositionRoundTrip | solver/pieces.py:12-14 | Moving a piece and moving it back gives the same piece, and the last position set wins. |
| SolverPieces.NewCenter | solver/pieces.py:22-24 | A centre holds a one-entry map from its face to its colour. |
| SolverPieces.NewEdge | solver/pieces.py:28-32 | An edge is built exactly from a two-entry map. Any other size raises the edge `ValueError`. |
| SolverPieces.NewCorner | solver/pieces.py:36-40 | A corner is built exactly from a three-entry map. Any other size raises the corner `ValueError`. |
| SolverPieces.ArityChecksExclusive | solver/pieces.py:28-40 | No map passes both checks, and a one-entry map passes neither. |
| SolverPieces.HomeMapsPassArity | solver/pieces.py:28-40 | A cube slot's home sticker map builds an `Edge` exactly when the slot is an edge, and a `Corner` exactly when it is a corner. |
| Solver.RotateLayer | solver/cube.py:302-323 | On pieces with the core's accessors, `_rotate_edges`/`_rotate_corners` raise before any change: on the first missing key, else on a bad face token. On distinct present keys and a face letter they shift the maps along the keys. |
| Solver.QuarterErrors | solver/cube.py:327-355 | A missing edge key raises and leaves the cube untouched. A missing corner key raises after the edges have turned, leaving that half-turned state. |
| Solver.Prime | solver/cube.py:357-391 | If the first quarter-turn raises, the prime move ends there with that outcome. |
| Solver.QuarterIsCoreSpin | solver/cube.py:327-355 | On a registry holding every key, the solver's quarter-turn raises nothing and makes the same change as the core's turn. |
| Solver.PrimeIsCorePrime | solver/cube.py:357-391 | On a full registry, a prime move raises nothing and is three core quarter-turns, as the core's `X'` is. |
| Solver.PrimeUndoesQuarter | solver/cube.py:357-391 | `X` then `X_prime`, or the reverse, restores a full registry without raising. |
| Solver.QuarterKeepsValid | solver/cube.py:212-300 | A solver move on a valid cube raises nothing and keeps the invariant. |
| Solver.GetFace | solver/cube.py:110-160 | A non-face argument raises `KeyError`; otherwise the same 3×3 grid as the core cube shows. |
| Scramble.MovesAreTokens | core/scramble.py:6-13 | `MOVES` holds 18 distinct tokens: each of the 18 moves' token once, and nothing else. |
| Scramble.NewScrambler | core/scramble.py:16-17 | A new scrambler has an empty history. |
| Scramble.GenerateScramble | core/scramble.py:19-35 | The scramble has the requested length (none for a negative length), takes every token from `MOVES`, and never turns the same face twice in a row. It is appended to the history. |
| Scramble.ParseToken | core/scramble.py:37-49 | Every move's token dispatches back to that move. |
| Scramble.ParseMoveAccepts | core/scramble.py:37-49 | A single token dispatches to a move exactly when it is in `MOVES`. |
| Scramble.Dispatch | core/scramble.py:37-49 | The tokens are performed in order up to the first bad one, and that token's error is the one raised. With no error, every token was performed. |
| Scramble.DispatchTokens | core/scramble.py:37-49 | The performed moves print back as the consumed prefix, and nothing is raised exactly when every token is in `MOVES`. |
| Scramble.DispatchRoundTrip | core/scramble.py:37-49 | Dispatching the tokens of any move list performs that list and raises nothing. |
| Scramble.ApplyScramble | core/scramble.py:37-49 | The cube receives exactly the dispatched moves, and the history grows by the tokens consumed. When every token is valid, nothing is raised and the whole scramble is appended. |
| Scramble.DispatchAsWritten | core/scramble.py:37-49 | The loop as written never performs more moves than there are tokens. |
| Scramble.AsWrittenAgreesOnMoves | core/scramble.py:37-49 | On tokens drawn from `MOVES`, the loop as written and the corrected dispatch agree. |
| Scramble.BadModifierReusesPreviousMove | core/scramble.py:42-49 | As written, ["U", "U3"] performs U twice and raises nothing, and ["U3"] raises `UnboundLocalError`. The corrected dispatch performs U once and rejects "U3". |

## Left out

- Display and printing (`display`, `print_matrix`, `__repr__`, `__str__`) are not modelled: they only write to the terminal.
- The enums' hex colour values are not modelled; only the names, the face-to-colour pairing and the declaration order are.
- core/pieces.py is not part of this model. Core pieces are modelled by their name, position and colour map, the attributes core/cube.py reads.
- The solver cube's constructor (solver/cube.py:9-67) is not modelled. It calls `Edge(colors, name, position)`, which does not match the two-argument classes of solver/pieces.py. The solver operations therefore take any registry, with the complete and valid cases proved separately.
- tests/test_pieces.py builds pieces with three arguments and calls `get_position`. Neither fits solver/pieces.py, so those tests are not reflected.
- The grid cache `self.matrix` is never stored. It is recomputed as the last piece, in insertion order, at each coordinate. Python never clears stale cells, and on a complete cube, the only case a move can reach, the two readings agree.
- Python object aliasing is not modelled: a piece is a value, and `_apply_components` writes fresh copies.
- CoreCube.Quarter: requires a complete registry rather than modelling the partial state an exception would leave. A new cube is complete and every move keeps it so. The exception paths of the shared helpers are modelled in `Engine` and `Solver`.
- CoreCube.Half: requires a complete registry, for the same reason as `CoreCube.Quarter`.
- CoreCube.Prime: requires a complete registry, for the same reason as `CoreCube.Quarter`.
- Scramble.ApplyScramble: runs on the core cube only, and an error stops it after the moves already performed. The solver cube has no `X2` methods, so applying a scramble to it is not modelled.
- Scramble.ApplyScramble: uses the corrected dispatch (see Findings). The loop as written is `Scramble.DispatchAsWritten`.
- Scramble.GenerateScramble: random choice is a nondeterministic choice of any allowed token, so the contract states what every draw satisfies, not a distribution. The default length of 20 is left to the caller.
- Solver.RotateLayer: assumes pieces with the core pieces' accessors (`get_position`, `get_name`, `set_faces`, `set_name`, called at solver/cube.py:177, 196-198, 208-210). solver/pieces.py defines only `set_position` and `get_faces`, so with its classes the first present key would raise `AttributeError`, and the model does not promise that outcome.
- Solver.QuarterErrors: assumes the core pieces' accessors, as `Solver.RotateLayer` does.
- Solver.Prime: assumes the core pieces' accessors, as `Solver.RotateLayer` does.
- Solver.QuarterIsCoreSpin: assumes the core pieces' accessors, as `Solver.RotateLayer` does.
- Solver.PrimeIsCorePrime: assumes the core pieces' accessors, as `Solver.RotateLayer` does.
- Solver.PrimeUndoesQuarter: assumes the core pieces' accessors, as `Solver.RotateLayer` does.
- Solver.QuarterKeepsValid: assumes the core pieces' accessors, as `Solver.RotateLayer` does.
- Solver.GetFace: assumes the core pieces' accessors. The grid rebuild calls `get_position` (solver/cube.py:177), which the solver's piece classes lack.
- `_rotate_edges` and `_rotate_corners` of solver/cube.py are the same procedure and are modelled once, as `Solver.RotateLayer`.
- The solver's `_get_color`, `_rebuild_matrix`, `_rearrange_pieces`, `_fetch_components`, `_apply_components` and `_rotate_components` are the core's helpers unchanged and are modelled once, in `Engine` and `Projection`.
- The Kociemba solver wrapper, the layer-by-layer solver and the user interface are not part of this model.

## Findings

| source | as written | input that shows it | evidently intended | confidence | as-written member | corrected member |
|---|---|---|---|---|---|---|
| core/scramble.py:42-49 | A token whose modifier is not "", "'" or "2" falls through the `if`/`elif` chain, and the previous token's `method` is called again. On the first token it raises `UnboundLocalError`. | ["U", "U3"] turns U twice with no error; ["U3"] raises `UnboundLocalError` | An unknown modifier is rejected as an invalid move, and nothing is applied for it | not executed | Scramble.DispatchAsWritten (exhibited by Scramble.BadModifierReusesPreviousMove) | Scramble.Dispatch (with Scramble.DispatchRoundTrip, Scramble.ParseMoveAccepts, Scramble.ApplyScramble) |
