# Collaborative whiteboard client: board state model

This project models the drawing client of a shared whiteboard (`src/App.tsx`). The
client keeps a list of lines and a flag that says whether a stroke is in
progress. Pointer events, the Clear button and two messages from the room
change that state:

- pointer down starts a line;
- pointer move extends the last line while drawing;
- pointer up ends the stroke and publishes the last line to room `"1"`;
- `draw` appends a line received from the room;
- `load_lines` replaces the list with the room's snapshot;
- Clear empties the board locally.

An inbound line's `points` may be an array or the JSON text of one. Both
forms are normalised to an array.

Files:

- `wrappers.dfy`: the `Option` type.
- `json_points.dfy` (module `JsonPoints`): the JSON text of an integer array. It has a
  serialiser (`Stringify`) and a parser (`ParsePoints`) that stands in for `JSON.parse`
  on the points text. The round trip is proved: parsing a stringified array gives the same array back.
- `lines.dfy` (module `Lines`): the line record, the payload shape of inbound lines,
  points normalisation for one line (`draw`) and for a snapshot (`load_lines`), and
  the tool → compositing-mode mapping used when rendering.
- `board.dfy` (module `Whiteboard`): class `Board` with fields `lines`, `isDrawing`
  and the current `color`, `strokeWidth` and `tool`, and one method per event. A ghost
  field records whether each line was drawn here or received. `Valid()` states that every
  line drawn here has an even number of coordinates, at least two, and every method keeps
  `Valid()`. Three client methods run event sequences on a fresh board: a whole stroke,
  a remote line arriving mid-stroke, and Clear pressed mid-stroke.

Where the design description of the protocol and the code differ, the model follows the code:

- A second pointer down while drawing starts another line; it raises no error.
- Pointer up publishes the last line whenever the list is non-empty, even if no
  stroke was in progress.
- No ids are assigned, and received lines are not deduplicated by id.
  An echo of one's own line is appended again.
- Pointer move extends whatever line is last, including a line received mid-stroke.
- Clear is local only and is not broadcast.

## Model

| member | source | states |
|---|---|---|
| `Whiteboard.Board.constructor` | src/App.tsx:16-20 | empty board, not drawing, color `#ff0000ff`, width 2, tool pen |
| `Whiteboard.Board.SetTool` | src/App.tsx:80-81 | only the tool changes; lines and flag untouched |
| `Whiteboard.Board.SetColor` | src/App.tsx:82-85 | only the color changes; the picker exists only while the pen is selected |
| `Whiteboard.Board.SetStrokeWidth` | src/App.tsx:87 | only the width changes, within the slider's range 1..20 |
| `Whiteboard.Board.PointerDown` | src/App.tsx:49-53 | sets drawing; appends exactly one line `[x, y]` with the current color/width/tool; every earlier line unchanged; keeps the even-points invariant |
| `Whiteboard.Board.PointerMove` | src/App.tsx:55-62 | not drawing: nothing changes; drawing: the last line gains exactly `[x, y]`, keeping its color/width/tool; count and all other lines unchanged; drawing over an empty list fails and changes nothing |
| `Whiteboard.Board.LastLine` | src/App.tsx:59 | the line a move extends and pointer up publishes is one of the board's lines |
| `Whiteboard.Board.LastLineSplitsList` | src/App.tsx:59 | that line is the end of the list: the list is everything before it followed by it |
| `Whiteboard.Board.PointerUp` | src/App.tsx:64-71 | always clears the flag; list unchanged; publishes `{roomId: "1", line: last}` exactly when the list is non-empty; a published line drawn here has an even number of coordinates, at least two |
| `Whiteboard.RoomIdIsBoardIdText` | src/App.tsx:22 | the room id published with every line is the board id written in decimal |
| `Whiteboard.Board.ReceiveDraw` | src/App.tsx:36-41 | appends exactly one line, the payload with normalised points, after the untouched earlier lines; unparseable text changes nothing |
| `Whiteboard.Board.ReceiveLoadLines` | src/App.tsx:29-34 | replaces the list with one of the snapshot's length and order, line i the normalised payload i; any unparseable line leaves the old list |
| `Whiteboard.Board.ClearBoard` | src/App.tsx:73 | the list becomes empty; flag and settings unchanged; nothing published |
| `Whiteboard.DrawStroke` | src/App.tsx:49-71 | down then moves then up on a fresh board publishes one line holding every position in order, with an even number of coordinates, at least two |
| `Whiteboard.RemoteLineMidStroke` | src/App.tsx:59-61 | a line received mid-stroke is the one the next move extends; the local line stays `[x, y]` |
| `Whiteboard.ClearMidStroke` | src/App.tsx:59-60 | after Clear mid-stroke the next move finds no last line and fails, and pointer up publishes nothing |
| `Lines.NormalizePoints` | src/App.tsx:32 | an array is kept exactly; text yields an array only when it is bracketed JSON array text |
| `Lines.NormalizeLine` | src/App.tsx:38-39 | succeeds exactly when the points normalise; id, color, width and tool are carried over, points are replaced by their normalised form |
| `Lines.NormalizeAll` | src/App.tsx:30-33 | succeeds exactly when every line normalises; same length and order, line i is the normalised payload i |
| `Lines.NormalizeIdempotent` | src/App.tsx:32 | normalising already-normalised points gives them back unchanged |
| `Lines.NormalizeWireForms` | src/App.tsx:32 | an array and its JSON text normalise to the same array |
| `Lines.LineRoundTrip` | src/App.tsx:38-39 | a line sent with its points as an array or as JSON text comes back identical |
| `Lines.SnapshotOfArraysKept` | src/App.tsx:29-33 | a snapshot whose points are arrays is installed unchanged |
| `Lines.SnapshotOfTextKept` | src/App.tsx:29-33 | a snapshot whose points are JSON text is installed with every line recovered |
| `Lines.CompositeOperation` | src/App.tsx:95 | `destination-out` exactly for the eraser, `source-over` exactly otherwise |
| `JsonPoints.ParsePoints` | src/App.tsx:32 | only bracketed text can yield an array |
| `JsonPoints.ParseItems` | src/App.tsx:32 | succeeds exactly when every field is an integer; one value per field, in order |
| `JsonPoints.ParseStringify` | src/App.tsx:39 | parsing a stringified array gives back the same count, values and order |

## Left out

- The socket.io transport is not modelled: the connection at line 13, `join_room`, and subscribing and unsubscribing. A publish is the `DrawMessage` that `PointerUp` returns. Inbound events are method calls.
- JsonPoints.ParsePoints: accepts only `[`, comma-separated integers with an optional minus sign, `]`. It differs from `JSON.parse` in both directions:
  - It rejects some text that `JSON.parse` accepts: whitespace around or inside the brackets (`"[1, 2]"`), fractions, exponents, and JSON values that are not arrays (`"5"`, `"null"`). For these the board reports failure and keeps its list. The source would store the line, with a non-array `points` in the last case.
  - It accepts leading zeros (`"[07]"` gives `[7]`), which `JSON.parse` rejects.
- A raw `points` value that is neither an array nor a string is not modelled. `PointsField` cannot express it. The source hands such a value to `JSON.parse`: `null` or a number is stored as `points`, and an object throws.
- A `JSON.parse` failure or a missing last line throws in the source. That aborts the handler, or the state update for `draw`. The model reports it as `ok == false` with the state unchanged. React's handling of an exception in a state updater is not modelled.
- Pointer coordinates are floating point in the source. The model uses integers; no step depends on their values.
- `PointerMove` replaces the last line with an extended copy. The source mutates the line object in place, and that object is shared with earlier state snapshots. Aliasing between those snapshots is not modelled.
- React scheduling is not modelled. Each handler is one atomic step on the current state. This covers stale-closure reads of `lines` against functional updates, render batching and the effect lifecycle. `setLines(prev => [...prev])` in pointer up is an identity on the list.
- Payload fields other than id, points, color, width and tool are not modelled. The source's object spread would copy them too.
- All rendering and layout are left out, except the tool → compositing-mode choice.
