/**
  The whiteboard client's state machine: the list of lines on the board,
  whether a stroke is in progress, and the current drawing settings, with
  one method per event that changes them (pointer down, move and up, the
  room's `draw` and `load_lines` messages, and the Clear button).
*/
module Whiteboard {
  import opened Wrappers
  import opened Lines
  import JsonPoints

  /** The board's id; the room it joins and publishes to is its decimal text. */
  const BoardId: int := 1
  const RoomId: string := "1"

  /** The room id is the board id written in decimal, as `toString` writes it. */
  lemma RoomIdIsBoardIdText()
    ensures RoomId == JsonPoints.IntToText(BoardId)
  {
  }

  /** Settings a fresh board starts with. */
  const DefaultColor: string := "#ff0000ff"
  const DefaultStrokeWidth: int := 2
  const DefaultTool: Tool := Pen

  /** The message published to the room when a stroke ends. */
  datatype DrawMessage = DrawMessage(roomId: string, line: Line)

  /** Where a line on the board came from (bookkeeping for the invariant only). */
  datatype Origin = Local | Remote

  class Board {
    var lines: seq<Line>
    var isDrawing: bool
    var color: string
    var strokeWidth: int
    var tool: Tool

    /** One entry per line: whether this client drew it or received it. */
    ghost var origins: seq<Origin>

    /** Every line drawn on this client holds whole coordinate pairs, at least one. */
    ghost predicate Valid()
      reads this
    {
      && |origins| == |lines|
      && forall i :: 0 <= i < |lines| && origins[i] == Local ==> EvenPoints(lines[i].points)
    }

    /** The last line on the board, the one a pointer move extends and pointer up publishes. */
    function LastLine(): (l: Line)
      reads this
      requires lines != []
      ensures l in lines
    {
      lines[|lines| - 1]
    }

    /** The list is everything before its last line followed by that line. */
    lemma LastLineSplitsList()
      requires lines != []
      ensures lines == lines[..|lines| - 1] + [LastLine()]
    {
    }

    constructor ()
      ensures Valid()
      ensures lines == [] && !isDrawing
      ensures color == DefaultColor && strokeWidth == DefaultStrokeWidth && tool == DefaultTool
    {
      lines := [];
      isDrawing := false;
      color := DefaultColor;
      strokeWidth := DefaultStrokeWidth;
      tool := DefaultTool;
      origins := [];
    }

    /** The Pen and Eraser buttons. */
    method SetTool(t: Tool)
      modifies this
      ensures tool == t
      ensures lines == old(lines) && isDrawing == old(isDrawing) && origins == old(origins)
      ensures color == old(color) && strokeWidth == old(strokeWidth)
    {
      tool := t;
    }

    /** The color picker, which is shown only while the pen is selected. */
    method SetColor(c: string)
      requires tool == Pen
      modifies this
      ensures color == c
      ensures lines == old(lines) && isDrawing == old(isDrawing) && origins == old(origins)
      ensures tool == old(tool) && strokeWidth == old(strokeWidth)
    {
      color := c;
    }

    /** The width slider, whose range is 1 to 20. */
    method SetStrokeWidth(w: int)
      requires 1 <= w <= 20
      modifies this
      ensures strokeWidth == w
      ensures lines == old(lines) && isDrawing == old(isDrawing) && origins == old(origins)
      ensures tool == old(tool) && color == old(color)
    {
      strokeWidth := w;
    }

    /**
      Pointer down: start drawing and append a new line seeded with the
      pointer position and the current settings. No check that a stroke
      is already in progress: a second down simply starts another line.
    */
    method PointerDown(x: int, y: int)
      requires Valid()
      modifies this
      ensures Valid()
      ensures isDrawing
      ensures |lines| == |old(lines)| + 1
      ensures lines[..|old(lines)|] == old(lines)
      ensures LastLine() == Line(None, [x, y], color, strokeWidth, tool)
      ensures origins == old(origins) + [Local]
      ensures color == old(color) && strokeWidth == old(strokeWidth) && tool == old(tool)
    {
      isDrawing := true;
      lines := lines + [Line(None, [x, y], color, strokeWidth, tool)];
      origins := origins + [Local];
    }

    /**
      Pointer move: ignored unless drawing; otherwise the pointer position
      is appended to the points of whatever line is last, local or remote.
      With no line at all the source dereferences a missing last line and
      throws: `ok` is false and nothing changes.
    */
    method PointerMove(x: int, y: int) returns (ok: bool)
      requires Valid()
      modifies this
      ensures Valid()
      ensures ok <==> !(old(isDrawing) && old(lines) == [])
      ensures !old(isDrawing) || !ok ==> lines == old(lines)
      ensures old(isDrawing) && ok ==>
                && |lines| == |old(lines)|
                && lines[..|lines| - 1] == old(lines)[..|lines| - 1]
                && LastLine() == old(LastLine()).(points := old(LastLine()).points + [x, y])
      ensures isDrawing == old(isDrawing) && origins == old(origins)
      ensures color == old(color) && strokeWidth == old(strokeWidth) && tool == old(tool)
    {
      if !isDrawing {
        return true;
      }
      if lines == [] {
        return false;
      }
      var last := lines[|lines| - 1];
      last := last.(points := last.points + [x, y]);
      lines := lines[..|lines| - 1] + [last];
      ok := true;
    }

    /**
      Pointer up: stop drawing, whatever the previous state, and publish the
      last line to the room if there is one. The list itself is not changed.
    */
    method PointerUp() returns (sent: Option<DrawMessage>)
      requires Valid()
      modifies this
      ensures Valid()
      ensures !isDrawing
      ensures lines == old(lines)
      ensures sent.Some? <==> lines != []
      ensures sent.Some? ==> sent.value == DrawMessage(RoomId, LastLine())
      ensures sent.Some? && origins[|origins| - 1] == Local ==> EvenPoints(sent.value.line.points)
      ensures origins == old(origins)
      ensures color == old(color) && strokeWidth == old(strokeWidth) && tool == old(tool)
    {
      isDrawing := false;
      if lines != [] {
        sent := Some(DrawMessage(RoomId, lines[|lines| - 1]));
      } else {
        sent := None;
      }
    }

    /**
      Inbound `draw`: append the received line, points normalised, after
      every line already present. A payload whose points text does not
      parse makes the source throw: `ok` is false and nothing changes.
    */
    method ReceiveDraw(r: RemoteLine) returns (ok: bool)
      requires Valid()
      modifies this
      ensures Valid()
      ensures ok <==> NormalizeLine(r).Some?
      ensures ok ==> lines == old(lines) + [NormalizeLine(r).value]
      ensures !ok ==> lines == old(lines)
      ensures ok ==> origins == old(origins) + [Remote]
      ensures !ok ==> origins == old(origins)
      ensures isDrawing == old(isDrawing)
      ensures color == old(color) && strokeWidth == old(strokeWidth) && tool == old(tool)
    {
      var l := NormalizeLine(r);
      if l.None? {
        return false;
      }
      lines := lines + [l.value];
      origins := origins + [Remote];
      ok := true;
    }

    /**
      Inbound `load_lines`: replace the whole list with the snapshot, each
      line's points normalised, same length and order. If any line's points
      text does not parse the source throws before replacing anything:
      `ok` is false and nothing changes.
    */
    method ReceiveLoadLines(rs: seq<RemoteLine>) returns (ok: bool)
      requires Valid()
      modifies this
      ensures Valid()
      ensures ok <==> forall i :: 0 <= i < |rs| ==> NormalizeLine(rs[i]).Some?
      ensures ok ==> |lines| == |rs| && forall i :: 0 <= i < |rs| ==> Some(lines[i]) == NormalizeLine(rs[i])
      ensures !ok ==> lines == old(lines)
      ensures ok ==> forall i :: 0 <= i < |origins| ==> origins[i] == Remote
      ensures !ok ==> origins == old(origins)
      ensures isDrawing == old(isDrawing)
      ensures color == old(color) && strokeWidth == old(strokeWidth) && tool == old(tool)
    {
      var ls := NormalizeAll(rs);
      if ls.None? {
        return false;
      }
      lines := ls.value;
      origins := seq(|ls.value|, _ => Remote);
      ok := true;
    }

    /** The Clear button: empty the board locally; nothing is sent to the room. */
    method ClearBoard()
      requires Valid()
      modifies this
      ensures Valid()
      ensures lines == [] && origins == []
      ensures isDrawing == old(isDrawing)
      ensures color == old(color) && strokeWidth == old(strokeWidth) && tool == old(tool)
    {
      lines := [];
      origins := [];
    }
  }

  /**
    A whole stroke on a fresh board: pointer down at `start`, a move to each
    of `moves`, pointer up. The published line holds every position in
    drawing order, an even number of coordinates, with the default settings.
  */
  method DrawStroke(start: Point, moves: seq<Point>) returns (sent: Option<DrawMessage>)
    ensures sent == Some(DrawMessage(RoomId, Line(None, Flatten([start] + moves), DefaultColor, DefaultStrokeWidth, DefaultTool)))
    ensures EvenPoints(sent.value.line.points)
  {
    var b := new Board();
    b.PointerDown(start.x, start.y);
    assert Flatten([start]) == [start.x, start.y];
    var i := 0;
    while i < |moves|
      invariant 0 <= i <= |moves|
      invariant b.Valid() && b.isDrawing
      invariant b.lines == [Line(None, Flatten([start] + moves[..i]), DefaultColor, DefaultStrokeWidth, DefaultTool)]
    {
      var ok := b.PointerMove(moves[i].x, moves[i].y);
      assert ([start] + moves[..i + 1])[..i + 1] == [start] + moves[..i];
      i := i + 1;
    }
    assert moves[..i] == moves;
    sent := b.PointerUp();
  }

  /**
    A remote line arriving in the middle of a local stroke: the next move
    extends the remote line, which is now last, and leaves the local line
    as it was.
  */
  method RemoteLineMidStroke(start: Point, r: RemoteLine, next: Point) returns (result: seq<Line>)
    requires NormalizeLine(r).Some?
    ensures |result| == 2
    ensures result[0] == Line(None, [start.x, start.y], DefaultColor, DefaultStrokeWidth, DefaultTool)
    ensures result[1] == NormalizeLine(r).value.(points := NormalizeLine(r).value.points + [next.x, next.y])
  {
    var b := new Board();
    b.PointerDown(start.x, start.y);
    var received := b.ReceiveDraw(r);
    var moved := b.PointerMove(next.x, next.y);
    result := b.lines;
  }

  /**
    Clearing the board in the middle of a stroke leaves the stroke flag set,
    so the next move finds no line to extend and fails, and the next pointer
    up publishes nothing.
  */
  method ClearMidStroke(start: Point, next: Point) returns (moved: bool, sent: Option<DrawMessage>)
    ensures !moved
    ensures sent == None
  {
    var b := new Board();
    b.PointerDown(start.x, start.y);
    b.ClearBoard();
    moved := b.PointerMove(next.x, next.y);
    sent := b.PointerUp();
  }
}
