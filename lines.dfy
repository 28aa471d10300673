/**
  The line record the board holds and renders, the shape in which lines
  arrive from the room, the normalisation of their `points`, and the
  compositing mode a line is drawn with.
*/
module Lines {
  import opened Wrappers
  import JsonPoints

  datatype Tool = Pen | Eraser

  /**
    One drawn line. `points` is flat: x0, y0, x1, y1, ... in drawing order.
    `id` is absent on lines drawn locally; a line received from the room
    keeps whatever id its payload carried.
  */
  datatype Line = Line(id: Option<int>, points: seq<int>, color: string, strokeWidth: int, tool: Tool)

  /** The `points` field of an inbound payload: an array, or the JSON text of one. */
  datatype PointsField = PointArray(coords: seq<int>) | PointText(text: string)

  /** A line as it arrives from the room in a `draw` or `load_lines` event. */
  datatype RemoteLine = RemoteLine(id: Option<int>, points: PointsField, color: string, strokeWidth: int, tool: Tool)

  /** A pointer position in stage coordinates. */
  datatype Point = Point(x: int, y: int)

  /** A point list a local stroke can produce: pairs of coordinates, at least one pair. */
  predicate EvenPoints(points: seq<int>) {
    |points| >= 2 && |points| % 2 == 0
  }

  /** The flat coordinate list of a sequence of pointer positions. */
  function Flatten(ps: seq<Point>): (r: seq<int>)
    ensures |r| == 2 * |ps|
    ensures forall i :: 0 <= i < |ps| ==> r[2 * i] == ps[i].x && r[2 * i + 1] == ps[i].y
  {
    if ps == [] then []
    else Flatten(ps[..|ps| - 1]) + [ps[|ps| - 1].x, ps[|ps| - 1].y]
  }

  /**
    The normalised points of a payload: an array is kept as it is; text is
    handed to the JSON parser, and None stands for the parser's failure.
  */
  function NormalizePoints(p: PointsField): (r: Option<seq<int>>)
    ensures p.PointArray? ==> r == Some(p.coords)
    ensures p.PointText? && r.Some? ==> |p.text| >= 2 && p.text[0] == '[' && p.text[|p.text| - 1] == ']'
  {
    match p
    case PointArray(coords) => Some(coords)
    case PointText(text) => JsonPoints.ParsePoints(text)
  }

  /**
    The board's copy of an inbound line: every field of the payload carried
    over, `points` replaced by its normalised form; None when the points
    do not normalise.
  */
  function NormalizeLine(r: RemoteLine): (l: Option<Line>)
    ensures l.Some? <==> NormalizePoints(r.points).Some?
    ensures l.Some? ==> l.value.points == NormalizePoints(r.points).value
    ensures l.Some? ==> l.value.id == r.id && l.value.color == r.color
                        && l.value.strokeWidth == r.strokeWidth && l.value.tool == r.tool
  {
    match NormalizePoints(r.points)
    case None => None
    case Some(ps) => Some(Line(r.id, ps, r.color, r.strokeWidth, r.tool))
  }

  /**
    The board's copy of a snapshot: each line normalised, same length, same
    order; None when any one line's points fail to normalise (the whole
    snapshot is then lost, as the mapping over it aborts).
  */
  function NormalizeAll(rs: seq<RemoteLine>): (r: Option<seq<Line>>)
    ensures r.Some? <==> forall i :: 0 <= i < |rs| ==> NormalizeLine(rs[i]).Some?
    ensures r.Some? ==> |r.value| == |rs|
    ensures r.Some? ==> forall i :: 0 <= i < |rs| ==> Some(r.value[i]) == NormalizeLine(rs[i])
  {
    if rs == [] then Some([])
    else
      match NormalizeLine(rs[0])
      case None => None
      case Some(l) =>
        match NormalizeAll(rs[1..])
        case None => None
        case Some(ls) => Some([l] + ls)
  }

  /** The payload form of a line held in memory: points as an array. */
  function AsPayload(l: Line): RemoteLine {
    RemoteLine(l.id, PointArray(l.points), l.color, l.strokeWidth, l.tool)
  }

  /** The payload form of a line whose points were serialised to JSON text. */
  function AsTextPayload(l: Line): RemoteLine {
    RemoteLine(l.id, PointText(JsonPoints.Stringify(l.points)), l.color, l.strokeWidth, l.tool)
  }

  /**
    Normalisation is idempotent: once normalised, points given back as an
    array normalise to themselves.
  */
  lemma NormalizeIdempotent(p: PointsField)
    requires NormalizePoints(p).Some?
    ensures NormalizePoints(PointArray(NormalizePoints(p).value)) == NormalizePoints(p)
  {
  }

  /** Both wire forms of the same points normalise to the same array, unchanged. */
  lemma NormalizeWireForms(xs: seq<int>)
    ensures NormalizePoints(PointText(JsonPoints.Stringify(xs))) == Some(xs)
    ensures NormalizePoints(PointArray(xs)) == Some(xs)
  {
    JsonPoints.ParseStringify(xs);
  }

  /** A line survives the trip through either payload form exactly: points, color, width, tool and id. */
  lemma LineRoundTrip(l: Line)
    ensures NormalizeLine(AsPayload(l)) == Some(l)
    ensures NormalizeLine(AsTextPayload(l)) == Some(l)
  {
    NormalizeWireForms(l.points);
  }

  /** A snapshot whose points are all arrays is installed as it is: every line and its points kept unchanged. */
  lemma {:induction false} SnapshotOfArraysKept(rs: seq<RemoteLine>, ls: seq<Line>)
    requires |rs| == |ls|
    requires forall i :: 0 <= i < |rs| ==> rs[i] == AsPayload(ls[i])
    ensures NormalizeAll(rs) == Some(ls)
  {
    if rs != [] {
      LineRoundTrip(ls[0]);
      SnapshotOfArraysKept(rs[1..], ls[1..]);
      assert [ls[0]] + ls[1..] == ls;
    }
  }

  /** A snapshot whose points all came as JSON text is installed with every line recovered. */
  lemma {:induction false} SnapshotOfTextKept(rs: seq<RemoteLine>, ls: seq<Line>)
    requires |rs| == |ls|
    requires forall i :: 0 <= i < |rs| ==> rs[i] == AsTextPayload(ls[i])
    ensures NormalizeAll(rs) == Some(ls)
  {
    if rs != [] {
      LineRoundTrip(ls[0]);
      SnapshotOfTextKept(rs[1..], ls[1..]);
      assert [ls[0]] + ls[1..] == ls;
    }
  }

  /** Rendering mode of a line: eraser lines cut away what lies beneath, all others paint over it. */
  function CompositeOperation(t: Tool): (op: string)
    ensures op == "destination-out" <==> t == Eraser
    ensures op == "source-over" <==> t != Eraser
  {
    if t == Eraser then "destination-out" else "source-over"
  }
}
