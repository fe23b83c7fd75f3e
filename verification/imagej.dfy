/**
  The ImageJ-to-OMERO shape converter: position decoding, metadata stamping,
  the six shape builders, the kind dispatcher, batch flattening and the
  file-suffix routing.
 */
module ImageJ {
  import opened Wrappers
  import opened Text
  import opened Roi
  import opened PointsText

  /** The metadata of a freshly constructed shape: nothing written yet. */
  const NoMeta: Meta := Meta(None, None, None, None)

  function Fresh(g: Geometry): Shape
  {
    Shape(g, NoMeta)
  }

  // ---------------------------------------------------------------------------
  // Position and metadata

  /** The 0-based (z, c, t) of a record; -1 marks z and c as unresolved. */
  function HandlePosition(rec: Record): (zct: (int, int, int))
    ensures rec.position.PosDict? ==> rec.position == PosDict(zct.1 + 1, zct.0 + 1, zct.2 + 1)
    ensures rec.position.NotDict? ==> zct == (-1, -1, 0)
  {
    match rec.position
    case PosDict(channel, slice, frame) => (slice - 1, channel - 1, frame - 1)
    case NotDict => (-1, -1, 0)
  }

  /** Writes theC, theZ and theT onto `m` where they are resolved (>= 0), and textValue always. */
  function Stamp(m: Meta, rec: Record): Meta
  {
    var (z, c, t) := HandlePosition(rec);
    var withC := if c >= 0 then m.(theC := Some(c)) else m;
    var withZ := if z >= 0 then withC.(theZ := Some(z)) else withC;
    var withT := if t >= 0 then withZ.(theT := Some(t)) else withZ;
    withT.(textValue := rec.name)
  }

  /** Stamps a record's position and name onto a shape, leaving its geometry alone. */
  function FormatShape(shape: Shape, rec: Record): (r: Shape)
    ensures r.geom == shape.geom
    ensures r.meta.textValue == rec.name
    ensures var (z, c, t) := HandlePosition(rec);
      && (c >= 0 ==> r.meta.theC == Some(c)) && (c < 0 ==> r.meta.theC == shape.meta.theC)
      && (z >= 0 ==> r.meta.theZ == Some(z)) && (z < 0 ==> r.meta.theZ == shape.meta.theZ)
      && (t >= 0 ==> r.meta.theT == Some(t)) && (t < 0 ==> r.meta.theT == shape.meta.theT)
  {
    shape.(meta := Stamp(shape.meta, rec))
  }

  /** The metadata every shape built from `rec` carries: `rec` stamped onto a fresh shape. */
  function RecordMeta(rec: Record): Meta
  {
    Stamp(NoMeta, rec)
  }

  // ---------------------------------------------------------------------------
  // The six builders

  /** One Point per index of `x`, taking the same index of `y`. */
  function ConvertAsPoint(rec: Record): (points: seq<Shape>)
    requires |rec.x| <= |rec.y|
    ensures |points| == |rec.x|
    ensures forall i :: 0 <= i < |points| ==> points[i].geom == Point(rec.x[i], rec.y[i])
    ensures forall i :: 0 <= i < |points| ==> points[i].meta == RecordMeta(rec)
  {
    seq(|rec.x|, i requires 0 <= i < |rec.x| => FormatShape(Fresh(Point(rec.x[i], rec.y[i])), rec))
  }

  /** A Rectangle with corner (left, top), the width, and the height read under the key "heigh". */
  function ConvertAsRectangle(rec: Record): (r: Shape)
    ensures r.geom == Rectangle(rec.left, rec.top, rec.width, rec.heigh)
    ensures r.meta == RecordMeta(rec)
  {
    FormatShape(Fresh(Rectangle(rec.left, rec.top, rec.width, rec.heigh)), rec)
  }

  /** A Line with both end points copied. */
  function ConvertAsLine(rec: Record): (r: Shape)
    ensures r.geom == Line(rec.x1, rec.y1, rec.x2, rec.y2)
    ensures r.meta == RecordMeta(rec)
  {
    FormatShape(Fresh(Line(rec.x1, rec.y1, rec.x2, rec.y2)), rec)
  }

  /** An Ellipse centred in the bounding box (left, top, width, "heigh"), with half its sides as radii. */
  function ConvertAsEllipse(rec: Record): (r: Shape)
    requires rec.left.Some? && rec.top.Some? && rec.width.Some? && rec.heigh.Some?
    ensures r.geom.Ellipse?
    ensures 2.0 * r.geom.radiusX == rec.width.value && 2.0 * r.geom.radiusY == rec.heigh.value
    ensures r.geom.x - r.geom.radiusX == rec.left.value && r.geom.y - r.geom.radiusY == rec.top.value
    ensures r.meta == RecordMeta(rec)
  {
    var x := rec.left.value;
    var y := rec.top.value;
    var w := rec.width.value / 2.0;
    var h := rec.heigh.value / 2.0;
    FormatShape(Fresh(Ellipse(x + w, y + h, w, h)), rec)
  }

  /** A Polygon whose points text joins the (x, y) pairs. */
  function ConvertAsPolygon(fmt: real -> string, rec: Record): (r: Shape)
    ensures r.geom == Polygon(PointsString(fmt, rec.x, rec.y))
    ensures r.meta == RecordMeta(rec)
  {
    FormatShape(Fresh(Polygon(PointsString(fmt, rec.x, rec.y))), rec)
  }

  /** A Polyline whose points text joins the (x, y) pairs. */
  function ConvertAsPolyline(fmt: real -> string, rec: Record): (r: Shape)
    ensures r.geom == Polyline(PointsString(fmt, rec.x, rec.y))
    ensures r.meta == RecordMeta(rec)
  {
    FormatShape(Fresh(Polyline(PointsString(fmt, rec.x, rec.y))), rec)
  }

  // ---------------------------------------------------------------------------
  // Dispatch

  /** The ten lower-case kind tags and the builder each selects. */
  const DispatchTable: map<string, Builder> := map[
    "point" := PointBuilder,
    "rectangle" := RectangleBuilder,
    "line" := LineBuilder,
    "oval" := EllipseBuilder,
    "polygon" := PolygonBuilder,
    "freehand" := PolygonBuilder,
    "traced" := PolygonBuilder,
    "polyline" := PolylineBuilder,
    "angle" := PolylineBuilder,
    "freeline" := PolylineBuilder
  ]

  /** What a record needs so that `convert` does not raise. */
  predicate Convertible(rec: Record)
  {
    && rec.kind.Some?
    && (Lower(rec.kind.value) == "point" ==> |rec.x| <= |rec.y|)
    && (Lower(rec.kind.value) == "oval" ==>
          rec.left.Some? && rec.top.Some? && rec.width.Some? && rec.heigh.Some?)
  }

  /** Runs the builder `b` on `rec`. */
  function Build(fmt: real -> string, b: Builder, rec: Record): Converted
    requires b == PointBuilder ==> |rec.x| <= |rec.y|
    requires b == EllipseBuilder ==> rec.left.Some? && rec.top.Some? && rec.width.Some? && rec.heigh.Some?
  {
    match b
    case PointBuilder => Many(ConvertAsPoint(rec))
    case RectangleBuilder => One(ConvertAsRectangle(rec))
    case LineBuilder => One(ConvertAsLine(rec))
    case EllipseBuilder => One(ConvertAsEllipse(rec))
    case PolygonBuilder => One(ConvertAsPolygon(fmt, rec))
    case PolylineBuilder => One(ConvertAsPolyline(fmt, rec))
  }

  /** The shapes a converted record contributes to a batch (a single shape counted as one). */
  function Emitted(c: Converted): seq<Shape>
  {
    match c
    case Unsupported => []
    case Many(shapes) => shapes
    case One(shape) => [shape]
  }

  /** How many shapes a record stands for: one per x coordinate for points, one for other known kinds, none otherwise. */
  function ExpectedCount(rec: Record): nat
    requires rec.kind.Some?
  {
    var tag := Lower(rec.kind.value);
    if tag == "point" then |rec.x| else if tag in DispatchTable then 1 else 0
  }

  /** Lower-cases the "type" tag and hands the record to the matching builder; unknown tags give `Unsupported`. */
  function Convert(fmt: real -> string, rec: Record): (c: Converted)
    requires Convertible(rec)
    ensures c == Unsupported <==> Lower(rec.kind.value) !in DispatchTable
    ensures |Emitted(c)| == ExpectedCount(rec)
    ensures forall s :: s in Emitted(c) ==> s.meta == RecordMeta(rec)
  {
    var roiType := Lower(rec.kind.value);
    if roiType == "point" then Many(ConvertAsPoint(rec))
    else if roiType == "rectangle" then One(ConvertAsRectangle(rec))
    else if roiType == "line" then One(ConvertAsLine(rec))
    else if roiType == "oval" then One(ConvertAsEllipse(rec))
    else if roiType == "polygon" || roiType == "freehand" || roiType == "traced" then
      One(ConvertAsPolygon(fmt, rec))
    else if roiType == "polyline" || roiType == "angle" || roiType == "freeline" then
      One(ConvertAsPolyline(fmt, rec))
    else Unsupported
  }

  // ---------------------------------------------------------------------------
  // Batch

  /** A batch of (name, record) pairs in the mapping's iteration order, all convertible. */
  predicate AllConvertible(recs: seq<(string, Record)>)
  {
    forall i :: 0 <= i < |recs| ==> Convertible(recs[i].1)
  }

  /** The number of shapes a batch stands for: the sum of the per-record counts. */
  function ShapeTotal(recs: seq<(string, Record)>): nat
    requires AllConvertible(recs)
    decreases |recs|
  {
    if |recs| == 0 then 0 else ExpectedCount(recs[0].1) + ShapeTotal(recs[1..])
  }

  /** `convert` applied to every record of a batch, in batch order. */
  function Conversions(fmt: real -> string, recs: seq<(string, Record)>): (cs: seq<Converted>)
    requires AllConvertible(recs)
    ensures |cs| == |recs|
    ensures forall i :: 0 <= i < |recs| ==> cs[i] == Convert(fmt, recs[i].1)
  {
    seq(|recs|, i requires 0 <= i < |recs| => Convert(fmt, recs[i].1))
  }

  /** The shapes of a sequence of conversions, concatenated in order. */
  function Flatten(cs: seq<Converted>): seq<Shape>
    decreases |cs|
  {
    if |cs| == 0 then [] else Emitted(cs[0]) + Flatten(cs[1..])
  }

  /**
    `shapes.extend(roi)` for each conversion that is not `None`: a list is
    appended element by element, and a single shape raises a TypeError.
   */
  function ExtendAll(cs: seq<Converted>): (r: Result<seq<Shape>, Error>)
    ensures r.Failure? <==> exists i :: 0 <= i < |cs| && cs[i].One?
    ensures r.Failure? ==> r.error == NotIterable
    ensures r.Success? ==> r.value == Flatten(cs)
    decreases |cs|
  {
    if |cs| == 0 then Success([])
    else
      match cs[0]
      case Unsupported => ExtendAll(cs[1..])
      case Many(points) =>
        (match ExtendAll(cs[1..])
         case Success(rest) => Success(points + rest)
         case Failure(e) => Failure(e))
      case One(_) => Failure(NotIterable)
  }

  /** The flattened conversions of a batch have as many shapes as the per-record counts add up to. */
  lemma {:induction false} FlattenCount(fmt: real -> string, recs: seq<(string, Record)>)
    requires AllConvertible(recs)
    ensures |Flatten(Conversions(fmt, recs))| == ShapeTotal(recs)
    decreases |recs|
  {
    if |recs| > 0 {
      var tail := recs[1..];
      assert AllConvertible(tail) by {
        forall j | 0 <= j < |tail| ensures Convertible(tail[j].1) {
          assert tail[j] == recs[j + 1];
        }
      }
      assert Conversions(fmt, recs)[1..] == Conversions(fmt, tail);
      FlattenCount(fmt, tail);
    }
  }

  /** The batch flattening as intended: every record's shapes in record order, unsupported records dropped. */
  function ConvertDataIntended(fmt: real -> string, recs: seq<(string, Record)>): (shapes: seq<Shape>)
    requires AllConvertible(recs)
    ensures |shapes| == ShapeTotal(recs)
  {
    FlattenCount(fmt, recs);
    Flatten(Conversions(fmt, recs))
  }

  /**
    The batch flattening as written: converts each record in order and extends
    the result with it, which raises as soon as a builder returns a single shape.
   */
  function ConvertData(fmt: real -> string, recs: seq<(string, Record)>): (r: Result<seq<Shape>, Error>)
    requires AllConvertible(recs)
    ensures r.Failure? <==> exists i :: 0 <= i < |recs| && Convert(fmt, recs[i].1).One?
    ensures r.Failure? ==> r.error == NotIterable
    ensures r.Success? ==> r.value == ConvertDataIntended(fmt, recs)
  {
    ExtendAll(Conversions(fmt, recs))
  }

  // ---------------------------------------------------------------------------
  // File entry point

  /** The two containers the file reader understands. */
  datatype Container = Archive | SingleRoi

  /** Picks the reader by suffix: ".zip" first, then ".roi"; anything else is unsupported. */
  function Route(path: string): (r: Result<Container, Error>)
    ensures r == Success(Archive) <==> EndsWith(path, ".zip")
    ensures r == Success(SingleRoi) <==> EndsWith(path, ".roi")
    ensures r.Failure? <==> !EndsWith(path, ".zip") && !EndsWith(path, ".roi")
    ensures r.Failure? ==> r.error == UnsupportedExtension
  {
    if EndsWith(path, ".zip") then Success(Archive)
    else if EndsWith(path, ".roi") then Success(SingleRoi)
    else Failure(UnsupportedExtension)
  }

  /**
    Reads the records of `path` with the reader its suffix selects and converts
    them; the readers stand for the archive and single-file readers.
   */
  function ReadRoi(fmt: real -> string, path: string,
                   readZip: string -> seq<(string, Record)>,
                   readFile: string -> seq<(string, Record)>): (r: Result<seq<Shape>, Error>)
    requires EndsWith(path, ".zip") ==> AllConvertible(readZip(path))
    requires EndsWith(path, ".roi") ==> AllConvertible(readFile(path))
    ensures r == Failure(UnsupportedExtension) <==> !EndsWith(path, ".zip") && !EndsWith(path, ".roi")
    ensures EndsWith(path, ".zip") ==> r == ConvertData(fmt, readZip(path))
    ensures EndsWith(path, ".roi") ==> r == ConvertData(fmt, readFile(path))
  {
    match Route(path)
    case Failure(e) => Failure(e)
    case Success(Archive) => ConvertData(fmt, readZip(path))
    case Success(SingleRoi) => ConvertData(fmt, readFile(path))
  }
}
