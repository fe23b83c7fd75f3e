/** The plain data the converter reads (ImageJ ROI records) and writes (OMERO shapes). */
module Roi {
  import opened Wrappers

  /** The "position" entry: a {channel, slice, frame} dict of 1-based indices, or any non-dict value. */
  datatype Position = PosDict(channel: int, slice: int, frame: int) | NotDict

  /** One ImageJ ROI record: the entries the converter looks up, one field per key. */
  datatype Record = Record(
    kind: Option<string>,     // the "type" entry
    name: Option<string>,
    position: Position,
    x: seq<real>,
    y: seq<real>,
    left: Option<real>,
    top: Option<real>,
    width: Option<real>,
    heigh: Option<real>,      // the key the rectangle and oval builders read the height from
    height: Option<real>,     // the correctly spelled key, which no builder reads
    x1: Option<real>,
    y1: Option<real>,
    x2: Option<real>,
    y2: Option<real>)

  /** The geometry of an OMERO shape, one constructor per shape class. */
  datatype Geometry =
    | Point(x: real, y: real)
    | Rectangle(rectX: Option<real>, rectY: Option<real>, width: Option<real>, height: Option<real>)
    | Line(x1: Option<real>, y1: Option<real>, x2: Option<real>, y2: Option<real>)
    | Ellipse(x: real, y: real, radiusX: real, radiusY: real)
    | Polygon(points: string)
    | Polyline(points: string)

  /** The metadata every OMERO shape carries; `None` is a field never written. */
  datatype Meta = Meta(theZ: Option<int>, theC: Option<int>, theT: Option<int>, textValue: Option<string>)

  datatype Shape = Shape(geom: Geometry, meta: Meta)

  /** What `convert` returns: `None`, a list (points only) or a single shape. */
  datatype Converted = Unsupported | Many(shapes: seq<Shape>) | One(shape: Shape)

  /** The builders the kind tag is dispatched to. */
  datatype Builder =
    | PointBuilder
    | RectangleBuilder
    | LineBuilder
    | EllipseBuilder
    | PolygonBuilder
    | PolylineBuilder

  /** The exceptions the entry points raise: ValueError for the suffix, TypeError from `list.extend`. */
  datatype Error = UnsupportedExtension | NotIterable
}
