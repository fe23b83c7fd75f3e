/** Properties of the converter that relate several calls or hold for whole families of records. */
module ImageJProperties {
  import opened Wrappers
  import opened Text
  import opened Roi
  import opened PointsText
  import opened ImageJ

  // ---------------------------------------------------------------------------
  // Position and metadata

  /** On a fresh shape each index is written exactly when its 0-based value is resolved. */
  lemma FreshMetaPresence(rec: Record)
    ensures var m := RecordMeta(rec);
      && (m.theZ.Some? <==> rec.position.PosDict? && rec.position.slice >= 1)
      && (m.theC.Some? <==> rec.position.PosDict? && rec.position.channel >= 1)
      && (m.theT.Some? <==> rec.position.NotDict? || rec.position.frame >= 1)
      && m.textValue == rec.name
  {
  }

  /** A dict position with all indices at least 1 is recovered from the stamped metadata. */
  lemma StampedPositionRoundTrip(rec: Record)
    requires rec.position.PosDict?
    requires rec.position.channel >= 1 && rec.position.slice >= 1 && rec.position.frame >= 1
    ensures var m := RecordMeta(rec);
      && m.theZ.Some? && m.theC.Some? && m.theT.Some?
      && PosDict(m.theC.value + 1, m.theZ.value + 1, m.theT.value + 1) == rec.position
  {
  }

  /** Without a dict position only theT is written, as timepoint 0. */
  lemma UnstructuredPositionMeta(rec: Record)
    requires rec.position.NotDict?
    ensures RecordMeta(rec) == Meta(None, None, Some(0), rec.name)
  {
  }

  /** Stamping the same record twice changes nothing more. */
  lemma FormatShapeIdempotent(shape: Shape, rec: Record)
    ensures FormatShape(FormatShape(shape, rec), rec) == FormatShape(shape, rec)
  {
  }

  // ---------------------------------------------------------------------------
  // Builders

  /** The bounding box left 0, top 0, width 10, height 20 becomes centre (5, 10) with radii 5 and 10. */
  lemma EllipseExample(rec: Record)
    requires rec.left == Some(0.0) && rec.top == Some(0.0) && rec.width == Some(10.0) && rec.heigh == Some(20.0)
    ensures ConvertAsEllipse(rec).geom == Ellipse(5.0, 10.0, 5.0, 10.0)
  {
  }

  /** The rectangle's height comes from "heigh" alone: the "height" entry is never read. */
  lemma RectangleReadsHeighOnly(rec: Record, h: Option<real>)
    ensures ConvertAsRectangle(rec.(height := h)) == ConvertAsRectangle(rec)
    ensures rec.heigh.None? ==> ConvertAsRectangle(rec).geom.height.None?
  {
  }

  /** A polygon's points text reads back as the first min(|x|, |y|) coordinate pairs, in order. */
  lemma PolygonPointsRoundTrip(fmt: real -> string, rec: Record)
    requires PlainNumerals(fmt)
    ensures var pairs := DecodePoints(ConvertAsPolygon(fmt, rec).geom.points);
      && |pairs| == Min(|rec.x|, |rec.y|)
      && forall i :: 0 <= i < |pairs| ==> pairs[i] == (fmt(rec.x[i]), fmt(rec.y[i]))
  {
    PointsRoundTrip(fmt, rec.x, rec.y);
  }

  /** A polyline built from the same record has the polygon's points text and metadata. */
  lemma PolylineMatchesPolygon(fmt: real -> string, rec: Record)
    ensures ConvertAsPolyline(fmt, rec).geom.points == ConvertAsPolygon(fmt, rec).geom.points
    ensures ConvertAsPolyline(fmt, rec).meta == ConvertAsPolygon(fmt, rec).meta
  {
  }

  // ---------------------------------------------------------------------------
  // Dispatch

  /** The if-chain of `convert` agrees with the dispatch table on every record. */
  lemma ConvertFollowsTable(fmt: real -> string, rec: Record)
    requires Convertible(rec)
    ensures Lower(rec.kind.value) in DispatchTable ==> Convert(fmt, rec) == Build(fmt, DispatchTable[Lower(rec.kind.value)], rec)
  {
    var tag := Lower(rec.kind.value);
    if tag in {"polygon", "freehand", "traced"} {
      assert DispatchTable[tag] == PolygonBuilder;
    } else if tag in {"polyline", "angle", "freeline"} {
      assert DispatchTable[tag] == PolylineBuilder;
    }
  }

  /** Only the lower-cased tag matters: two tags that agree once lower-cased convert alike. */
  lemma ConvertIgnoresCase(fmt: real -> string, rec: Record, tag: string)
    requires Convertible(rec)
    requires Lower(tag) == Lower(rec.kind.value)
    ensures Convertible(rec.(kind := Some(tag)))
    ensures Convert(fmt, rec.(kind := Some(tag))) == Convert(fmt, rec)
  {
    var other := rec.(kind := Some(tag));
    assert RecordMeta(other) == RecordMeta(rec);
    if Lower(tag) == "point" {
      assert ConvertAsPoint(other) == ConvertAsPoint(rec);
    }
  }

  /** "polygon", "freehand" and "traced", in any case, all build the same polygon. */
  lemma PolygonSynonyms(fmt: real -> string, rec: Record)
    requires rec.kind.Some? && Lower(rec.kind.value) in {"polygon", "freehand", "traced"}
    ensures Convertible(rec)
    ensures Convert(fmt, rec) == One(ConvertAsPolygon(fmt, rec))
  {
  }

  /** "polyline", "angle" and "freeline", in any case, all build the same polyline. */
  lemma PolylineSynonyms(fmt: real -> string, rec: Record)
    requires rec.kind.Some? && Lower(rec.kind.value) in {"polyline", "angle", "freeline"}
    ensures Convertible(rec)
    ensures Convert(fmt, rec) == One(ConvertAsPolyline(fmt, rec))
  {
  }

  /** A kind outside the ten tags (such as "text") adds nothing to a batch and raises nothing. */
  lemma UnknownKindContributesNothing(fmt: real -> string, name: string, rec: Record)
    requires rec.kind.Some? && Lower(rec.kind.value) !in DispatchTable
    ensures Convertible(rec)
    ensures Convert(fmt, rec) == Unsupported
    ensures ConvertData(fmt, [(name, rec)]) == Success([])
  {
  }

  // ---------------------------------------------------------------------------
  // Batch

  /** Every slice of a convertible batch is convertible. */
  lemma AllConvertibleSlice(recs: seq<(string, Record)>, lo: nat, hi: nat)
    requires AllConvertible(recs) && lo <= hi <= |recs|
    ensures AllConvertible(recs[lo..hi])
  {
    forall j | 0 <= j < hi - lo
      ensures Convertible(recs[lo..hi][j].1)
    {
      assert recs[lo..hi][j] == recs[lo + j];
    }
  }

  /** Two convertible batches make a convertible batch, converted record by record. */
  lemma ConversionsConcat(fmt: real -> string, a: seq<(string, Record)>, b: seq<(string, Record)>)
    requires AllConvertible(a) && AllConvertible(b)
    ensures AllConvertible(a + b)
    ensures Conversions(fmt, a + b) == Conversions(fmt, a) + Conversions(fmt, b)
  {
    forall j | 0 <= j < |a + b|
      ensures Convertible((a + b)[j].1)
    {
      if j < |a| {
        assert (a + b)[j] == a[j];
      } else {
        assert (a + b)[j] == b[j - |a|];
      }
    }
  }

  /** Flattening distributes over concatenation. */
  lemma {:induction false} FlattenAppend(a: seq<Converted>, b: seq<Converted>)
    ensures Flatten(a + b) == Flatten(a) + Flatten(b)
    decreases |a|
  {
    if |a| == 0 {
      assert a + b == b;
    } else {
      assert (a + b)[0] == a[0];
      assert (a + b)[1..] == a[1..] + b;
      FlattenAppend(a[1..], b);
    }
  }

  /** Converting two consecutive batches gives the first batch's shapes followed by the second's. */
  lemma ConvertDataIntendedAppend(fmt: real -> string, a: seq<(string, Record)>, b: seq<(string, Record)>)
    requires AllConvertible(a) && AllConvertible(b)
    ensures AllConvertible(a + b)
    ensures ConvertDataIntended(fmt, a + b) == ConvertDataIntended(fmt, a) + ConvertDataIntended(fmt, b)
  {
    ConversionsConcat(fmt, a, b);
    FlattenAppend(Conversions(fmt, a), Conversions(fmt, b));
  }

  /** A batch of one record flattens to that record's shapes. */
  lemma ConvertDataIntendedSingle(fmt: real -> string, r: (string, Record))
    requires Convertible(r.1)
    ensures AllConvertible([r])
    ensures ConvertDataIntended(fmt, [r]) == Emitted(Convert(fmt, r.1))
  {
    var c := Convert(fmt, r.1);
    assert AllConvertible([r]);
    assert Conversions(fmt, [r]) == [c];
    assert [c][1..] == [];
    assert Flatten([c]) == Emitted(c) + [];
  }

  /** Record i's shapes sit, in their own order, between the shapes of the records before it and those after it. */
  lemma ConvertDataIntendedOrder(fmt: real -> string, recs: seq<(string, Record)>, i: nat)
    requires AllConvertible(recs) && i < |recs|
    ensures AllConvertible(recs[..i]) && AllConvertible(recs[i + 1..])
    ensures ConvertDataIntended(fmt, recs)
         == ConvertDataIntended(fmt, recs[..i]) + Emitted(Convert(fmt, recs[i].1)) + ConvertDataIntended(fmt, recs[i + 1..])
  {
    AllConvertibleSlice(recs, 0, i);
    AllConvertibleSlice(recs, i + 1, |recs|);
    ConvertDataIntendedSingle(fmt, recs[i]);
    assert recs == recs[..i] + ([recs[i]] + recs[i + 1..]);
    ConvertDataIntendedAppend(fmt, [recs[i]], recs[i + 1..]);
    ConvertDataIntendedAppend(fmt, recs[..i], [recs[i]] + recs[i + 1..]);
  }

  /** An unsupported conversion adds nothing to a flattening. */
  lemma FlattenSkipsUnsupported(a: seq<Converted>, b: seq<Converted>)
    ensures Flatten(a + ([Unsupported] + b)) == Flatten(a + b)
  {
    assert ([Unsupported] + b)[1..] == b;
    FlattenAppend(a, [Unsupported] + b);
    FlattenAppend(a, b);
  }

  /** A record of unknown kind can be taken out of a batch without changing its result. */
  lemma UnsupportedRecordDropped(fmt: real -> string, before: seq<(string, Record)>, r: (string, Record), after: seq<(string, Record)>)
    requires AllConvertible(before) && Convertible(r.1) && AllConvertible(after)
    requires Convert(fmt, r.1) == Unsupported
    ensures AllConvertible(before + after) && AllConvertible(before + ([r] + after))
    ensures ConvertDataIntended(fmt, before + ([r] + after)) == ConvertDataIntended(fmt, before + after)
  {
    assert AllConvertible([r]);
    assert Conversions(fmt, [r]) == [Unsupported];
    ConversionsConcat(fmt, [r], after);
    ConversionsConcat(fmt, before, [r] + after);
    ConversionsConcat(fmt, before, after);
    FlattenSkipsUnsupported(Conversions(fmt, before), Conversions(fmt, after));
  }

  /** The two-point batch of the unit test: two points at (0, 1), the first with z=1, c=0, t=2, the second with t=0 only. */
  lemma TwoPointBatch(fmt: real -> string)
    ensures var first := Record(Some("point"), Some("1"), PosDict(1, 2, 3), [0.0], [1.0],
                                None, None, None, None, None, None, None, None, None);
            var second := Record(Some("point"), Some("2"), NotDict, [0.0], [1.0],
                                 None, None, None, None, None, None, None, None, None);
            && AllConvertible([("1", first), ("2", second)])
            && ConvertData(fmt, [("1", first), ("2", second)]) == Success([
                 Shape(Point(0.0, 1.0), Meta(Some(1), Some(0), Some(2), Some("1"))),
                 Shape(Point(0.0, 1.0), Meta(None, None, Some(0), Some("2")))])
  {
    var first := Record(Some("point"), Some("1"), PosDict(1, 2, 3), [0.0], [1.0],
                        None, None, None, None, None, None, None, None, None);
    var second := Record(Some("point"), Some("2"), NotDict, [0.0], [1.0],
                         None, None, None, None, None, None, None, None, None);
    var recs := [("1", first), ("2", second)];
    assert Lower("point") == "point";
    var p1 := Shape(Point(0.0, 1.0), Meta(Some(1), Some(0), Some(2), Some("1")));
    var p2 := Shape(Point(0.0, 1.0), Meta(None, None, Some(0), Some("2")));
    assert ConvertAsPoint(first) == [p1];
    assert ConvertAsPoint(second) == [p2];
    assert recs[1..] == [("2", second)] && recs[1..][1..] == [];
    assert [p2] + [] == [p2];
    assert ConvertData(fmt, recs[1..]) == Success([p2]);
    assert [p1] + [p2] == [p1, p2];
  }

  /** As written, a batch holding one rectangle raises, though the intended flattening has one shape for it. */
  lemma SingleShapeBatchFails(fmt: real -> string, rec: Record)
    requires rec.kind == Some("rectangle")
    ensures AllConvertible([("1", rec)])
    ensures ConvertData(fmt, [("1", rec)]) == Failure(NotIterable)
    ensures ConvertDataIntended(fmt, [("1", rec)]) == [ConvertAsRectangle(rec)]
  {
    assert Lower("rectangle") == "rectangle";
    var shape := ConvertAsRectangle(rec);
    assert Conversions(fmt, [("1", rec)]) == [One(shape)];
    assert [One(shape)][1..] == [];
    assert Flatten([One(shape)]) == [shape] + [];
  }

  // ---------------------------------------------------------------------------
  // File entry point

  /** An unsupported suffix fails without consulting either reader. */
  lemma UnsupportedSuffixReadsNothing(fmt: real -> string, path: string,
                                      readZip: string -> seq<(string, Record)>,
                                      readFile: string -> seq<(string, Record)>,
                                      readZip': string -> seq<(string, Record)>,
                                      readFile': string -> seq<(string, Record)>)
    requires !EndsWith(path, ".zip") && !EndsWith(path, ".roi")
    ensures ReadRoi(fmt, path, readZip, readFile) == ReadRoi(fmt, path, readZip', readFile') == Failure(UnsupportedExtension)
  {
  }
}
