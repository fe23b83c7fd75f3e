# ImageJ ROI to OMERO shape conversion, modelled in Dafny

This project models the converter in `src/omero_rois/imagej.py`. The converter turns ImageJ
region-of-interest (ROI) records into OMERO shapes. It has these parts:

- **Position decoding** (`handle_position`). It turns the record's 1-based
  `{channel, slice, frame}` dict into 0-based `(z, c, t)`. Without a dict it gives `(-1, -1, 0)`.
- **Metadata stamping** (`format_shape`). It writes `theC`, `theZ` and `theT` only when the value is at
  least 0. It always writes `textValue` from `name`.
- **Six builders**: point, rectangle, line, ellipse (ImageJ "oval"), polygon and polyline.
- **Kind dispatcher** (`convert`). It lower-cases the `type` tag and matches it against ten tags.
- **Batch flattener** (`convert_data`).
- **File-suffix routing** (`read_roi`).

Files:

- `wrappers.dfy`: `Option` (a dict entry that may be missing) and `Result` (a value or the exception raised).
- `text.dfy`: the Python string operations used. These are `lower` (ASCII letters only), `endswith`,
  `join` and a character search.
- `roi.dfy`: the data.
  - `Record` has one field per dict key the converter reads. It has both `heigh`, the key the code reads,
    and `height`, which nothing reads.
  - `Position` is `PosDict(channel, slice, frame)` or `NotDict`.
  - `Shape` is a `Geometry` plus `Meta`, the optional `theZ`, `theC`, `theT` and `textValue`.
  - `Converted` is what `convert` returns: `Unsupported` (Python's `None`), a list (points) or one shape.
- `points_text.dfy`: the polygon/polyline points text.
  - The text is `", "`-joined `"x,y"` tokens over `zip(x, y)`.
  - `DecodePoints` reads such a text back into its pairs, and `PointsRoundTrip` proves that it does.
- `imagej.dfy` (module `ImageJ`): the converter, one function per Python function. It also has
  `DispatchTable`, the kind-tag table that is the reference for `Convert`, and `ConvertDataIntended`,
  the corrected batch flattening (see Findings).
- `imagej_properties.dfy` (module `ImageJProperties`): lemmas that relate several calls.

The model follows the code in these behaviours, which a reader might not expect:

- `theT` is written only when `t >= 0`. A dict position with `frame` 0 therefore leaves `theT` unset.
- Points-text tokens are separated by `", "`, not by a single space.
- The height is read from the key `"heigh"`.
- A record without `type` raises (`None.lower()`) instead of being dropped. `Convertible` requires the tag.
- The point builder needs `|y| >= |x|`, not equal lengths.
- `convert_data` raises on any batch holding a rectangle, line, oval, polygon or polyline record, or a synonym of one (see Findings). Batches of only points and unknown kinds succeed.

## Model

| member | source | states |
|---|---|---|
| `ImageJ.HandlePosition` | src/omero_rois/imagej.py:35-48 | For a dict position, the 1-based (channel, slice, frame) is exactly (c+1, z+1, t+1) of the result. For any other position, the result is (-1, -1, 0). |
| `ImageJ.FormatShape` | src/omero_rois/imagej.py:51-65 | Geometry is unchanged and textValue is the record's name. Each of theC, theZ, theT holds its decoded value when that value is >= 0 and is left untouched otherwise. |
| `ImageJProperties.FreshMetaPresence` | src/omero_rois/imagej.py:39-65 | On a new shape: theZ is set iff the position is a dict with slice >= 1. theC is set iff it is a dict with channel >= 1. theT is set iff the position is not a dict or frame >= 1. |
| `ImageJProperties.StampedPositionRoundTrip` | src/omero_rois/imagej.py:39-65 | A dict position whose indices are all >= 1 is rebuilt exactly from the stamped theC+1, theZ+1, theT+1. |
| `ImageJProperties.UnstructuredPositionMeta` | src/omero_rois/imagej.py:39-65 | Without a dict position, the stamped metadata is theZ and theC absent, theT = 0, textValue = name. |
| `ImageJProperties.FormatShapeIdempotent` | src/omero_rois/imagej.py:51-65 | Stamping the same record a second time changes nothing. |
| `ImageJ.ConvertAsPoint` | src/omero_rois/imagej.py:68-83 | Exactly one point per x coordinate. The i-th point is at (x[i], y[i]). Every point carries the record's metadata. Requires |y| >= |x|, as the indexing does. |
| `ImageJ.ConvertAsRectangle` | src/omero_rois/imagej.py:86-98 | One rectangle: x = left, y = top, width = width, height = the "heigh" entry, plus the record's metadata. |
| `ImageJProperties.RectangleReadsHeighOnly` | src/omero_rois/imagej.py:92-97 | The "height" entry never affects the rectangle. Without a "heigh" entry the height is absent. |
| `ImageJ.ConvertAsLine` | src/omero_rois/imagej.py:101-113 | One line with x1, y1, x2, y2 copied unchanged, plus the record's metadata. |
| `ImageJ.ConvertAsEllipse` | src/omero_rois/imagej.py:116-132 | The bounding box is recovered exactly over the reals: 2·radiusX = width, 2·radiusY = "heigh", x − radiusX = left, y − radiusY = top. The ellipse also carries the record's metadata. |
| `ImageJProperties.EllipseExample` | src/omero_rois/imagej.py:122-130 | The box left 0, top 0, width 10, "heigh" 20 gives centre (5, 10) and radii (5, 10). |
| `PointsText.Tokens` | src/omero_rois/imagej.py:144 | The tokens of zip(x, y): min(|x|, |y|) of them, the i-th being x[i] "," y[i]. |
| `PointsText.PointsString` | src/omero_rois/imagej.py:144 | The joined text is empty iff min(|x|, |y|) = 0. |
| `PointsText.PointsRoundTrip` | src/omero_rois/imagej.py:144 | Splitting the text at ", " and each token at "," gives back, in input order, the numerals of exactly the first min(|x|, |y|) pairs. |
| `ImageJ.ConvertAsPolygon` | src/omero_rois/imagej.py:135-147 | One polygon whose points are the joined (x, y) text, plus the record's metadata. |
| `ImageJ.ConvertAsPolyline` | src/omero_rois/imagej.py:150-162 | One polyline whose points are the joined (x, y) text, plus the record's metadata. |
| `ImageJProperties.PolygonPointsRoundTrip` | src/omero_rois/imagej.py:142-145 | A polygon's points text decodes to the record's first min(|x|, |y|) coordinate pairs, in order. |
| `ImageJProperties.PolylineMatchesPolygon` | src/omero_rois/imagej.py:142-160 | Polyline and polygon built from the same record have the same points text and metadata. |
| `ImageJ.Convert` | src/omero_rois/imagej.py:165-185 | The result is Unsupported iff the lower-cased tag is not one of the ten table tags. The shape count is |x| for "point", 1 for the other nine tags and 0 otherwise. Every emitted shape carries the record's metadata. |
| `ImageJProperties.ConvertFollowsTable` | src/omero_rois/imagej.py:171-183 | For every tag in the table, the if-chain gives exactly what the table's builder gives. |
| `ImageJProperties.ConvertIgnoresCase` | src/omero_rois/imagej.py:171 | Two tags equal after lower-casing give the same conversion. |
| `ImageJProperties.PolygonSynonyms` | src/omero_rois/imagej.py:180-181 | "polygon", "freehand" and "traced", in any letter case, all give the polygon builder's shape. |
| `ImageJProperties.PolylineSynonyms` | src/omero_rois/imagej.py:182-183 | "polyline", "angle" and "freeline", in any letter case, all give the polyline builder's shape. |
| `ImageJProperties.UnknownKindContributesNothing` | src/omero_rois/imagej.py:184-199 | An unknown tag converts to Unsupported. A batch of that record alone succeeds with no shapes. |
| `ImageJ.ExtendAll` | src/omero_rois/imagej.py:194-199 | Fails with NotIterable iff some conversion is a single shape. Otherwise it returns the in-order concatenation of the conversions' shape lists, with unsupported records contributing nothing. |
| `ImageJ.ConvertData` | src/omero_rois/imagej.py:188-199 | As written: the batch fails (TypeError, not iterable) iff some record converts to a single shape. When it succeeds, it returns the intended flattening. |
| `ImageJ.ConvertDataIntended` | src/omero_rois/imagej.py:188-199 | The flattened batch has as many shapes as the per-record counts add up to. |
| `ImageJProperties.ConvertDataIntendedAppend` | src/omero_rois/imagej.py:194-199 | Flattening two consecutive batches equals flattening each batch and concatenating the results. |
| `ImageJProperties.ConvertDataIntendedOrder` | src/omero_rois/imagej.py:194-199 | For every record i, the batch result is the result of the records before i, then record i's own shapes in their order, then the result of the records after i. |
| `ImageJProperties.UnsupportedRecordDropped` | src/omero_rois/imagej.py:196-198 | Removing a record of unknown kind does not change the batch result. |
| `ImageJProperties.TwoPointBatch` | test/unit/test_imagej.py:31-73 | The two-record fixture gives exactly two points at (0, 1). The first has z=1, c=0, t=2 and name "1". The second has only t=0 and name "2". |
| `ImageJProperties.SingleShapeBatchFails` | src/omero_rois/imagej.py:194-199 | As written, a batch holding one rectangle fails with NotIterable. The intended flattening yields that rectangle. |
| `ImageJ.Route` | src/omero_rois/imagej.py:210-215 | ".zip" selects the archive reader and ".roi" the single-file reader, each iff the path has that suffix. Any other suffix is UnsupportedExtension. |
| `ImageJ.ReadRoi` | src/omero_rois/imagej.py:202-216 | Fails with UnsupportedExtension iff the path ends in neither suffix. Otherwise it converts exactly what the selected reader returns. |
| `ImageJProperties.UnsupportedSuffixReadsNothing` | src/omero_rois/imagej.py:210-215 | With an unsupported suffix the result does not depend on either reader: nothing is read or converted. |

## Left out

- File readers: `read_roi_zip` and `read_roi_file` belong to an external library that does file and archive I/O. They are function parameters of `ReadRoi`, from path to (name, record) pairs.
- Dict iteration order: a batch is an ordered sequence of (name, record) pairs, taken in the order `values.items()` yields them. Names are not used.
- OMERO model classes and `rtypes` wrappers (`PointI`, `rdouble`, `rint`, `rstring`, ...): these are plain datatypes here. An absent entry copied into a rectangle or line field, or into textValue, stays absent.
- Floating point: coordinates are `real`, so the ellipse arithmetic is exact.
- Number formatting: the `"%s"` rendering of a number is the parameter `fmt`. The round trip assumes its output holds no comma and no space (`PlainNumerals`).
- Lower-casing: only A–Z are folded. The ten tags are plain ASCII words.
- Malformed records are excluded by `Convertible` or by the datatypes, not modelled as errors. These are:
  - a missing `type`;
  - a point record with fewer y than x values;
  - an oval without left, top, width or "heigh". This is not always a malformed record. The builder reads the misspelt key "heigh", so an oval that carries only the correctly spelled "height" fails at `None / 2` (imagej.py:125). `Convertible` excludes it, and `RectangleReadsHeighOnly` shows the same key for rectangles;
  - a position dict missing a key;
  - absent or non-numeric x/y.
- ReadRoi: follows the code, so it uses `ConvertData` as written. Whenever that succeeds, its value is `ConvertDataIntended`'s.

## Findings

| source | as written | input that shows it | evidently intended | confidence | as-written member | corrected member |
|---|---|---|---|---|---|---|
| src/omero_rois/imagej.py:198 | `shapes.extend(roi)` on every non-`None` conversion, but only the point builder returns a list; the other five return a single shape object | a batch holding one record whose type is "rectangle" (or line, oval, polygon, polyline and their synonyms) | add the single shape, so each supported record contributes its shapes in order | not executed; high (shape objects are not iterable, so `extend` raises TypeError) | `ImageJProperties.SingleShapeBatchFails` | `ImageJ.ConvertDataIntended` |
