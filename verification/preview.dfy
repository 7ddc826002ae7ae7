/**
 The preview stage: it shows the reconstructed bounds as a translucent box
 and the point cloud as one small sphere per point, lets the user resize the
 box through three text fields (width, height, depth), and builds the export
 request from the box as it stands when the user continues.

 The text conversions of the platform are parameters: `parse` stands for
 `Float(String)` (None when the text is not a number) and `show` for
 `String(Float)`.
 */
module Preview {
  import opened Common
  import opened Geometry
  import opened Engine

  /** A colour with normalised real channels. */
  datatype Color = Color(red: real, green: real, blue: real, alpha: real)

  const MarkerRadius: real := 0.005

  /** A sphere marker for one point of the cloud. */
  datatype Marker = Marker(position: Vec3, radius: real, color: Color)

  /** The marker colour of a point: the colour channels divided by 255 and the
      alpha channel divided by 100, so alpha exceeds 1 for channel values
      above 100. */
  function MarkerColor(c: Rgba8): (r: Color)
    ensures 0.0 <= r.red <= 1.0 && 0.0 <= r.green <= 1.0 && 0.0 <= r.blue <= 1.0
    ensures 0.0 <= r.alpha && (r.alpha <= 1.0 <==> c.w <= 100)
    ensures r.red * 255.0 == c.x as real && r.green * 255.0 == c.y as real && r.blue * 255.0 == c.z as real
    ensures r.alpha * 100.0 == c.w as real
  {
    Color(c.x as real / 255.0, c.y as real / 255.0, c.z as real / 255.0, c.w as real / 100.0)
  }

  /** The markers of the point cloud, built in the cloud's order: one per
      point, at the point's position, in the point's colour. */
  method BuildMarkers(cloud: PointCloud) returns (markers: seq<Marker>)
    ensures |markers| == |cloud.points|
    ensures forall i :: 0 <= i < |markers| ==>
              && markers[i].position == cloud.points[i].position
              && markers[i].radius == MarkerRadius
              && markers[i].color == MarkerColor(cloud.points[i].color)
  {
    markers := [];
    var i := 0;
    while i < |cloud.points|
      invariant i <= |cloud.points|
      invariant |markers| == i
      invariant forall k :: 0 <= k < i ==>
                  && markers[k].position == cloud.points[k].position
                  && markers[k].radius == MarkerRadius
                  && markers[k].color == MarkerColor(cloud.points[k].color)
    {
      var point := cloud.points[i];
      markers := markers + [Marker(point.position, MarkerRadius, MarkerColor(point.color))];
      i := i + 1;
    }
  }

  /** Every marker's colour channels lie in [0, 1] exactly when the alpha
      channel of its point is at most 100. */
  lemma MarkerColorsInRange(cloud: PointCloud, markers: seq<Marker>)
    requires |markers| == |cloud.points|
    requires forall i :: 0 <= i < |markers| ==> markers[i].color == MarkerColor(cloud.points[i].color)
    ensures forall i :: 0 <= i < |markers| ==>
              var m := markers[i].color;
              (0.0 <= m.red <= 1.0 && 0.0 <= m.green <= 1.0 && 0.0 <= m.blue <= 1.0 && 0.0 <= m.alpha <= 1.0)
              <==> cloud.points[i].color.w <= 100
  {
  }

  /** The box proxy: its position (the engine's bounds centre, never changed)
      and the extents of its current mesh. */
  datatype BoxProxy = BoxProxy(position: Vec3, extents: Vec3)

  /** The editor: the box proxy and the text of the width (X), height (Y) and
      depth (Z) fields. */
  datatype Editor = Editor(box: BoxProxy, texts: Triple<string>)

  /** The stage as loaded: the fields show the engine's extents and the box
      proxy sits at the engine's bounds with the engine's extents. */
  function Setup(bounds: Box, show: real -> string): (ed: Editor)
    ensures ed.box.position == bounds.center && ed.box.extents == bounds.extents
    ensures forall a: Axis :: ed.texts.Get(a) == show(bounds.extents.Get(a))
  {
    Editor(BoxProxy(bounds.center, bounds.extents),
           Triple(show(bounds.extents.x), show(bounds.extents.y), show(bounds.extents.z)))
  }

  /** Regenerates the box mesh: each supplied size replaces its axis, each
      omitted one keeps the current extent. */
  function UpdateBoxBounds(ed: Editor, sizes: Triple<Option<real>>): (r: Editor)
    ensures forall a: Axis :: r.box.extents.Get(a) == if sizes.Get(a).Some? then sizes.Get(a).value else ed.box.extents.Get(a)
    ensures r.box.position == ed.box.position && r.texts == ed.texts
  {
    var e := ed.box.extents;
    ed.(box := ed.box.(extents := Triple(sizes.x.GetOr(e.x), sizes.y.GetOr(e.y), sizes.z.GetOr(e.z))))
  }

  /** The sizes argument that supplies only axis `a`. */
  function Only(a: Axis, v: real): (sizes: Triple<Option<real>>)
    ensures sizes.Get(a) == Some(v)
    ensures forall b: Axis :: b != a ==> sizes.Get(b) == None
  {
    Triple(None, None, None).With(a, Some(v))
  }

  /**
   The user commits `typed` in the field of axis `a`. If it does not parse,
   the field is reset to the current extent of that axis and the box is kept;
   otherwise that axis takes the parsed value and the other two keep their
   current extents.
   */
  function Commit(ed: Editor, a: Axis, typed: string, parse: string -> Option<real>, show: real -> string): (r: Editor)
    ensures parse(typed).None? ==> r.box == ed.box && r.texts == ed.texts.With(a, show(ed.box.extents.Get(a)))
    ensures parse(typed).Some? ==> r.box == ed.box.(extents := ed.box.extents.With(a, parse(typed).value))
    ensures parse(typed).Some? ==> r.texts == ed.texts.With(a, typed)
  {
    match parse(typed)
    case None => ed.(texts := ed.texts.With(a, show(ed.box.extents.Get(a))))
    case Some(v) =>
      var r := UpdateBoxBounds(ed.(texts := ed.texts.With(a, typed)), Only(a, v));
      TripleExt(r.box.extents, ed.box.extents.With(a, v));
      r
  }

  /** One commit: the axis of the field and the text it holds. */
  datatype Edit = Edit(axis: Axis, text: string)

  /** The editor after a sequence of commits, in order. */
  function ApplyEdits(ed: Editor, edits: seq<Edit>, parse: string -> Option<real>, show: real -> string): (r: Editor)
    ensures r.box.position == ed.box.position
    decreases |edits|
  {
    if edits == [] then ed
    else
      var last := edits[|edits| - 1];
      Commit(ApplyEdits(ed, edits[..|edits| - 1], parse, show), last.axis, last.text, parse, show)
  }

  /** The extent axis `a` should have after `edits`, from `initial`: the value
      of the last commit on that axis whose text parses. */
  function ExpectedExtent(initial: real, edits: seq<Edit>, a: Axis, parse: string -> Option<real>): real
    decreases |edits|
  {
    if edits == [] then initial
    else
      var last := edits[|edits| - 1];
      if last.axis == a && parse(last.text).Some? then parse(last.text).value
      else ExpectedExtent(initial, edits[..|edits| - 1], a, parse)
  }

  /** Each axis evolves on its own: after any sequence of commits an axis holds
      the value of its own last successful commit, or its starting extent,
      whatever was committed on the other two. */
  lemma {:induction false} EditsPerAxis(ed: Editor, edits: seq<Edit>, parse: string -> Option<real>, show: real -> string)
    ensures forall a: Axis :: ApplyEdits(ed, edits, parse, show).box.extents.Get(a)
                               == ExpectedExtent(ed.box.extents.Get(a), edits, a, parse)
    decreases |edits|
  {
    if edits != [] {
      EditsPerAxis(ed, edits[..|edits| - 1], parse, show);
    }
  }

  /** The geometry detail the export asks for. */
  datatype Detail = Reduced

  /** The model-file request issued on export. */
  datatype ModelFileRequest = ModelFileRequest(detail: Detail, orientedBounds: Box)

  /** The box as the user sees it: at the proxy's position, with its extents.
      This is a definition of the abstraction, not a proved fact: the ensures
      only spells out the two fields for callers. */
  function DisplayedBox(box: BoxProxy): (r: Box)
    ensures r.center == box.position && r.extents == box.extents
  {
    Box(box.position, box.extents)
  }

  /** The bounds of the box mesh itself, in the entity's own coordinates: a
      generated box mesh is centred on the entity's origin. Like
      `DisplayedBox`, this defines the abstraction (an assumption about the
      generator, listed in the README) rather than proving anything. */
  function MeshBounds(box: BoxProxy): (r: Box)
    ensures r.center == Origin && r.extents == box.extents
  {
    Box(Origin, box.extents)
  }

  /** The export request as written: its constraint is the mesh's own bounds,
      centred at the origin rather than where the box is shown. */
  function ExportRequestAsWritten(ed: Editor): (r: ModelFileRequest)
    ensures r.detail == Reduced
    ensures r.orientedBounds.center == Origin && r.orientedBounds.extents == ed.box.extents
  {
    ModelFileRequest(Reduced, MeshBounds(ed.box))
  }

  /** The as-written request constrains the region the user sees only when the
      engine's bounds are centred at the origin. */
  lemma AsWrittenExportMissesOffsetBox(ed: Editor)
    ensures ExportRequestAsWritten(ed).orientedBounds == DisplayedBox(ed.box) <==> ed.box.position == Origin
  {
  }

  /** An input that shows it: bounds centred at (1, 0, 0) with extents
      (2, 1, 1) are shown there, but exported as a box centred at the origin. */
  lemma AsWrittenExportCounterexample(show: real -> string)
    ensures var ed := Setup(Box(Triple(1.0, 0.0, 0.0), Triple(2.0, 1.0, 1.0)), show);
      ExportRequestAsWritten(ed).orientedBounds.center != DisplayedBox(ed.box).center
  {
  }

  /** The export request: reduced detail, constrained to the box as shown,
      with the extents it has at the moment of export. */
  function ExportRequest(ed: Editor): (r: ModelFileRequest)
    ensures r.detail == Reduced
    ensures r.orientedBounds == DisplayedBox(ed.box)
  {
    ModelFileRequest(Reduced, Box(ed.box.position, ed.box.extents))
  }

  /** From loading to export: the request is centred at the engine's bounds
      and each axis carries its last successfully committed value, or the
      engine's extent when none was. */
  lemma {:induction false} ExportAfterEdits(bounds: Box, edits: seq<Edit>, parse: string -> Option<real>, show: real -> string)
    ensures var r := ExportRequest(ApplyEdits(Setup(bounds, show), edits, parse, show));
      && r.orientedBounds.center == bounds.center
      && forall a: Axis :: r.orientedBounds.extents.Get(a) == ExpectedExtent(bounds.extents.Get(a), edits, a, parse)
  {
    EditsPerAxis(Setup(bounds, show), edits, parse, show);
  }

  /** From loading to export, as written: the request is centred at the origin
      whatever the engine's bounds centre, and each axis carries its last
      successfully committed value, or the engine's extent when none was. */
  lemma {:induction false} ExportAsWrittenAfterEdits(bounds: Box, edits: seq<Edit>, parse: string -> Option<real>, show: real -> string)
    ensures var r := ExportRequestAsWritten(ApplyEdits(Setup(bounds, show), edits, parse, show));
      && r.orientedBounds.center == Origin
      && forall a: Axis :: r.orientedBounds.extents.Get(a) == ExpectedExtent(bounds.extents.Get(a), edits, a, parse)
  {
    EditsPerAxis(Setup(bounds, show), edits, parse, show);
  }

  /** With extents (2, 1, 1): committing "3" as the width gives (3, 1, 1);
      then committing "abc" keeps (3, 1, 1) and resets the field to the text
      of 3 (which the platform renders as "3.0"). */
  lemma WidthEditScenario(center: Vec3, parse: string -> Option<real>, show: real -> string)
    requires parse("3") == Some(3.0) && parse("abc") == None
    ensures var ed0 := Setup(Box(center, Triple(2.0, 1.0, 1.0)), show);
      var ed1 := Commit(ed0, X, "3", parse, show);
      var ed2 := Commit(ed1, X, "abc", parse, show);
      && ed1.box.extents == Triple(3.0, 1.0, 1.0)
      && ed2.box.extents == Triple(3.0, 1.0, 1.0)
      && ed2.texts.Get(X) == show(3.0)
  {
  }
}
