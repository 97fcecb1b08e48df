/**
 * The project page's overview map (app/webpack/projects/show/components/overview_map.jsx):
 * which title it shows, which bounds it fits, and which place layer it draws.
 *
 * When the project's recent observations carry no total bounds but the
 * project has place rules, the bounds are the union of the places' GeoJSON
 * bounding boxes: the south-west corner takes the minimum, the north-east
 * corner the maximum, each field starting out null. Coordinates are only
 * compared, so they are reals.
 */
module OverviewMap {
  import opened Wrappers
  import opened Strings

  /** A GeoJSON position `[ lng, lat ]`. */
  datatype Point = Point(lng: real, lat: real)

  /** `bounding_box_geojson`: a polygon, as its rings of positions. */
  datatype GeoJson = GeoJson(coordinates: seq<seq<Point>>)

  datatype Place = Place(boundingBox: Option<GeoJson>)

  /** A project rule on a place: the place's id (`operand_id`) and the place, when loaded. */
  datatype PlaceRule = PlaceRule(operandId: nat, place: Option<Place>)

  /** `{ swlat, swlng, nelat, nelng }`, each field possibly null. */
  datatype Bounds = Bounds(swlat: Option<real>, swlng: Option<real>, nelat: Option<real>, nelng: Option<real>)

  /**
   * The project as the component reads it. `recentBounds` is
   * `recent_observations.total_bounds` when that is a non-empty object, and
   * `None` when it is missing or empty.
   */
  datatype Project = Project(recentBounds: Option<Bounds>, placeRules: seq<PlaceRule>)

  /** The `place` of the single entry of `placeLayers`. */
  datatype PlaceLayer = PlaceLayer(id: string, name: string)

  /** The title key and the props of the map that depend on the project. */
  datatype MapProps = MapProps(
    title: string,
    placeLayers: Option<PlaceLayer>,
    minX: Option<real>,
    minY: Option<real>,
    maxX: Option<real>,
    maxY: Option<real>)

  const NULL_BOUNDS: Bounds := Bounds(None, None, None, None)

  /** What a rule whose place's ring is missing or too short raises. */
  const TYPE_ERROR: string := "TypeError"

  /** `r.place && r.place.bounding_box_geojson`: the rule takes part in the union. */
  predicate Included(r: PlaceRule)
  {
    r.place.Some? && r.place.value.boundingBox.Some?
  }

  /** The positions the loop reads, `coordinates[0][0]` to `coordinates[0][2]`, exist. */
  predicate Readable(r: PlaceRule)
    requires Included(r)
  {
    var c := r.place.value.boundingBox.value.coordinates;
    |c| > 0 && |c[0]| >= 3
  }

  /** The four bound fields, for reasoning about them uniformly. */
  datatype Corner = SwLat | SwLng | NeLat | NeLng
  {
    /** The south-west fields take minima, the north-east fields maxima. */
    predicate TakesMin()
    {
      this == SwLat || this == SwLng
    }
  }

  function Field(b: Bounds, c: Corner): Option<real>
  {
    match c
    case SwLat => b.swlat
    case SwLng => b.swlng
    case NeLat => b.nelat
    case NeLng => b.nelng
  }

  /** A rule's contribution to a field: `coords[0][1]`, `coords[0][0]`, `coords[1][1]` or `coords[2][0]`. */
  function CornerOf(r: PlaceRule, c: Corner): real
    requires Included(r) && Readable(r)
  {
    var coords := r.place.value.boundingBox.value.coordinates[0];
    match c
    case SwLat => coords[0].lat
    case SwLng => coords[0].lng
    case NeLat => coords[1].lat
    case NeLng => coords[2].lng
  }

  function Min(a: real, b: real): real { if a <= b then a else b }

  function Max(a: real, b: real): real { if a >= b then a else b }

  /** `acc === null ? x : Math.min( acc, x )`, or `Math.max` for a maximising field. */
  function Merge(acc: Option<real>, x: real, takeMin: bool): Option<real>
  {
    if acc.None? then Some(x) else if takeMin then Some(Min(acc.value, x)) else Some(Max(acc.value, x))
  }

  /** One turn of the `_.each` loop (lines 12-24). */
  function Step(b: Bounds, r: PlaceRule): (res: Result<Bounds>)
    ensures !Included(r) ==> res == Ok(b)
    ensures res.Err? <==> Included(r) && !Readable(r)
    ensures res.Err? ==> res.error == TYPE_ERROR
    ensures res.Ok? && Included(r) ==> forall c: Corner ::
      Field(res.value, c).Some? &&
      (if c.TakesMin() then Field(res.value, c).value <= CornerOf(r, c) else Field(res.value, c).value >= CornerOf(r, c)) &&
      (Field(b, c).Some? ==>
        if c.TakesMin() then Field(res.value, c).value <= Field(b, c).value else Field(res.value, c).value >= Field(b, c).value)
  {
    if !Included(r) then Ok(b)
    else if !Readable(r) then Err(TYPE_ERROR)
    else Ok(Bounds(
      Merge(b.swlat, CornerOf(r, SwLat), true),
      Merge(b.swlng, CornerOf(r, SwLng), true),
      Merge(b.nelat, CornerOf(r, NeLat), false),
      Merge(b.nelng, CornerOf(r, NeLng), false)))
  }

  /** The bounds after the loop has seen `rules`, in order, starting from all-null. */
  function PlaceBounds(rules: seq<PlaceRule>): (res: Result<Bounds>)
    decreases |rules|
    ensures res.Err? ==> res.error == TYPE_ERROR
    ensures rules == [] ==> res == Ok(NULL_BOUNDS)
  {
    if rules == [] then Ok(NULL_BOUNDS)
    else match PlaceBounds(rules[..|rules| - 1])
      case Err(e) => Err(e)
      case Ok(b) => Step(b, rules[|rules| - 1])
  }

  /** Every included rule's ring can be read. */
  predicate AllReadable(rules: seq<PlaceRule>)
  {
    forall i :: 0 <= i < |rules| && Included(rules[i]) ==> Readable(rules[i])
  }

  lemma StepField(b: Bounds, r: PlaceRule, c: Corner)
    requires Included(r) && Readable(r)
    ensures Step(b, r).Ok? && Field(Step(b, r).value, c) == Merge(Field(b, c), CornerOf(r, c), c.TakesMin())
  {
  }

  /** The union fails exactly when some included rule's ring cannot be read. */
  lemma {:induction false} PlaceBoundsOkIff(rules: seq<PlaceRule>)
    ensures PlaceBounds(rules).Ok? <==> AllReadable(rules)
    ensures PlaceBounds(rules).Err? ==> PlaceBounds(rules).error == TYPE_ERROR
    decreases |rules|
  {
    if rules != [] {
      var prefix := rules[..|rules| - 1];
      PlaceBoundsOkIff(prefix);
      assert forall i :: 0 <= i < |prefix| ==> prefix[i] == rules[i];
    }
  }

  /**
   * The union is tight: each field is null exactly when no rule is included,
   * and otherwise it bounds every included rule's coordinate (from below for
   * the south-west corner, from above for the north-east corner) and equals
   * the coordinate of some included rule.
   */
  lemma {:induction false} PlaceBoundsTight(rules: seq<PlaceRule>, c: Corner)
    requires PlaceBounds(rules).Ok?
    ensures AllReadable(rules)
    ensures Field(PlaceBounds(rules).value, c).None? <==> forall i :: 0 <= i < |rules| ==> !Included(rules[i])
    ensures var v := Field(PlaceBounds(rules).value, c);
      v.Some? ==> forall i :: 0 <= i < |rules| && Included(rules[i]) ==>
        if c.TakesMin() then v.value <= CornerOf(rules[i], c) else v.value >= CornerOf(rules[i], c)
    ensures var v := Field(PlaceBounds(rules).value, c);
      v.Some? ==> exists i :: 0 <= i < |rules| && Included(rules[i]) && CornerOf(rules[i], c) == v.value
    decreases |rules|
  {
    PlaceBoundsOkIff(rules);
    if rules != [] {
      var n := |rules| - 1;
      var prefix := rules[..n];
      assert forall i :: 0 <= i < n ==> prefix[i] == rules[i];
      assert PlaceBounds(prefix).Ok?;
      PlaceBoundsTight(prefix, c);
      var b := PlaceBounds(prefix).value;
      var last := rules[n];
      if Included(last) {
        StepField(b, last, c);
        var v := Field(PlaceBounds(rules).value, c);
        if Field(b, c).Some? {
          var j :| 0 <= j < n && Included(prefix[j]) && CornerOf(prefix[j], c) == Field(b, c).value;
          if v.value == Field(b, c).value {
            assert Included(rules[j]) && CornerOf(rules[j], c) == v.value;
          } else {
            assert CornerOf(rules[n], c) == v.value;
          }
        } else {
          assert CornerOf(rules[n], c) == v.value;
        }
      }
    }
  }

  /** Rules without a place or without a bounding box are skipped; if none qualifies, every field stays null. */
  lemma NoIncludedRuleKeepsNull(rules: seq<PlaceRule>)
    requires forall i :: 0 <= i < |rules| ==> !Included(rules[i])
    ensures PlaceBounds(rules) == Ok(NULL_BOUNDS)
  {
  }

  /**
   * The union does not depend on the order of the rules, nor on repeated
   * rules: two rule lists holding the same rules give the same result.
   */
  lemma OrderIrrelevant(a: seq<PlaceRule>, b: seq<PlaceRule>)
    requires forall r :: r in a <==> r in b
    ensures PlaceBounds(a) == PlaceBounds(b)
  {
    PlaceBoundsOkIff(a);
    PlaceBoundsOkIff(b);
    assert AllReadable(a) <==> AllReadable(b) by {
      if AllReadable(a) {
        forall i | 0 <= i < |b| && Included(b[i]) ensures Readable(b[i]) {
          assert b[i] in a;
        }
      }
      if AllReadable(b) {
        forall i | 0 <= i < |a| && Included(a[i]) ensures Readable(a[i]) {
          assert a[i] in b;
        }
      }
    }
    if PlaceBounds(a).Ok? {
      forall c: Corner ensures Field(PlaceBounds(a).value, c) == Field(PlaceBounds(b).value, c) {
        SameField(a, b, c);
      }
      var x, y := PlaceBounds(a).value, PlaceBounds(b).value;
      assert Field(x, SwLat) == Field(y, SwLat) && Field(x, SwLng) == Field(y, SwLng);
      assert Field(x, NeLat) == Field(y, NeLat) && Field(x, NeLng) == Field(y, NeLng);
    }
  }

  lemma SameField(a: seq<PlaceRule>, b: seq<PlaceRule>, c: Corner)
    requires forall r :: r in a <==> r in b
    requires PlaceBounds(a).Ok? && PlaceBounds(b).Ok?
    ensures Field(PlaceBounds(a).value, c) == Field(PlaceBounds(b).value, c)
  {
    PlaceBoundsTight(a, c);
    PlaceBoundsTight(b, c);
    var va, vb := Field(PlaceBounds(a).value, c), Field(PlaceBounds(b).value, c);
    if va.None? {
      forall i | 0 <= i < |b| ensures !Included(b[i]) {
        assert b[i] in a;
      }
    } else {
      var i :| 0 <= i < |a| && Included(a[i]) && CornerOf(a[i], c) == va.value;
      assert a[i] in b;
      var j :| 0 <= j < |b| && b[j] == a[i];
      var k :| 0 <= k < |b| && Included(b[k]) && CornerOf(b[k], c) == vb.value;
      assert b[k] in a;
      var l :| 0 <= l < |a| && a[l] == b[k];
    }
  }

  /**
   * The union loop of lines 9-25: fold the place rules' bounding boxes into
   * one set of bounds, raising when an included rule's ring is too short.
   */
  method UnionPlaceBounds(rules: seq<PlaceRule>) returns (result: Result<Bounds>)
    ensures result == PlaceBounds(rules)
  {
    var totalBounds := NULL_BOUNDS;
    var i := 0;
    while i < |rules|
      invariant 0 <= i <= |rules|
      invariant PlaceBounds(rules[..i]) == Ok(totalBounds)
    {
      var r := rules[i];
      assert rules[..i + 1][..i] == rules[..i];
      if r.place.Some? && r.place.value.boundingBox.Some? {
        var coordinates := r.place.value.boundingBox.value.coordinates;
        if |coordinates| == 0 || |coordinates[0]| < 3 {
          ErrorPersists(rules, i + 1);
          return Err(TYPE_ERROR);
        }
        var coords := coordinates[0];
        totalBounds := totalBounds.(swlat :=
          if totalBounds.swlat.None? then Some(coords[0].lat) else Some(Min(totalBounds.swlat.value, coords[0].lat)));
        totalBounds := totalBounds.(swlng :=
          if totalBounds.swlng.None? then Some(coords[0].lng) else Some(Min(totalBounds.swlng.value, coords[0].lng)));
        totalBounds := totalBounds.(nelat :=
          if totalBounds.nelat.None? then Some(coords[1].lat) else Some(Max(totalBounds.nelat.value, coords[1].lat)));
        totalBounds := totalBounds.(nelng :=
          if totalBounds.nelng.None? then Some(coords[2].lng) else Some(Max(totalBounds.nelng.value, coords[2].lng)));
      }
      i := i + 1;
    }
    assert rules[..i] == rules;
    result := Ok(totalBounds);
  }

  /** Once the loop has raised, the whole union has. */
  lemma {:induction false} ErrorPersists(rules: seq<PlaceRule>, k: nat)
    requires k <= |rules| && PlaceBounds(rules[..k]).Err?
    ensures PlaceBounds(rules) == PlaceBounds(rules[..k])
    decreases |rules| - k
  {
    if k < |rules| {
      assert rules[..k + 1][..k] == rules[..k];
      ErrorPersists(rules, k + 1);
    } else {
      assert rules[..k] == rules;
    }
  }

  /** `_.map( project.placeRules, "operand_id" )`, written as `join` writes numbers. */
  function OperandIds(rules: seq<PlaceRule>): (ids: seq<string>)
    ensures |ids| == |rules|
    ensures forall i :: 0 <= i < |rules| ==> ids[i] == Decimal(rules[i].operandId)
    decreases |rules|
  {
    if rules == [] then [] else [Decimal(rules[0].operandId)] + OperandIds(rules[1..])
  }

  /** The `placeLayers` prop (lines 44-49). */
  function PlaceLayers(rules: seq<PlaceRule>): (layer: Option<PlaceLayer>)
    ensures layer.None? <==> rules == []
    ensures layer.Some? ==> layer.value.name == "Places" && Split(layer.value.id, ',') == OperandIds(rules)
  {
    if rules == [] then None
    else
      var ids := OperandIds(rules);
      DecimalsHaveNoComma(ids);
      SplitJoin(ids, ',');
      Some(PlaceLayer(Join(ids, ','), "Places"))
  }

  lemma DecimalsHaveNoComma(ids: seq<string>)
    requires forall i :: 0 <= i < |ids| ==> forall j :: 0 <= j < |ids[i]| ==> '0' <= ids[i][j] <= '9'
    ensures forall i :: 0 <= i < |ids| ==> ',' !in ids[i]
  {
  }

  /**
   * The component's title and map props (lines 6-25 and 44-54): recent
   * observation bounds win unchanged; without them, place rules give the
   * title "map" and the union of their boxes; a raised TypeError is `Err`.
   */
  method Props(project: Project) returns (result: Result<MapProps>)
    ensures project.recentBounds.Some? ==>
      var b := project.recentBounds.value;
      result == Ok(MapProps("map_of_observations", PlaceLayers(project.placeRules), b.swlng, b.swlat, b.nelng, b.nelat))
    ensures project.recentBounds.None? && project.placeRules == [] ==>
      result == Ok(MapProps("map_of_observations", None, None, None, None, None))
    ensures project.recentBounds.None? && project.placeRules != [] ==>
      (result.Ok? <==> AllReadable(project.placeRules)) &&
      (result.Err? ==> result.error == TYPE_ERROR) &&
      (result.Ok? ==>
        PlaceBounds(project.placeRules).Ok? &&
        var b := PlaceBounds(project.placeRules).value;
        result.value == MapProps("map", PlaceLayers(project.placeRules), b.swlng, b.swlat, b.nelng, b.nelat))
  {
    var title := "map_of_observations";
    var totalBounds := project.recentBounds;
    if totalBounds.None? && project.placeRules != [] {
      title := "map";
      var union := UnionPlaceBounds(project.placeRules);
      PlaceBoundsOkIff(project.placeRules);
      if union.Err? {
        return Err(union.error);
      }
      totalBounds := Some(union.value);
    }
    var layers := PlaceLayers(project.placeRules);
    result := match totalBounds
      case None => Ok(MapProps(title, layers, None, None, None, None))
      case Some(b) => Ok(MapProps(title, layers, b.swlng, b.swlat, b.nelng, b.nelat));
  }
}
