/** The backend's rule-based text-to-scene generator (backend/app.py): keyword
    tables, object extraction, position hints, lighting and environment, and
    the empty-text guard of the `process-text` endpoint.

    Every keyword test is Python's substring test `word in text` on the
    lower-cased text, so "bright" also matches "right" and "stop" matches "top". */
module SceneGenerator {
  import opened Strings
  import opened SceneJson

  /** One generated object, the dict `{'type', 'position', 'color', 'scale'}`;
      `kind` holds the `type` entry. */
  datatype SceneObject = SceneObject(kind: string, position: Vec3, color: string, scale: real)

  datatype Lighting = Lighting(kind: string, intensity: real)

  datatype SceneData = SceneData(objects: seq<SceneObject>, lighting: Lighting, environment: string)

  /** The value `generate_scene` returns: `{'sceneData': ...}`. */
  datatype GeneratedScene = GeneratedScene(sceneData: SceneData)

  /** The endpoint's answer: the generated scene, or an error message with an
      HTTP status code. */
  datatype ApiResponse = Ok(body: GeneratedScene) | Error(message: string, status: nat)

  // The tables built by `SceneGenerator.__init__`. Python dicts iterate in
  // insertion order, so each is a sequence of pairs in that order.

  const ShapeKeywords: seq<(string, seq<string>)> := [
    ("cube", ["cube", "box", "square"]),
    ("sphere", ["sphere", "ball", "orb", "globe"]),
    ("cylinder", ["cylinder", "tube", "pipe"]),
    ("cone", ["cone", "pyramid"])
  ]

  const ColorMap: seq<(string, string)> := [
    ("red", "#ff0000"),
    ("blue", "#0000ff"),
    ("green", "#00ff00"),
    ("yellow", "#ffff00"),
    ("orange", "#ff8800"),
    ("purple", "#8800ff"),
    ("pink", "#ff00ff"),
    ("white", "#ffffff"),
    ("black", "#000000"),
    ("cyan", "#00ffff"),
    ("magenta", "#ff00ff")
  ]

  const SizeKeywords: seq<(string, real)> := [
    ("small", 0.5),
    ("tiny", 0.3),
    ("large", 2.0),
    ("big", 2.0),
    ("huge", 3.0),
    ("medium", 1.0)
  ]

  const DefaultScale: real := 1.0

  /** The object produced when no shape keyword occurs. */
  const DefaultCube: SceneObject := SceneObject("cube", DefaultPosition, DefaultColor, DefaultScale)

  // ---------------------------------------------------------------------------
  // First match in an ordered keyword table

  /** Entry `i` is the first entry of `table` whose word occurs in `text`. */
  predicate FirstHitAt<V>(table: seq<(string, V)>, text: string, i: int) {
    0 <= i < |table| && Contains(text, table[i].0)
    && forall j :: 0 <= j < i ==> !Contains(text, table[j].0)
  }

  /** No word of `table` occurs in `text`. */
  predicate NoHit<V>(table: seq<(string, V)>, text: string) {
    forall j :: 0 <= j < |table| ==> !Contains(text, table[j].0)
  }

  /** The value of the first entry, in table order, whose word occurs in
      `text`, or `default` when none does: what a Python loop over a dict's
      items that assigns and then `break`s on the first `word in text`
      computes, and what an `if`/`elif` chain of keyword tests computes. */
  function FirstHit<V>(table: seq<(string, V)>, text: string, default: V): (r: V)
    ensures (exists i :: FirstHitAt(table, text, i) && r == table[i].1)
            || (NoHit(table, text) && r == default)
    decreases |table|
  {
    if table == [] then default
    else if Contains(text, table[0].0) then
      assert FirstHitAt(table, text, 0);
      table[0].1
    else
      var rest := FirstHit(table[1..], text, default);
      assert forall i :: FirstHitAt(table[1..], text, i) ==> FirstHitAt(table, text, i + 1);
      assert NoHit(table[1..], text) ==> NoHit(table, text);
      rest
  }

  /** The loop `for word, value in table.items(): if word in text: r = value;
      break`, starting from `r = default`: the colour and size loops of
      `extract_objects`. */
  method FindFirst<V>(table: seq<(string, V)>, text: string, default: V) returns (r: V)
    ensures r == FirstHit(table, text, default)
  {
    r := default;
    var i := 0;
    while i < |table|
      invariant 0 <= i <= |table|
      invariant r == default
      invariant forall j :: 0 <= j < i ==> !Contains(text, table[j].0)
    {
      if Contains(text, table[i].0) {
        r := table[i].1;
        FirstHitValue(table, text, default, i);
        return;
      }
      i := i + 1;
    }
  }

  /** At most one entry is the first hit. */
  lemma FirstHitAtUnique<V>(table: seq<(string, V)>, text: string, i: int, j: int)
    requires FirstHitAt(table, text, i) && FirstHitAt(table, text, j)
    ensures i == j
  {
  }

  /** The value of `FirstHit` is the value at the first hit, and the default
      exactly when nothing hits. */
  lemma FirstHitValue<V>(table: seq<(string, V)>, text: string, default: V, i: int)
    requires FirstHitAt(table, text, i)
    ensures FirstHit(table, text, default) == table[i].1
  {
    var r := FirstHit(table, text, default);
    if !NoHit(table, text) {
      var k :| FirstHitAt(table, text, k) && r == table[k].1;
      FirstHitAtUnique(table, text, i, k);
    }
  }

  // ---------------------------------------------------------------------------
  // Shapes

  /** Some keyword of `keywords` occurs in `text`. */
  predicate AnyOf(text: string, keywords: seq<string>) {
    exists m :: 0 <= m < |keywords| && Contains(text, keywords[m])
  }

  /** The shape types of `table`, in table order, for which some keyword
      occurs in `text`: the types `extract_objects` creates objects for. */
  function ShapesFound(table: seq<(string, seq<string>)>, text: string): (r: seq<string>)
    ensures |r| <= |table|
  {
    if table == [] then []
    else
      var last := table[|table| - 1];
      ShapesFound(table[..|table| - 1], text) + (if AnyOf(text, last.1) then [last.0] else [])
  }

  /** `ShapesFound` picks, in increasing table order, exactly the entries with
      an occurring keyword: `idx[k]` is the table position of the `k`-th type
      found. */
  lemma {:induction false} ShapesFoundIndices(table: seq<(string, seq<string>)>, text: string)
    returns (idx: seq<int>)
    ensures |idx| == |ShapesFound(table, text)|
    ensures forall k :: 0 <= k < |idx| ==> 0 <= idx[k] < |table|
    ensures forall k :: 0 <= k < |idx| ==>
              ShapesFound(table, text)[k] == table[idx[k]].0 && AnyOf(text, table[idx[k]].1)
    ensures forall a, b :: 0 <= a < b < |idx| ==> idx[a] < idx[b]
    ensures forall s :: 0 <= s < |table| && AnyOf(text, table[s].1) ==> s in idx
  {
    if table == [] {
      idx := [];
    } else {
      var n := |table| - 1;
      var init := table[..n];
      var prev := ShapesFoundIndices(init, text);
      var found := ShapesFound(table, text);
      assert found == ShapesFound(init, text) + (if AnyOf(text, table[n].1) then [table[n].0] else []);
      idx := prev + (if AnyOf(text, table[n].1) then [n] else []);
      forall s | 0 <= s < |table| && AnyOf(text, table[s].1) ensures s in idx {
        if s < n {
          assert init[s] == table[s];
          assert s in prev;
        }
      }
    }
  }

  // ---------------------------------------------------------------------------
  // Positions

  /** `_extract_position(text, index)`: the position hint for the object that
      is appended as number `index` (0-based). */
  function ExtractPosition(text: string, index: nat): (p: Vec3)
    ensures p.x == 0.0 || p.x == 2.0 * index as real || p.x == -2.0 * (index as real + 1.0) || p.x == 2.0 * (index as real + 1.0)
    ensures p.y == 3.0 || p.y == 0.5 || p.y == 1.0
    ensures p.z == 0.0 || p.z == -2.0 * (index as real + 1.0) || p.z == 2.0 * (index as real + 1.0)
  {
    var n := index as real;
    var x0 := if Contains(text, "left") then -2.0 * (n + 1.0)
              else if Contains(text, "right") then 2.0 * (n + 1.0)
              else 0.0;
    var x := if Contains(text, "next to") || Contains(text, "beside") then 2.0 * n else x0;
    var z := if Contains(text, "next to") || Contains(text, "beside") then 0.0
             else if Contains(text, "behind") then -2.0 * (n + 1.0)
             else if Contains(text, "front") then 2.0 * (n + 1.0)
             else 0.0;
    var y := if Contains(text, "above") || Contains(text, "top") then 3.0
             else if Contains(text, "ground") || Contains(text, "floor") then 0.5
             else 1.0;
    Vec3(x, y, z)
  }

  /** The side placement as an ordered keyword table: "left" before "right". */
  function SideTable(index: nat): seq<(string, real)> {
    [("left", -2.0 * (index as real + 1.0)), ("right", 2.0 * (index as real + 1.0))]
  }

  /** The depth placement as an ordered keyword table: "behind" before "front". */
  function DepthTable(index: nat): seq<(string, real)> {
    [("behind", -2.0 * (index as real + 1.0)), ("front", 2.0 * (index as real + 1.0))]
  }

  /** The height placement as an ordered keyword table. */
  const HeightTable: seq<(string, real)> := [("above", 3.0), ("top", 3.0), ("ground", 0.5), ("floor", 0.5)]

  /** "next to" or "beside" occurs. */
  predicate Adjacent(text: string) {
    Contains(text, "next to") || Contains(text, "beside")
  }

  /** The position rules are first-match tables: the height is the first of
      above/top/ground/floor that occurs; "next to"/"beside" overrides both the
      side and the depth rule, placing object `k` at `x = 2k, z = 0`;
      otherwise the side and the depth are each the first hit of their table,
      0 when nothing hits. */
  lemma PositionIsFirstMatch(text: string, index: nat)
    ensures ExtractPosition(text, index).y == FirstHit(HeightTable, text, 1.0)
    ensures Adjacent(text) ==>
              ExtractPosition(text, index).x == 2.0 * index as real && ExtractPosition(text, index).z == 0.0
    ensures !Adjacent(text) ==>
              ExtractPosition(text, index).x == FirstHit(SideTable(index), text, 0.0)
              && ExtractPosition(text, index).z == FirstHit(DepthTable(index), text, 0.0)
  {
    var h := HeightTable;
    assert h[1..][1..][1..][1..] == [];
    var sd, dp := SideTable(index), DepthTable(index);
    assert sd[1..][1..] == [] && dp[1..][1..] == [];
  }

  /** The height does not depend on the object's index. */
  lemma HeightIndependentOfIndex(text: string, i: nat, j: nat)
    ensures ExtractPosition(text, i).y == ExtractPosition(text, j).y
  {
  }

  /** With a side word ("left", "right", "next to", "beside") in the text,
      objects with different indices get different `x`: they are spread along
      the x axis. */
  lemma SideWordsSpreadObjects(text: string, i: nat, j: nat)
    requires i != j
    requires Contains(text, "left") || Contains(text, "right") || Adjacent(text)
    ensures ExtractPosition(text, i).x != ExtractPosition(text, j).x
  {
  }

  /** Substring matching, not word matching: "bright" places objects on the
      right (unless "left" or a "next to"/"beside" hint wins) and also
      brightens the light (unless "dark" wins). */
  lemma BrightMatchesRight(text: string, k: nat)
    requires Contains(ToLower(text), "bright")
    requires !Contains(ToLower(text), "left") && !Adjacent(ToLower(text)) && !Contains(ToLower(text), "dark")
    ensures ExtractPosition(ToLower(text), k).x == 2.0 * (k as real + 1.0)
    ensures LightingFor(text).intensity == 1.5
  {
    assert OccursAt("bright", "right", 1);
    ContainsAt("bright", "right", 1);
    ContainsTransitive(ToLower(text), "bright", "right");
  }

  /** Likewise "stop" contains "top": it lifts every object to `y = 3`. */
  lemma StopMatchesTop(text: string, k: nat)
    requires Contains(ToLower(text), "stop")
    ensures ExtractPosition(ToLower(text), k).y == 3.0
  {
    assert OccursAt("stop", "top", 1);
    ContainsAt("stop", "top", 1);
    ContainsTransitive(ToLower(text), "stop", "top");
  }

  /** Without any side or depth word, every object is placed at `x = 0, z = 0`:
      several objects then share one spot. */
  lemma NoHintsStackObjects(text: string, i: nat)
    requires !Contains(text, "left") && !Contains(text, "right") && !Adjacent(text)
    requires !Contains(text, "behind") && !Contains(text, "front")
    ensures ExtractPosition(text, i).x == 0.0 && ExtractPosition(text, i).z == 0.0
  {
  }

  // ---------------------------------------------------------------------------
  // Objects

  /** The colour every found object gets. */
  function ColorFor(lower: string): string {
    FirstHit(ColorMap, lower, DefaultColor)
  }

  /** The scale every found object gets. */
  function ScaleFor(lower: string): real {
    FirstHit(SizeKeywords, lower, DefaultScale)
  }

  /** The object built for found shape type `shape` when `k` objects are
      already there. */
  function FoundObject(lower: string, shape: string, k: nat): SceneObject {
    SceneObject(shape, ExtractPosition(lower, k), ColorFor(lower), ScaleFor(lower))
  }

  /** `f` applied to each element of `xs` together with its index. */
  function MapIndexed<T, U>(xs: seq<T>, f: (T, nat) -> U): (r: seq<U>)
    ensures |r| == |xs|
    ensures forall k :: 0 <= k < |xs| ==> r[k] == f(xs[k], k)
  {
    seq(|xs|, k requires 0 <= k < |xs| => f(xs[k], k))
  }

  /** Mapping with indices commutes with appending one element. */
  lemma MapIndexedAppend<T, U>(xs: seq<T>, x: T, f: (T, nat) -> U)
    ensures MapIndexed(xs + [x], f) == MapIndexed(xs, f) + [f(x, |xs|)]
  {
    var longer, target := MapIndexed(xs + [x], f), MapIndexed(xs, f) + [f(x, |xs|)];
    forall k | 0 <= k < |longer| ensures longer[k] == target[k] {
      if k < |xs| {
        assert (xs + [x])[k] == xs[k];
      }
    }
  }

  /** The objects built for the found shape types `found`, the `k`-th one
      placed by `_extract_position(lower, k)`. */
  function ObjectsFrom(lower: string, found: seq<string>): (r: seq<SceneObject>)
    ensures |r| == |found|
    ensures forall k :: 0 <= k < |found| ==> r[k] == FoundObject(lower, found[k], k)
  {
    MapIndexed(found, (shape, k) => FoundObject(lower, shape, k))
  }

  /** What `extract_objects(text)` returns: one object per shape type with an
      occurring keyword, in table order, or the default cube when there is none. */
  function ExtractedObjects(text: string): (r: seq<SceneObject>)
    ensures 1 <= |r| <= |ShapeKeywords|
  {
    var lower := ToLower(text);
    var found := ShapesFound(ShapeKeywords, lower);
    if found == [] then [DefaultCube] else ObjectsFrom(lower, found)
  }

  /** `extract_objects`: for every shape type in table order, the first of its
      keywords that occurs creates one object (then `break`); the object's
      colour and scale come from the first occurring colour and size words,
      its position from `_extract_position` with the number of objects so far.
      Without any object, one default cube. */
  method ExtractObjects(text: string) returns (objects: seq<SceneObject>)
    ensures objects == ExtractedObjects(text)
    ensures 1 <= |objects| <= |ShapeKeywords|
  {
    var lower := ToLower(text);
    objects := [];
    var s := 0;
    while s < |ShapeKeywords|
      invariant 0 <= s <= |ShapeKeywords|
      invariant objects == ObjectsFrom(lower, ShapesFound(ShapeKeywords[..s], lower))
    {
      var shapeType := ShapeKeywords[s].0;
      var keywords := ShapeKeywords[s].1;
      ghost var before := objects;
      ghost var hit := false;
      var m := 0;
      while m < |keywords|
        invariant 0 <= m <= |keywords|
        invariant objects == before && !hit
        invariant forall j :: 0 <= j < m ==> !Contains(lower, keywords[j])
      {
        if Contains(lower, keywords[m]) {
          var color := FindFirst(ColorMap, lower, DefaultColor);
          var scale := FindFirst(SizeKeywords, lower, DefaultScale);
          var obj := SceneObject(shapeType, ExtractPosition(lower, |objects|), color, scale);
          assert obj == FoundObject(lower, shapeType, |objects|);
          FoundStep(ShapeKeywords, lower, s, objects, m);
          objects := objects + [obj];
          hit := true;
          break;
        }
        m := m + 1;
      }
      if !hit {
        MissedStep(ShapeKeywords, lower, s);
      }
      s := s + 1;
    }
    assert ShapeKeywords[..s] == ShapeKeywords;
    if objects == [] {
      objects := [DefaultCube];
    }
  }

  /** One step of the outer loop when entry `s` has an occurring keyword: its
      object is appended, placed by the number of objects so far. */
  lemma FoundStep(table: seq<(string, seq<string>)>, lower: string, s: int, objects: seq<SceneObject>, m: int)
    requires 0 <= s < |table| && 0 <= m < |table[s].1| && Contains(lower, table[s].1[m])
    requires objects == ObjectsFrom(lower, ShapesFound(table[..s], lower))
    ensures objects + [FoundObject(lower, table[s].0, |objects|)] == ObjectsFrom(lower, ShapesFound(table[..s + 1], lower))
  {
    assert table[..s + 1][..s] == table[..s];
    AppendFound(lower, ShapesFound(table[..s], lower), table[s].0);
  }

  /** One step of the outer loop when no keyword of entry `s` occurs: nothing
      is appended. */
  lemma MissedStep(table: seq<(string, seq<string>)>, lower: string, s: int)
    requires 0 <= s < |table|
    requires forall j :: 0 <= j < |table[s].1| ==> !Contains(lower, table[s].1[j])
    ensures ShapesFound(table[..s + 1], lower) == ShapesFound(table[..s], lower)
  {
    assert table[..s + 1][..s] == table[..s];
  }

  /** Appending a found type appends its object, placed by the number of
      objects already there. */
  lemma AppendFound(lower: string, found: seq<string>, shape: string)
    ensures ObjectsFrom(lower, found + [shape]) == ObjectsFrom(lower, found) + [FoundObject(lower, shape, |found|)]
  {
    MapIndexedAppend(found, shape, (shape, k) => FoundObject(lower, shape, k));
  }

  // ---------------------------------------------------------------------------
  // Properties of the extracted objects

  /** The rank of a shape type in the shape table, the order objects come out in. */
  function ShapeRank(kind: string): int {
    if kind == "cube" then 0
    else if kind == "sphere" then 1
    else if kind == "cylinder" then 2
    else if kind == "cone" then 3
    else -1
  }

  /** The rank of a table entry's type is its position in the table. */
  lemma RankOfEntry(s: int)
    requires 0 <= s < |ShapeKeywords|
    ensures ShapeRank(ShapeKeywords[s].0) == s
  {
  }

  /** The kinds of the extracted objects: the found types, or the cube. */
  lemma ExtractedKinds(text: string)
    ensures var found := ShapesFound(ShapeKeywords, ToLower(text));
            && |ExtractedObjects(text)| == (if found == [] then 1 else |found|)
            && (found == [] ==> ExtractedObjects(text) == [DefaultCube])
            && forall k :: 0 <= k < |found| ==> ExtractedObjects(text)[k].kind == found[k]
  {
  }

  /** The objects found are between one and four; each is of one of the four
      shape types; and their types come in strictly increasing table order
      (cube, sphere, cylinder, cone), so no type appears twice. */
  lemma ObjectsInTableOrder(text: string)
    ensures 1 <= |ExtractedObjects(text)| <= 4
    ensures forall k :: 0 <= k < |ExtractedObjects(text)| ==> 0 <= ShapeRank(ExtractedObjects(text)[k].kind) < 4
    ensures forall a, b :: 0 <= a < b < |ExtractedObjects(text)| ==>
              ShapeRank(ExtractedObjects(text)[a].kind) < ShapeRank(ExtractedObjects(text)[b].kind)
  {
    var lower := ToLower(text);
    var found := ShapesFound(ShapeKeywords, lower);
    var objs := ExtractedObjects(text);
    var idx := ShapesFoundIndices(ShapeKeywords, lower);
    ExtractedKinds(text);
    if found != [] {
      forall k | 0 <= k < |found| ensures ShapeRank(objs[k].kind) == idx[k] {
        RankOfEntry(idx[k]);
      }
    }
  }

  /** When some shape keyword occurs, a shape type has an object exactly when
      one of its keywords occurs in the lower-cased text. */
  lemma ShapeFoundIff(text: string, s: int)
    requires 0 <= s < |ShapeKeywords|
    requires ShapesFound(ShapeKeywords, ToLower(text)) != []
    ensures (exists k :: 0 <= k < |ExtractedObjects(text)| && ExtractedObjects(text)[k].kind == ShapeKeywords[s].0)
            <==> AnyOf(ToLower(text), ShapeKeywords[s].1)
  {
    var lower := ToLower(text);
    var found := ShapesFound(ShapeKeywords, lower);
    var objs := ExtractedObjects(text);
    var idx := ShapesFoundIndices(ShapeKeywords, lower);
    ExtractedKinds(text);
    if AnyOf(lower, ShapeKeywords[s].1) {
      var k :| 0 <= k < |idx| && idx[k] == s;
      assert objs[k].kind == ShapeKeywords[s].0;
    } else {
      forall k | 0 <= k < |objs| ensures objs[k].kind != ShapeKeywords[s].0 {
        RankOfEntry(idx[k]);
        RankOfEntry(s);
        assert idx[k] != s;
      }
    }
  }

  /** The fallback is taken exactly when no shape keyword occurs, and it is
      the single default cube — position `[0, 1, 0]`, colour `#00ffff`,
      scale 1 — whatever colour and size words the text holds. */
  lemma DefaultCubeIffNoShape(text: string)
    ensures ShapesFound(ShapeKeywords, ToLower(text)) == []
            <==> forall s :: 0 <= s < |ShapeKeywords| ==> !AnyOf(ToLower(text), ShapeKeywords[s].1)
    ensures ShapesFound(ShapeKeywords, ToLower(text)) == [] ==> ExtractedObjects(text) == [DefaultCube]
  {
    var lower := ToLower(text);
    var found := ShapesFound(ShapeKeywords, lower);
    var idx := ShapesFoundIndices(ShapeKeywords, lower);
    if found != [] {
      assert AnyOf(lower, ShapeKeywords[idx[0]].1);
    }
  }

  /** When objects were found, they all share one colour, the first colour
      word in table order that occurs (else `#00ffff`), and one scale, the
      first size word in table order that occurs (else 1); object `k` sits at
      `_extract_position(text, k)`. */
  lemma FoundObjectsShareColorAndScale(text: string, k: int)
    requires ShapesFound(ShapeKeywords, ToLower(text)) != []
    requires 0 <= k < |ExtractedObjects(text)|
    ensures ExtractedObjects(text)[k].color == FirstHit(ColorMap, ToLower(text), DefaultColor)
    ensures ExtractedObjects(text)[k].scale == FirstHit(SizeKeywords, ToLower(text), DefaultScale)
    ensures ExtractedObjects(text)[k].position == ExtractPosition(ToLower(text), k)
  {
  }

  /** Matching ignores case: lower-casing the text first changes nothing. */
  lemma ExtractionIgnoresCase(text: string)
    ensures ExtractedObjects(ToLower(text)) == ExtractedObjects(text)
  {
    ToLowerIdempotent(text);
  }

  // ---------------------------------------------------------------------------
  // Lighting, environment, the scene and the endpoint

  /** The lighting `generate_scene` chooses: always ambient; intensity 0.5 for
      "dark", else 1.5 for "bright" or "sunny", else 1. */
  function LightingFor(text: string): (l: Lighting)
    ensures l.kind == "ambient" && (l.intensity == 0.5 || l.intensity == 1.5 || l.intensity == 1.0)
  {
    var lower := ToLower(text);
    var intensity := if Contains(lower, "dark") then 0.5
                     else if Contains(lower, "bright") || Contains(lower, "sunny") then 1.5
                     else 1.0;
    Lighting("ambient", intensity)
  }

  /** The environment `generate_scene` chooses. */
  function EnvironmentFor(text: string): (e: string)
    ensures e == "forest" || e == "sunset" || e == "night" || e == "default"
  {
    var lower := ToLower(text);
    if Contains(lower, "forest") then "forest"
    else if Contains(lower, "sunset") || Contains(lower, "evening") then "sunset"
    else if Contains(lower, "night") then "night"
    else "default"
  }

  const IntensityTable: seq<(string, real)> := [("dark", 0.5), ("bright", 1.5), ("sunny", 1.5)]

  const EnvironmentTable: seq<(string, string)> :=
    [("forest", "forest"), ("sunset", "sunset"), ("evening", "sunset"), ("night", "night")]

  /** The lighting and environment chains are first-match keyword tables:
      "dark" wins over "bright"/"sunny", "forest" over "sunset"/"evening",
      which win over "night"; the lighting type is always ambient. */
  lemma LightingAndEnvironmentAreFirstMatch(text: string)
    ensures LightingFor(text).kind == "ambient"
    ensures LightingFor(text).intensity == FirstHit(IntensityTable, ToLower(text), 1.0)
    ensures EnvironmentFor(text) == FirstHit(EnvironmentTable, ToLower(text), "default")
  {
    var it, et := IntensityTable, EnvironmentTable;
    assert it[1..][1..][1..] == [];
    assert et[1..][1..][1..][1..] == [];
  }

  /** `generate_scene`: the extracted objects with the chosen lighting and
      environment, wrapped under `sceneData`. */
  method GenerateScene(text: string) returns (r: GeneratedScene)
    ensures r.sceneData.objects == ExtractedObjects(text)
    ensures r.sceneData.lighting == LightingFor(text)
    ensures r.sceneData.environment == EnvironmentFor(text)
  {
    var objects := ExtractObjects(text);
    var lighting := Lighting("ambient", 1.0);
    var lower := ToLower(text);
    if Contains(lower, "dark") {
      lighting := lighting.(intensity := 0.5);
    } else if Contains(lower, "bright") || Contains(lower, "sunny") {
      lighting := lighting.(intensity := 1.5);
    }
    var environment := "default";
    if Contains(lower, "forest") {
      environment := "forest";
    } else if Contains(lower, "sunset") || Contains(lower, "evening") {
      environment := "sunset";
    } else if Contains(lower, "night") {
      environment := "night";
    }
    r := GeneratedScene(SceneData(objects, lighting, environment));
  }

  /** `process_text`: `text` is the request's `text` field (`None` when it is
      missing, which `data.get('text', '')` turns into the empty string). An
      empty text is rejected with status 400 before any generation; any other
      text yields the generated scene. */
  method ProcessText(text: Option<string>) returns (r: ApiResponse)
    ensures r.Error? <==> text == None || text == Some("")
    ensures r.Error? ==> r == Error("No text provided", 400)
    ensures r.Ok? ==> text.Some? && r.body.sceneData
                      == SceneData(ExtractedObjects(text.value), LightingFor(text.value), EnvironmentFor(text.value))
  {
    var t := if text.Some? then text.value else "";
    if t == "" {
      return Error("No text provided", 400);
    }
    var scene := GenerateScene(t);
    r := Ok(scene);
  }
}
