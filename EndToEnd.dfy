/** The generator's output as the renderer draws it: the backend's objects
    travel as JSON to `SceneObjects`, which draws one node for each. */
module EndToEnd {
  import opened Strings
  import opened SceneJson
  import opened SceneGenerator
  import opened SceneObjects
  import InputPanel

  /** A generated object as the frontend receives it: `type`, `position`,
      `color` and `scale` present, no `id`, `model` or `fileName`. */
  function ToDescriptor(o: SceneObject): Descriptor {
    Descriptor(None, Some(o.kind), None, None, Some(o.position), Some(o.color), Some(o.scale))
  }

  function Descriptors(objects: seq<SceneObject>): (ds: seq<Descriptor>)
    ensures |ds| == |objects|
    ensures forall k :: 0 <= k < |objects| ==> ds[k] == ToDescriptor(objects[k])
  {
    seq(|objects|, k requires 0 <= k < |objects| => ToDescriptor(objects[k]))
  }

  /** The primitive each shape type of the generator's table is drawn as, by rank. */
  const PrimitiveByRank: seq<Primitive> := [Box, Sphere, Cylinder, Cone]

  /** Every generated scene renders as two to five nodes: one per generated
      object, then the ground. No generated object hits the renderer's
      fallbacks: each is drawn as its own shape type's primitive, at the
      generated position, in the generated colour and at the generated scale. */
  lemma GeneratedSceneRenders(text: string)
    ensures var objs := ExtractedObjects(text);
            var nodes := RenderScene(Descriptors(objs));
            && 2 <= |nodes| <= 5 && nodes[|objs|] == Ground
            && forall k :: 0 <= k < |objs| ==>
                 && 0 <= ShapeRank(objs[k].kind) < 4
                 && nodes[k].primitive == PrimitiveByRank[ShapeRank(objs[k].kind)]
                 && nodes[k].position == objs[k].position
                 && nodes[k].material.color == objs[k].color
                 && nodes[k].args[0] == objs[k].scale
  {
    var objs := ExtractedObjects(text);
    var nodes := RenderScene(Descriptors(objs));
    ObjectsInTableOrder(text);
    forall k | 0 <= k < |objs|
      ensures nodes[k].primitive == PrimitiveByRank[ShapeRank(objs[k].kind)]
      ensures nodes[k].args[0] == objs[k].scale
    {
      assert nodes[k] == RenderObject(ToDescriptor(objs[k]), k);
      PrimitiveSizedByScale(ToDescriptor(objs[k]), k);
    }
  }

  // The prompt "Create a red cube", worked through the generator. Each
  // keyword that does not occur holds a letter the prompt lacks, except
  // "tube", whose letters all occur but never as "tu".

  /** The first example button's prompt, "Create a red cube". */
  const RedCubePrompt: string := InputPanel.ExamplePrompts[0]
  const RedCubeAlphabet: set<char> := {'c', 'r', 'e', 'a', 't', ' ', 'd', 'u', 'b'}

  /** Lower-cased, the prompt is written in nine characters. */
  lemma RedCubeLetters()
    ensures forall i :: 0 <= i < |ToLower(RedCubePrompt)| ==> ToLower(RedCubePrompt)[i] in RedCubeAlphabet
  {
  }

  /** A text in those characters holds no position word: the position is
      the default `[0, 1, 0]`. */
  lemma RedCubePosition(lower: string, k: nat)
    requires forall i :: 0 <= i < |lower| ==> lower[i] in RedCubeAlphabet
    ensures ExtractPosition(lower, k) == DefaultPosition
  {
    var abc := RedCubeAlphabet;
    OutsideAlphabetExcludes(lower, abc, "left", 0);
    OutsideAlphabetExcludes(lower, abc, "right", 1);
    OutsideAlphabetExcludes(lower, abc, "next to", 0);
    OutsideAlphabetExcludes(lower, abc, "beside", 2);
    OutsideAlphabetExcludes(lower, abc, "behind", 2);
    OutsideAlphabetExcludes(lower, abc, "front", 0);
    OutsideAlphabetExcludes(lower, abc, "above", 2);
    OutsideAlphabetExcludes(lower, abc, "top", 1);
    OutsideAlphabetExcludes(lower, abc, "ground", 0);
    OutsideAlphabetExcludes(lower, abc, "floor", 0);
  }

  /** ... no size word: the scale is 1. */
  lemma RedCubeScale(lower: string)
    requires forall i :: 0 <= i < |lower| ==> lower[i] in RedCubeAlphabet
    ensures ScaleFor(lower) == 1.0
  {
    var abc := RedCubeAlphabet;
    OutsideAlphabetExcludes(lower, abc, "small", 0);
    OutsideAlphabetExcludes(lower, abc, "tiny", 1);
    OutsideAlphabetExcludes(lower, abc, "large", 0);
    OutsideAlphabetExcludes(lower, abc, "big", 1);
    OutsideAlphabetExcludes(lower, abc, "huge", 0);
    OutsideAlphabetExcludes(lower, abc, "medium", 0);
    assert NoHit(SizeKeywords, lower);
  }

  /** Any text with "red" in it is red: "red" heads the colour table. */
  lemma RedWins(lower: string)
    requires Contains(lower, "red")
    ensures ColorFor(lower) == "#ff0000"
  {
    assert FirstHitAt(ColorMap, lower, 0);
    FirstHitValue(ColorMap, lower, DefaultColor, 0);
  }

  /** A text in those characters holds no keyword of the sphere entry, ... */
  lemma RedCubeNoSphere(lower: string)
    requires forall i :: 0 <= i < |lower| ==> lower[i] in RedCubeAlphabet
    ensures !AnyOf(lower, ShapeKeywords[1].1)
  {
    var abc := RedCubeAlphabet;
    OutsideAlphabetExcludes(lower, abc, "sphere", 0);
    OutsideAlphabetExcludes(lower, abc, "ball", 2);
    OutsideAlphabetExcludes(lower, abc, "orb", 0);
    OutsideAlphabetExcludes(lower, abc, "globe", 0);
  }

  /** ... of the cylinder entry, when "t" is never followed by "u", ... */
  lemma RedCubeNoCylinder(lower: string)
    requires forall i :: 0 <= i < |lower| ==> lower[i] in RedCubeAlphabet
    requires forall i :: 0 <= i < |lower| - 1 ==> lower[i] != 't' || lower[i + 1] != 'u'
    ensures !AnyOf(lower, ShapeKeywords[2].1)
  {
    var abc := RedCubeAlphabet;
    MissingPairExcludes(lower, "tube", 0);
    OutsideAlphabetExcludes(lower, abc, "cylinder", 1);
    OutsideAlphabetExcludes(lower, abc, "pipe", 0);
  }

  /** ... and of the cone entry. */
  lemma RedCubeNoCone(lower: string)
    requires forall i :: 0 <= i < |lower| ==> lower[i] in RedCubeAlphabet
    ensures !AnyOf(lower, ShapeKeywords[3].1)
  {
    var abc := RedCubeAlphabet;
    OutsideAlphabetExcludes(lower, abc, "cone", 1);
    OutsideAlphabetExcludes(lower, abc, "pyramid", 0);
  }

  /** When only the first entry's keywords occur, only the cube is found. */
  lemma OnlyCubeFound(lower: string)
    requires AnyOf(lower, ShapeKeywords[0].1)
    requires !AnyOf(lower, ShapeKeywords[1].1)
    requires !AnyOf(lower, ShapeKeywords[2].1)
    requires !AnyOf(lower, ShapeKeywords[3].1)
    ensures ShapesFound(ShapeKeywords, lower) == ["cube"]
  {
    var sk := ShapeKeywords;
    assert sk[..1][..0] == [];
    assert ShapesFound(sk[..1], lower) == ["cube"];
    assert sk[..2][..1] == sk[..1];
    assert ShapesFound(sk[..2], lower) == ["cube"];
    assert sk[..3][..2] == sk[..2];
    assert ShapesFound(sk[..3], lower) == ["cube"];
    assert sk[..3] == sk[..|sk| - 1];
  }

  /** ... and no lighting or environment word. */
  lemma RedCubeLightAndEnvironment(text: string)
    requires forall i :: 0 <= i < |ToLower(text)| ==> ToLower(text)[i] in RedCubeAlphabet
    ensures LightingFor(text) == Lighting("ambient", 1.0)
    ensures EnvironmentFor(text) == "default"
  {
    var lower, abc := ToLower(text), RedCubeAlphabet;
    OutsideAlphabetExcludes(lower, abc, "dark", 3);
    OutsideAlphabetExcludes(lower, abc, "bright", 2);
    OutsideAlphabetExcludes(lower, abc, "sunny", 0);
    OutsideAlphabetExcludes(lower, abc, "forest", 0);
    OutsideAlphabetExcludes(lower, abc, "sunset", 0);
    OutsideAlphabetExcludes(lower, abc, "evening", 1);
    OutsideAlphabetExcludes(lower, abc, "night", 0);
  }

  /** "Create a red cube" keeps the default ambient light of intensity 1 and
      the default environment. */
  lemma RedCubeLighting()
    ensures LightingFor(RedCubePrompt) == Lighting("ambient", 1.0)
    ensures EnvironmentFor(RedCubePrompt) == "default"
  {
    RedCubeLetters();
    RedCubeLightAndEnvironment(RedCubePrompt);
  }

  /** "Create a red cube" yields one red cube of scale 1 at `[0, 1, 0]`. */
  lemma RedCubeObjects()
    ensures ExtractedObjects(RedCubePrompt) == [SceneObject("cube", Vec3(0.0, 1.0, 0.0), "#ff0000", 1.0)]
  {
    var lower := ToLower(RedCubePrompt);
    RedCubeLetters();
    assert OccursAt(lower, "cube", 13);
    ContainsAt(lower, "cube", 13);
    assert ShapeKeywords[0].1[0] == "cube";
    assert AnyOf(lower, ShapeKeywords[0].1);
    RedCubeNoSphere(lower);
    RedCubeNoCylinder(lower);
    RedCubeNoCone(lower);
    OnlyCubeFound(lower);
    assert OccursAt(lower, "red", 9);
    ContainsAt(lower, "red", 9);
    RedWins(lower);
    RedCubeScale(lower);
    RedCubePosition(lower, 0);
    assert ObjectsFrom(lower, ["cube"]) == [SceneObject("cube", Vec3(0.0, 1.0, 0.0), "#ff0000", 1.0)];
  }

  /** A lone generated red cube of scale 1 at `[0, 1, 0]` is drawn as one
      red unit box above the ground. */
  lemma RedCubeDrawn(objects: seq<SceneObject>)
    requires objects == [SceneObject("cube", Vec3(0.0, 1.0, 0.0), "#ff0000", 1.0)]
    ensures RenderScene(Descriptors(objects))
            == [ObjectNode(0, Box, [1.0, 1.0, 1.0], Vec3(0.0, 1.0, 0.0), true, true,
                           StandardMaterial("#ff0000", 0.3, 0.4, false, 1.0)),
                Ground]
  {
    assert Descriptors(objects) == [ToDescriptor(objects[0])];
  }

  /** "Create a red cube", end to end: drawn as one red unit box above the ground. */
  lemma RedCubeRendered()
    ensures RenderScene(Descriptors(ExtractedObjects(RedCubePrompt)))
            == [ObjectNode(0, Box, [1.0, 1.0, 1.0], Vec3(0.0, 1.0, 0.0), true, true,
                           StandardMaterial("#ff0000", 0.3, 0.4, false, 1.0)),
                Ground]
  {
    RedCubeObjects();
    RedCubeDrawn(ExtractedObjects(RedCubePrompt));
  }
}
