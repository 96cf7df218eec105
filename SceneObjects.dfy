/** The renderer's object dispatch (src/components/SceneObjects.js): every
    scene object becomes one primitive node chosen by its `type`, and the
    scene gets one fixed ground plane after the objects. */
module SceneObjects {
  import opened SceneJson

  datatype Primitive = Box | Sphere | Cylinder | Cone

  /** A `meshStandardMaterial`; `transparent` and `opacity` keep three.js's
      defaults (false, 1) unless the markup sets them. */
  datatype Material = StandardMaterial(color: string, metalness: real, roughness: real, transparent: bool, opacity: real)

  /** A rendered node. An object node is a drei primitive with its geometry
      `args`; the ground plane is a `planeGeometry` mesh turned about the x
      axis by `rotationX` half-turns (`-0.5` stands for `-Math.PI / 2`). */
  datatype Node =
    | ObjectNode(key: nat, primitive: Primitive, args: seq<real>, position: Vec3,
                 castShadow: bool, receiveShadow: bool, material: Material)
    | GroundPlane(size: seq<real>, position: Vec3, rotationX: real,
                  castShadow: bool, receiveShadow: bool, material: Material)

  const ObjectMetalness: real := 0.3
  const ObjectRoughness: real := 0.4

  /** The platform every scene ends with. */
  const Ground: Node := GroundPlane([20.0, 20.0], Vec3(0.0, -0.1, 0.0), -0.5, false, true,
                                    StandardMaterial("#0a0a0a", 0.8, 0.2, true, 0.8))

  /** The `switch (type)`: the four basic types map to their primitive; any
      other type, and an absent one, falls back to the box. */
  function PrimitiveFor(kind: Option<string>): Primitive {
    if kind == Some("sphere") then Sphere
    else if kind == Some("cylinder") then Cylinder
    else if kind == Some("cone") then Cone
    else Box
  }

  /** The geometry arguments for a primitive of size `s`: a box `[s, s, s]`,
      a sphere of radius `s` with 32x32 segments, a cylinder of radius `s`
      and height `2s` with 32 segments, a cone of radius `s` and height `2s`
      with 32 segments. */
  function ArgsFor(p: Primitive, s: real): (args: seq<real>)
    ensures 3 <= |args| <= 4 && args[0] == s
  {
    match p
    case Box => [s, s, s]
    case Sphere => [s, 32.0, 32.0]
    case Cylinder => [s, s, s * 2.0, 32.0]
    case Cone => [s, s * 2.0, 32.0]
  }

  /** The destructuring defaults: `position = [0, 1, 0]`, `color = '#00ffff'`,
      `scale = 1`, each applied when the field is absent. */
  function PositionOf(obj: Descriptor): Vec3 {
    if obj.position.Some? then obj.position.value else DefaultPosition
  }

  function ColorOf(obj: Descriptor): string {
    if obj.color.Some? then obj.color.value else DefaultColor
  }

  function ScaleOf(obj: Descriptor): real {
    if obj.scale.Some? then obj.scale.value else 1.0
  }

  /** `renderObject(obj, index)`. */
  function RenderObject(obj: Descriptor, index: nat): (n: Node)
    ensures n.ObjectNode? && n.key == index && n.primitive == PrimitiveFor(obj.kind)
  {
    var p := PrimitiveFor(obj.kind);
    ObjectNode(index, p, ArgsFor(p, ScaleOf(obj)), PositionOf(obj), true, true,
               StandardMaterial(ColorOf(obj), ObjectMetalness, ObjectRoughness, false, 1.0))
  }

  /** What `SceneObjects` renders: `objects.map(renderObject)`, then the
      ground plane. */
  function RenderScene(objects: seq<Descriptor>): (nodes: seq<Node>)
    ensures |nodes| == |objects| + 1
    ensures forall i :: 0 <= i < |objects| ==> nodes[i].ObjectNode? && nodes[i].key == i
    ensures nodes[|objects|] == Ground
  {
    seq(|objects|, i requires 0 <= i < |objects| => RenderObject(objects[i], i)) + [Ground]
  }

  // ---------------------------------------------------------------------------
  // Properties

  /** Every object node casts and receives shadows, is keyed by its index,
      sits at the object's position (default `[0, 1, 0]`) and wears a
      standard material of the object's colour (default `#00ffff`) with
      metalness 0.3 and roughness 0.4. */
  lemma ObjectNodeCommonProps(obj: Descriptor, index: nat)
    ensures RenderObject(obj, index).ObjectNode?
    ensures RenderObject(obj, index).castShadow && RenderObject(obj, index).receiveShadow
    ensures RenderObject(obj, index).key == index
    ensures RenderObject(obj, index).position == if obj.position == None then DefaultPosition else obj.position.value
    ensures RenderObject(obj, index).material.color == if obj.color == None then DefaultColor else obj.color.value
    ensures RenderObject(obj, index).material.metalness == 0.3 && RenderObject(obj, index).material.roughness == 0.4
  {
  }

  /** The size of every primitive is the object's scale (default 1): it is the
      side of the box (all three sides), and the radius of the sphere, the
      cylinder (top and bottom) and the cone; cylinders and cones are twice
      as tall as they are wide in radius. */
  lemma PrimitiveSizedByScale(obj: Descriptor, index: nat)
    ensures var n := RenderObject(obj, index);
            var s := if obj.scale == None then 1.0 else obj.scale.value;
            && |n.args| >= 3 && n.args[0] == s
            && (n.primitive == Box ==> n.args == [s, s, s])
            && (n.primitive == Sphere ==> n.args[1..] == [32.0, 32.0])
            && (n.primitive == Cylinder ==> n.args[1] == s && n.args[2] == 2.0 * s && n.args[3..] == [32.0])
            && (n.primitive == Cone ==> n.args[1] == 2.0 * s && n.args[2..] == [32.0])
  {
  }

  /** The primitive is chosen by `type` alone: cube, sphere, cylinder and cone
      give their own primitive, and every other value (or none) gives the box. */
  lemma PrimitiveChoice(kind: Option<string>)
    ensures PrimitiveFor(kind) == Sphere <==> kind == Some("sphere")
    ensures PrimitiveFor(kind) == Cylinder <==> kind == Some("cylinder")
    ensures PrimitiveFor(kind) == Cone <==> kind == Some("cone")
    ensures PrimitiveFor(kind) == Box <==> kind !in {Some("sphere"), Some("cylinder"), Some("cone")}
  {
  }

  /** The fallback is the cube itself: an object of any unknown type, or of
      no type, renders exactly as the same object with `type: 'cube'`. */
  lemma UnknownTypeRendersAsCube(obj: Descriptor, index: nat)
    requires obj.kind !in {Some("cube"), Some("sphere"), Some("cylinder"), Some("cone")}
    ensures RenderObject(obj, index) == RenderObject(obj.(kind := Some("cube")), index)
  {
  }

  /** Rendering reads only `type`, `position`, `color` and `scale`: the `id`,
      `model` and `fileName` of an object never change its node. */
  lemma RenderIgnoresOtherFields(a: Descriptor, b: Descriptor, index: nat)
    requires a.kind == b.kind && a.position == b.position && a.color == b.color && a.scale == b.scale
    ensures RenderObject(a, index) == RenderObject(b, index)
  {
  }

  /** The canonical descriptor a node stands for: its primitive's type name,
      and its position, colour and size, all present. */
  function DescriptorOf(n: Node): Descriptor
    requires n.ObjectNode? && |n.args| > 0
  {
    var kind := match n.primitive
      case Box => "cube" case Sphere => "sphere" case Cylinder => "cylinder" case Cone => "cone";
    Descriptor(None, Some(kind), None, None, Some(n.position), Some(n.material.color), Some(n.args[0]))
  }

  /** A node determines what it was rendered from, up to the fields rendering
      ignores: rendering the descriptor read back from a node gives that node
      again. */
  lemma RenderRoundTrip(obj: Descriptor, index: nat)
    ensures |RenderObject(obj, index).args| > 0
    ensures RenderObject(DescriptorOf(RenderObject(obj, index)), index) == RenderObject(obj, index)
  {
  }

  /** The scene holds one node per object, in input order, then exactly one
      ground plane: 20 by 20, at `[0, -0.1, 0]`, colour `#0a0a0a`, the only
      node that is not an object node. */
  lemma SceneShape(objects: seq<Descriptor>)
    ensures |RenderScene(objects)| == |objects| + 1
    ensures forall i :: 0 <= i < |objects| ==> RenderScene(objects)[i] == RenderObject(objects[i], i)
    ensures var g := RenderScene(objects)[|objects|];
            g.GroundPlane? && g.size == [20.0, 20.0] && g.position == Vec3(0.0, -0.1, 0.0)
            && g.material.color == "#0a0a0a"
    ensures forall i :: 0 <= i < |RenderScene(objects)| && RenderScene(objects)[i].GroundPlane? ==> i == |objects|
  {
  }

  /** A red cube of scale 2 renders as one red box of side 2, above the ground. */
  lemma RedCubeScenario()
    ensures RenderScene([Descriptor(Some("o1"), Some("cube"), None, None, None, Some("#ff0000"), Some(2.0))])
            == [ObjectNode(0, Box, [2.0, 2.0, 2.0], Vec3(0.0, 1.0, 0.0), true, true,
                           StandardMaterial("#ff0000", 0.3, 0.4, false, 1.0)),
                Ground]
  {
  }
}
