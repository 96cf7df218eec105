/** Values shared by the backend and the frontend: the scene description that
    travels between them as JSON. A JSON field that may be absent is an
    `Option`; numbers are exact reals. */
module SceneJson {

  datatype Option<+T> = None | Some(value: T)

  /** A 3-component vector, the JSON array `[x, y, z]`. */
  datatype Vec3 = Vec3(x: real, y: real, z: real)

  /** The fallback position `[0, 1, 0]` used by both the generator and the renderer. */
  const DefaultPosition: Vec3 := Vec3(0.0, 1.0, 0.0)

  /** The fallback colour, a teal, used by both the generator and the renderer. */
  const DefaultColor: string := "#00ffff"

  /** One scene object as the frontend receives it. Every field is optional: a
      generated object has `type`, `position`, `color` and `scale`; an uploaded
      model also carries `id`, `model` and `fileName`. The `type` field is
      called `kind` here, since `type` is a Dafny keyword. */
  datatype Descriptor = Descriptor(
    id: Option<string>,
    kind: Option<string>,
    model: Option<string>,
    fileName: Option<string>,
    position: Option<Vec3>,
    color: Option<string>,
    scale: Option<real>)
}
