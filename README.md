# Jarvis-AI scene core, modelled in Dafny

Jarvis-AI turns a sentence such as "Create a red cube" into a 3D scene.
Its Flask backend holds a rule-based `SceneGenerator`. The generator
lower-cases the text and looks for shape, colour, size, position, lighting
and environment keywords by plain substring tests. From these it builds a
list of scene objects, plus a lighting and an environment hint. The React
frontend draws each object as a drei primitive (box, sphere, cylinder or
cone) and adds a fixed ground plane. It can attach per-frame effects to an
object: an arc-reactor blast, hovering or rotation. Its input panel guards
text submission and model-file uploads, and shows one control card per
object.

The project has seven modules:

- `Strings` (`Strings.dfy`) holds the string built-ins the code relies on:
  - Python's `in` and `lower()`;
  - JavaScript's `toLowerCase`, `endsWith` and `trim`;
  - decimal rendering of an index in a template string.
- `SceneJson` (`SceneJson.dfy`) holds the JSON values both sides share. An
  absent field is `None`.
- `SceneGenerator` (`SceneGenerator.dfy`) models `backend/app.py`:
  - the keyword tables, as ordered sequences of pairs, because Python dicts
    iterate in insertion order;
  - `extract_objects` as an imperative method with its nested loops and
    `break`s, proved equal to a specification function;
  - `_extract_position` and the lighting and environment chains as
    functions;
  - `generate_scene`, and the empty-text guard of `process_text`.
  
  Every keyword chain is also shown to be a first-match lookup (`FirstHit`)
  in an ordered table.
- `SceneObjects` (`SceneObjects.dfy`) models `src/components/SceneObjects.js`.
  Rendered nodes are datatype values.
- `SimulationEffects` (`SimulationEffects.dfy`) models
  `src/components/SimulationEffects.js`:
  - the effect dispatch and the blast markup, as functions;
  - the `useFrame` callbacks, as methods that update `Object3D` and
    `ParticleGroup` objects in place;
  - the particle `forEach`, as a loop.
- `InputPanel` (`InputPanel.dfy`) models `src/components/InputPanel.js`:
  - the pure rules (extension check, id, title and slider fallbacks, which
    use JavaScript's `||` falsiness, and the NaN-to-0 position parse) as
    functions;
  - the component's state, as a `Panel` class. Each call to a parent
    callback is recorded in a log field.
- `EndToEnd` (`EndToEnd.dfy`) connects the generator to the renderer. It
  also works the first example prompt, "Create a red cube", through both.

Numbers are exact reals. `Math.sin` and `Math.cos` are function parameters
that are otherwise left uninterpreted. The frame clock is a parameter too.

The effects read as follows:

- The blast's core pulses as `1 + 0.3 sin(5t)` and glows as `3 + 2 sin(8t)`.
- Particles sit at angle `2 pi i / n + t`, on a radius of `0.5 + 0.2 sin(2t + i)`.
- `t` is the global clock `state.clock.getElapsedTime()`. It does not
  restart when an effect is re-activated, so there is no phase reset.
- The hover offset `0.001 sin(2 speed t)` is added every frame, and nothing
  pulls the object back. `HoverDriftBounded` proves the bound of 0.001 per
  frame, for any clock readings. When the readings are arbitrary, the
  offsets can keep one sign and the height can drift. At a steady frame
  rate they add up to a bounded oscillation instead.

Python's `in` is a substring test. So "bright" also matches "right", and
"stop" matches "top". `BrightMatchesRight` and `StopMatchesTop` state the
consequences.

## Model

| member | source | states |
|---|---|---|
| Strings.ContainsIff | backend/app.py:68 | `word in text` holds exactly when the word occurs at some position of the text |
| Strings.ContainsTransitive | backend/app.py:110-113 | a word inside another word is found in every text that holds the latter (how "bright" matches "right") |
| Strings.ToLower | backend/app.py:57 | lower-casing keeps the length and lower-cases every character |
| Strings.ToLowerIdempotent | backend/app.py:57 | lower-casing twice is lower-casing once |
| Strings.TrimEmptyIffBlank | src/components/InputPanel.js:21 | `trim()` gives the empty string exactly when every character is whitespace |
| Strings.NatToStringInjective | src/components/InputPanel.js:184 | different indices render as different decimal strings |
| SceneGenerator.FirstHit | backend/app.py:77-86 | the value is that of the first table entry, in table order, whose word occurs, or the default when no word occurs |
| SceneGenerator.FindFirst | backend/app.py:77-86 | the colour and size loops, which stop at the first word that occurs, return the first-match lookup `FirstHit` of their table |
| SceneGenerator.FirstHitValue | backend/app.py:77-80 | when entry `i` is the first hit, the lookup yields entry `i`'s value |
| SceneGenerator.ShapesFoundIndices | backend/app.py:66-92 | the found types are exactly the entries with an occurring keyword, in strictly increasing table order |
| SceneGenerator.ExtractedObjects | backend/app.py:55-103 | what `extract_objects` returns: one to four objects |
| SceneGenerator.ExtractObjects | backend/app.py:55-103 | the nested loops with their `break`s compute the specification `ExtractedObjects`; there are 1 to 4 objects |
| SceneGenerator.AppendFound | backend/app.py:89-91 | appending a found type appends its object, placed by the number of objects already there |
| SceneGenerator.ObjectsInTableOrder | backend/app.py:25-30 | 1 to 4 objects, each of one of the four types, in strictly increasing order cube, sphere, cylinder, cone, so no type appears twice |
| SceneGenerator.ShapeFoundIff | backend/app.py:66-68 | when any shape keyword occurs, a type has an object exactly when one of its keywords occurs in the lower-cased text |
| SceneGenerator.DefaultCubeIffNoShape | backend/app.py:95-101 | the fallback happens exactly when no shape keyword occurs, and it is the single cube at `[0,1,0]`, colour `#00ffff`, scale 1, whatever colour or size words occur |
| SceneGenerator.FoundObjectsShareColorAndScale | backend/app.py:72-89 | every found object has the first occurring colour (else `#00ffff`) and the first occurring size (else 1); object `k` is placed by `_extract_position(text, k)` |
| SceneGenerator.ExtractionIgnoresCase | backend/app.py:57 | extracting from the lower-cased text gives the same objects |
| SceneGenerator.ExtractPosition | backend/app.py:105-128 | object `k` sits at `x` 0, `2k` or `-+2(k+1)`, at height 3, 0.5 or 1, and at `z` 0 or `-+2(k+1)` |
| SceneGenerator.PositionIsFirstMatch | backend/app.py:105-128 | the height is the first hit of above/top/ground/floor (default 1); "next to"/"beside" puts object `k` at `x = 2k, z = 0`; otherwise left before right and behind before front, each 0 when absent |
| SceneGenerator.HeightIndependentOfIndex | backend/app.py:123-126 | the height does not depend on the object's index |
| SceneGenerator.SideWordsSpreadObjects | backend/app.py:110-117 | with a side word, objects with different indices get different `x` |
| SceneGenerator.NoHintsStackObjects | backend/app.py:108-121 | with no side or depth word, every object is at `x = 0, z = 0` |
| SceneGenerator.BrightMatchesRight | backend/app.py:110-113 | "bright" places objects on the right and sets intensity 1.5, unless "left", "next to"/"beside" or "dark" wins |
| SceneGenerator.StopMatchesTop | backend/app.py:123-124 | "stop" lifts every object to `y = 3` |
| SceneGenerator.LightingFor | backend/app.py:135-139 | the lighting is ambient, of intensity 0.5, 1.5 or 1 |
| SceneGenerator.EnvironmentFor | backend/app.py:142-148 | the environment is forest, sunset, night or default |
| SceneGenerator.LightingAndEnvironmentAreFirstMatch | backend/app.py:135-148 | lighting is always ambient; intensity and environment are first-match lookups in the tables dark/bright/sunny and forest/sunset/evening/night |
| SceneGenerator.GenerateScene | backend/app.py:130-156 | the scene holds the extracted objects, the chosen lighting and the chosen environment under `sceneData` |
| SceneGenerator.ProcessText | backend/app.py:178-189 | a missing or empty text gives the error "No text provided" with status 400, and only then; any other text gives the generated scene |
| SceneObjects.ArgsFor | src/components/SceneObjects.js:16-45 | a primitive's geometry has three or four arguments, the first being its size |
| SceneObjects.RenderObject | src/components/SceneObjects.js:5-47 | `renderObject(obj, index)` gives an object node keyed by `index`, of the primitive the `type` selects |
| SceneObjects.RenderScene | src/components/SceneObjects.js:49-63 | one node per object, keyed by index, then the ground plane as the last node |
| SceneObjects.ObjectNodeCommonProps | src/components/SceneObjects.js:6-19 | every object node casts and receives shadows and is keyed by its index; it sits at its position (default `[0,1,0]`) in colour (default `#00ffff`) with metalness 0.3 and roughness 0.4 |
| SceneObjects.PrimitiveSizedByScale | src/components/SceneObjects.js:16-45 | args are `[s,s,s]` for a box, `[s,32,32]` for a sphere, `[s,s,2s,32]` for a cylinder and `[s,2s,32]` for a cone, where `s` is the scale (default 1) |
| SceneObjects.PrimitiveChoice | src/components/SceneObjects.js:15-45 | sphere, cylinder and cone map to their own primitive; every other type, or none, maps to the box |
| SceneObjects.UnknownTypeRendersAsCube | src/components/SceneObjects.js:40-45 | an object of unknown or absent type renders exactly as the same object of type `cube` |
| SceneObjects.RenderIgnoresOtherFields | src/components/SceneObjects.js:6 | `id`, `model` and `fileName` never change the node |
| SceneObjects.RenderRoundTrip | src/components/SceneObjects.js:5-47 | rendering the descriptor read back from a node gives that node again |
| SceneObjects.SceneShape | src/components/SceneObjects.js:49-63 | the objects' nodes come in input order, followed by exactly one 20x20 ground plane at `[0,-0.1,0]` of colour `#0a0a0a` |
| SceneObjects.RedCubeScenario | src/components/SceneObjects.js:16-21 | a red cube of scale 2 renders as one red box of side 2, then the ground |
| SimulationEffects.SimulationManager | src/components/SimulationEffects.js:100-116 | every effect the manager renders is active |
| SimulationEffects.ManagerDispatch | src/components/SimulationEffects.js:100-113 | an effect exists exactly when the simulation is present, active and of a known type; it matches the type, is active, sits at the object's position (blast) or runs at speed 1 (hover, rotate) |
| SimulationEffects.BlastView | src/components/SimulationEffects.js:35-76 | the blast renders something exactly when active, then with twelve particles |
| SimulationEffects.BlastViewShape | src/components/SimulationEffects.js:35-76 | inactive renders nothing; active renders one core sphere, exactly 12 identical particle spheres and one beam cylinder at the object's position |
| SimulationEffects.BlastFrame | src/components/SimulationEffects.js:10-33 | inactive or without the core mesh, nothing changes; otherwise the core gets its pulse scale and glow, the particle group turns by 0.02 and each particle is put on its ring |
| SimulationEffects.PlaceParticles | src/components/SimulationEffects.js:24-31 | particle `i` of `n` gets its ring position at angle `(i/n) 2 pi`; nothing else of any particle changes |
| SimulationEffects.HoverFrame | src/components/SimulationEffects.js:82-86 | inactive or without a target, nothing changes; otherwise only `position.y` moves, by `sin(2 t speed) * 0.001` |
| SimulationEffects.RotationFrame | src/components/SimulationEffects.js:92-95 | inactive or without a target, nothing changes; otherwise only `rotation.y` changes, by `0.01 * speed` |
| SimulationEffects.AfterFramesLinear | src/components/SimulationEffects.js:94 | `n` frames that each add a fixed step add `n` times the step |
| SimulationEffects.RotateFrames | src/components/SimulationEffects.js:92-95 | `n` active rotation frames add `n * 0.01 * speed` to `rotation.y`, never clamped or wrapped; nothing else of the target changes |
| SimulationEffects.BlastFrames | src/components/SimulationEffects.js:10-23 | one active blast frame per clock reading turns the particle group by `0.02` per reading, never clamped or wrapped; its other angles and the core's position and rotation stay put |
| SimulationEffects.HoverFrames | src/components/SimulationEffects.js:82-86 | one active hover frame per clock reading leaves the height at the sum of the per-frame offsets `sin(2 speed t) * 0.001`; rotation, scale and glow are unchanged |
| SimulationEffects.HoverDriftBounded | src/components/SimulationEffects.js:85 | the height `HoverFrames` leaves after `n` frames is within `n * 0.001` of where it started |
| SimulationEffects.CorePulseBounded | src/components/SimulationEffects.js:17-18 | the core's scale stays in `[0.7, 1.3]` and its glow in `[1, 5]` |
| SimulationEffects.ParticleAngleClosedForm | src/components/SimulationEffects.js:26 | on the ring of 12, every particle `i`, the last one included, starts at `i pi / 6`, in `[0, 2 pi)` |
| SimulationEffects.ParticleAnglesEvenlySpaced | src/components/SimulationEffects.js:26 | on the ring of 12, the base angles strictly increase with the index, so they are pairwise distinct |
| InputPanel.IsValidModelFile | src/components/InputPanel.js:38-40 | an accepted name has at least four characters |
| InputPanel.ModelFileIff | src/components/InputPanel.js:38-40 | a model file is accepted exactly when its lower-cased name is a stem followed by `.glb` or `.gltf` |
| InputPanel.ModelFileIgnoresCase | src/components/InputPanel.js:39 | a name and its lower-cased form are accepted alike |
| InputPanel.ShouldSubmit | src/components/InputPanel.js:21 | text is submitted only when nothing is loading and the text is not empty |
| InputPanel.SubmitGuardIff | src/components/InputPanel.js:21 | text is submitted exactly when nothing is loading and the text has a non-whitespace character |
| InputPanel.ObjectId | src/components/InputPanel.js:184 | the card's id is never empty |
| InputPanel.ObjectIdFallback | src/components/InputPanel.js:184 | the id is the object's own non-empty id, else `temp_` followed by the index; it is never empty |
| InputPanel.FallbackIdsDistinct | src/components/InputPanel.js:184 | objects without ids at different indices get different ids |
| InputPanel.CardTitle | src/components/InputPanel.js:189 | the card's title is never empty |
| InputPanel.CardTitleFallback | src/components/InputPanel.js:189 | the title is the first non-empty of file name, model and type, else `Object <index+1>`; it is never empty |
| InputPanel.SliderValue | src/components/InputPanel.js:209 | the slider's value is never 0 |
| InputPanel.SliderValueFallback | src/components/InputPanel.js:209 | the slider shows the scale unless it is absent or 0, in which case it shows 1; it is never 0 |
| InputPanel.PositionEdit | src/components/InputPanel.js:227-247 | a position field's edit is a position change for the card's id and the field's axis |
| InputPanel.PositionEditValue | src/components/InputPanel.js:227-247 | a position edit names the card's object and the edited axis, and passes the parsed number, or 0 for NaN |
| InputPanel.CardCommandsNameTheirCard | src/components/InputPanel.js:193-210 | the slider sends a scale change and the remove button a removal, each for the card's own key, the slider with the parsed value |
| InputPanel.Controls | src/components/InputPanel.js:180-261 | cards are shown only for a present, non-empty object list, one per object |
| InputPanel.ControlCardsShape | src/components/InputPanel.js:180-261 | the empty state shows exactly when there are no objects; otherwise one card per object in order, and cards of id-less objects never share a key |
| InputPanel.Panel.constructor | src/components/InputPanel.js:14-15 | the panel starts with empty text on the text tab, with no calls made |
| InputPanel.Panel.HandleTextSubmit | src/components/InputPanel.js:19-25 | when the guard holds, the untrimmed text is passed on and the field is cleared; otherwise nothing changes |
| InputPanel.Panel.HandleImageSelect | src/components/InputPanel.js:27-32 | the file is passed on unless there is none or something is loading |
| InputPanel.Panel.HandleModelSelect | src/components/InputPanel.js:34-49 | an accepted file is passed on; a rejected one raises the alert and never reaches `onModelUpload`; with no file or while loading nothing happens |
| InputPanel.Panel.ChangeText | src/components/InputPanel.js:98-104 | the textarea's value becomes the typed text, except while loading, when the textarea is disabled |
| InputPanel.Panel.ChooseExample | src/components/InputPanel.js:51-56 | an example button fills the text with its prompt, except while loading |
| InputPanel.Panel.ClickTab | src/components/InputPanel.js:60-91 | a tab button opens its tab; the disabled video tab never opens |
| EndToEnd.GeneratedSceneRenders | src/components/SceneObjects.js:49-63 | every generated scene renders as 2 to 5 nodes; each generated object is drawn as its own type's primitive at its generated position, colour and scale, so no renderer fallback applies |
| EndToEnd.RedCubeObjects | backend/app.py:55-103 | "Create a red cube" yields exactly one red cube of scale 1 at `[0,1,0]` |
| EndToEnd.RedCubeLighting | backend/app.py:135-148 | "Create a red cube" keeps ambient intensity 1 and the default environment |
| EndToEnd.RedCubeRendered | src/components/InputPanel.js:52 | the first example button's prompt, "Create a red cube", is drawn as one red unit box above the ground |

## Left out

- Flask routing, CORS, the JSON encoding of responses, the health and root endpoints, `process_image` and `app.run` are left out. They are HTTP input and output.
- The 500 response for a request whose body is not JSON is left out. `ProcessText` receives the `text` field already decoded, and a JSON `null` counts as absent. A non-string `text` is not modelled.
- spaCy loading and the `doc.ents` computation are left out. Their result is never used, so the output does not depend on them.
- `src/App.js` is not part of this model. It is `fetch` calls and React state wiring. As written, it does not pass `sceneData` or `onModelUpload` to `InputPanel`. The panel is modelled as its own source declares it.
- `src/components/Scene3D.js` and `src/components/Header.js` are not part of this model. They are camera, lighting, grid and markup configuration.
- Lower-casing covers only the ASCII letters A-Z. Python's `lower()` and JavaScript's `toLowerCase()` also fold other Unicode letters.
- Numbers are exact reals, so floating-point rounding is left out.
- `parseFloat` is a parameter: the parsed number, or `None` for NaN.
- `Math.sin` and `Math.cos` are uninterpreted parameters. Only their range `[-1, 1]` is used, in the bound lemmas.
- The ground plane's `-Math.PI / 2` rotation is recorded as `-0.5` half-turns.
- `toFixed` label formatting, the scale text above the slider, CSS classes, file-picker refs and the example and tab markup are left out. They are presentation.
- A component that mounts refs and calls the frame callbacks is left out. The refs' `current` values are the nullable parameters of the frame methods.
- Composite archetypes (car, robot, airplane, suit), external-asset loading and caching, part introspection and hidden parts are left out. Jarvis-AI does not implement them.
- HoverDriftBounded: gives only the per-frame bound of 0.001. It holds for any sequence of clock readings, and for arbitrary readings the height can drift by that much per frame. The tighter bound of about `0.001 / |sin(speed dt)|` for readings spaced evenly by `dt` is not stated.
- A JSON `null` for `position`, `color` or `scale` is not modelled. `None` stands for an absent field. The destructuring defaults of `renderObject` apply only to `undefined`, so a `null` would reach the renderer unchanged. The backend never sends `null` for these fields.
