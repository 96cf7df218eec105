/** The input panel (src/components/InputPanel.js): its own state (the text
    being typed and the open tab), the guards in front of the parent's
    callbacks, and the fallback rules of the scene-controls cards.

    A call to one of the parent's callbacks (`onTextSubmit`, `onImageUpload`,
    `onModelUpload`) is recorded by appending its argument to a log field, so
    that the contracts can say which calls happen and with what. */
module InputPanel {
  import opened Strings
  import opened SceneJson

  // ---------------------------------------------------------------------------
  // Pure rules

  /** An uploaded file, as far as the panel looks at it. */
  datatype File = File(name: string)

  /** The extensions a 3D model file may have. */
  const ValidExtensions: seq<string> := [".glb", ".gltf"]

  /** `validExtensions.some(ext => file.name.toLowerCase().endsWith(ext))`. */
  predicate IsValidModelFile(name: string)
    ensures IsValidModelFile(name) ==> |name| >= 4
  {
    exists k :: 0 <= k < |ValidExtensions| && EndsWith(ToLower(name), ValidExtensions[k])
  }

  /** A model file is accepted exactly when its lower-cased name is some stem
      followed by ".glb" or ".gltf"; the stem may be empty. */
  lemma ModelFileIff(name: string)
    ensures IsValidModelFile(name)
            <==> exists stem :: ToLower(name) == stem + ".glb" || ToLower(name) == stem + ".gltf"
  {
    var lower := ToLower(name);
    if EndsWith(lower, ".glb") {
      var stem := lower[..|lower| - 4];
      assert ToLower(name) == stem + ".glb";
      assert EndsWith(lower, ValidExtensions[0]);
    } else if EndsWith(lower, ".gltf") {
      var stem := lower[..|lower| - 5];
      assert ToLower(name) == stem + ".gltf";
      assert EndsWith(lower, ValidExtensions[1]);
    }
  }

  /** The check ignores case: a name and its lower-cased form are accepted
      alike. */
  lemma ModelFileIgnoresCase(name: string)
    ensures IsValidModelFile(name) <==> IsValidModelFile(ToLower(name))
  {
    ToLowerIdempotent(name);
  }

  /** The submit guard of `handleTextSubmit`: `textInput.trim() && !loading`. */
  predicate ShouldSubmit(textInput: string, loading: bool)
    ensures ShouldSubmit(textInput, loading) ==> !loading && |textInput| > 0
  {
    Trim(textInput) != "" && !loading
  }

  /** Text is submitted exactly when nothing is loading and the text has a
      character that is not whitespace. */
  lemma SubmitGuardIff(textInput: string, loading: bool)
    ensures ShouldSubmit(textInput, loading)
            <==> !loading && exists i :: 0 <= i < |textInput| && !IsWhitespace(textInput[i])
  {
    TrimEmptyIffBlank(textInput);
  }

  /** JavaScript's `a || b` for an optional string: `a` unless it is absent
      or the empty string. */
  function OrElse(a: Option<string>, b: string): string {
    if a.Some? && a.value != "" then a.value else b
  }

  /** `obj.id || \`temp_${index}\``: the card's key and the id its commands use. */
  function ObjectId(obj: Descriptor, index: nat): (id: string)
    ensures id != ""
  {
    OrElse(obj.id, "temp_" + NatToString(index))
  }

  /** The id is the object's own when it has a non-empty one, and otherwise
      `temp_` followed by the index; it is never empty. */
  lemma ObjectIdFallback(obj: Descriptor, index: nat)
    ensures ObjectId(obj, index) != ""
    ensures obj.id.Some? && obj.id.value != "" ==> ObjectId(obj, index) == obj.id.value
    ensures obj.id == None || obj.id == Some("") ==>
              ObjectId(obj, index)[..5] == "temp_" && ObjectId(obj, index)[5..] == NatToString(index)
  {
  }

  /** Two objects without ids, at different indices, get different fallback
      ids: the fallback keys of one list never collide with each other. */
  lemma FallbackIdsDistinct(a: Descriptor, i: nat, b: Descriptor, j: nat)
    requires a.id == None || a.id == Some("")
    requires b.id == None || b.id == Some("")
    requires i != j
    ensures ObjectId(a, i) != ObjectId(b, j)
  {
    NatToStringInjective(i, j);
    var x, y := ObjectId(a, i), ObjectId(b, j);
    assert x[5..] == NatToString(i) && y[5..] == NatToString(j);
  }

  /** `obj.fileName || obj.model || obj.type || \`Object ${index + 1}\``. */
  function CardTitle(obj: Descriptor, index: nat): (title: string)
    ensures title != ""
  {
    OrElse(obj.fileName, OrElse(obj.model, OrElse(obj.kind, "Object " + NatToString(index + 1))))
  }

  /** The title is the first non-empty of the file name, the model and the
      type; without any it numbers the cards from 1. It is never empty. */
  lemma CardTitleFallback(obj: Descriptor, index: nat)
    ensures CardTitle(obj, index) != ""
    ensures obj.fileName.Some? && obj.fileName.value != "" ==> CardTitle(obj, index) == obj.fileName.value
    ensures OrElse(obj.fileName, "") == "" && obj.model.Some? && obj.model.value != "" ==>
              CardTitle(obj, index) == obj.model.value
    ensures OrElse(obj.fileName, "") == "" && OrElse(obj.model, "") == "" && obj.kind.Some? && obj.kind.value != "" ==>
              CardTitle(obj, index) == obj.kind.value
    ensures OrElse(obj.fileName, "") == "" && OrElse(obj.model, "") == "" && OrElse(obj.kind, "") == "" ==>
              CardTitle(obj, index) == "Object " + NatToString(index + 1)
  {
  }

  /** `obj.scale || 1`: the slider's value. A scale of 0 is falsy too. */
  function SliderValue(obj: Descriptor): (v: real)
    ensures v != 0.0
  {
    if obj.scale.Some? && obj.scale.value != 0.0 then obj.scale.value else 1.0
  }

  /** The slider shows the object's scale unless it is absent or 0, and it is
      never 0. */
  lemma SliderValueFallback(obj: Descriptor)
    ensures SliderValue(obj) != 0.0
    ensures obj.scale.Some? && obj.scale.value != 0.0 ==> SliderValue(obj) == obj.scale.value
    ensures obj.scale == None || obj.scale == Some(0.0) ==> SliderValue(obj) == 1.0
  {
  }

  /** One axis of a position: 0, 1 or 2. */
  type Axis = a: nat | a < 3

  /** A call to one of the parent's per-object callbacks. */
  datatype Command =
    | ScaleChange(id: string, value: real)
    | PositionChange(id: string, axis: Axis, value: real)
    | Remove(id: string)

  /** The `onChange` of a position field: `parsed` is what `parseFloat` made of
      the field's text, `None` for NaN; `parseFloat(...) || 0` turns NaN into 0. */
  function PositionEdit(obj: Descriptor, index: nat, axis: Axis, parsed: Option<real>): (c: Command)
    ensures c.PositionChange? && c.id == ObjectId(obj, index) && c.axis == axis
  {
    PositionChange(ObjectId(obj, index), axis, if parsed.Some? then parsed.value else 0.0)
  }

  /** A position edit names the card's object and the edited axis, and passes
      the parsed number, or 0 when the text does not parse. */
  lemma PositionEditValue(obj: Descriptor, index: nat, axis: Axis, parsed: Option<real>)
    ensures PositionEdit(obj, index, axis, parsed).id == ObjectId(obj, index)
    ensures PositionEdit(obj, index, axis, parsed).axis == axis
    ensures parsed == None ==> PositionEdit(obj, index, axis, parsed).value == 0.0
    ensures parsed.Some? ==> PositionEdit(obj, index, axis, parsed).value == parsed.value
  {
  }

  /** The `onChange` of the scale slider: `parseFloat` of the slider's value. */
  function ScaleEdit(obj: Descriptor, index: nat, parsed: real): Command {
    ScaleChange(ObjectId(obj, index), parsed)
  }

  /** The remove button. */
  function RemoveClick(obj: Descriptor, index: nat): Command {
    Remove(ObjectId(obj, index))
  }

  /** One card of the scene-controls tab. */
  datatype Card = Card(key: string, title: string, sliderValue: real)

  /** What the scene-controls tab shows. */
  datatype ControlsView = EmptyState | Cards(cards: seq<Card>)

  function CardFor(obj: Descriptor, index: nat): Card {
    Card(ObjectId(obj, index), CardTitle(obj, index), SliderValue(obj))
  }

  /** The commands a card sends name the card's key: the slider passes the
      parsed slider value, the remove button only the key. */
  lemma CardCommandsNameTheirCard(obj: Descriptor, index: nat, parsed: real)
    ensures ScaleEdit(obj, index, parsed) == ScaleChange(CardFor(obj, index).key, parsed)
    ensures RemoveClick(obj, index) == Remove(CardFor(obj, index).key)
  {
  }

  /** `sceneData.objects && sceneData.objects.length > 0 ? cards : empty state`;
      `objects` is `None` when `sceneData.objects` is absent. */
  function Controls(objects: Option<seq<Descriptor>>): (v: ControlsView)
    ensures v.Cards? ==> objects.Some? && |v.cards| == |objects.value| > 0
  {
    if objects.Some? && |objects.value| > 0 then
      Cards(seq(|objects.value|, i requires 0 <= i < |objects.value| => CardFor(objects.value[i], i)))
    else EmptyState
  }

  /** The empty state shows exactly when there are no objects; otherwise there
      is one card per object, in order, and cards of objects that have no id
      never share a key. */
  lemma ControlCardsShape(objects: Option<seq<Descriptor>>)
    ensures Controls(objects) == EmptyState <==> objects == None || objects == Some([])
    ensures Controls(objects).Cards? ==>
              && |Controls(objects).cards| == |objects.value|
              && forall i :: 0 <= i < |objects.value| ==> Controls(objects).cards[i] == CardFor(objects.value[i], i)
    ensures Controls(objects).Cards? ==>
              forall i, j :: 0 <= i < j < |objects.value|
                             && OrElse(objects.value[i].id, "") == "" && OrElse(objects.value[j].id, "") == ""
                             ==> Controls(objects).cards[i].key != Controls(objects).cards[j].key
  {
    if objects.Some? && |objects.value| > 0 {
      var objs := objects.value;
      var cards := Controls(objects).cards;
      forall i, j | 0 <= i < j < |objs| && OrElse(objs[i].id, "") == "" && OrElse(objs[j].id, "") == ""
        ensures cards[i].key != cards[j].key
      {
        FallbackIdsDistinct(objs[i], i, objs[j], j);
      }
    }
  }

  // ---------------------------------------------------------------------------
  // The panel's state and its handlers

  datatype Tab = TextTab | ImageTab | ModelTab | ControlsTab | VideoTab

  /** The prompts of the example buttons, in order. */
  const ExamplePrompts: seq<string> := [
    "Create a red cube",
    "Add a blue sphere next to a green cylinder",
    "Generate a forest scene with trees",
    "Create a sunset environment"
  ]

  /** The message shown for a rejected model file. */
  const InvalidModelMessage: string := "Please upload a GLB or GLTF file"

  class Panel {
    var textInput: string
    var activeTab: Tab
    /** Arguments of the calls made to `onTextSubmit`, oldest first. */
    var submitted: seq<string>
    /** Files passed to `onImageUpload`, oldest first. */
    var imageUploads: seq<File>
    /** Files passed to `onModelUpload`, oldest first. */
    var modelUploads: seq<File>
    /** Messages passed to `alert`, oldest first. */
    var alerts: seq<string>

    /** The initial state: `useState('')` and `useState('text')`, no calls yet. */
    constructor ()
      ensures textInput == "" && activeTab == TextTab
      ensures submitted == [] && imageUploads == [] && modelUploads == [] && alerts == []
    {
      textInput := "";
      activeTab := TextTab;
      submitted := [];
      imageUploads := [];
      modelUploads := [];
      alerts := [];
    }

    /** `handleTextSubmit`: submits the text as typed (not trimmed) and then
        clears it, but only when the trimmed text is non-empty and nothing is
        loading; otherwise nothing changes. */
    method HandleTextSubmit(loading: bool)
      modifies this
      ensures ShouldSubmit(old(textInput), loading) ==>
                submitted == old(submitted) + [old(textInput)] && textInput == ""
      ensures !ShouldSubmit(old(textInput), loading) ==>
                submitted == old(submitted) && textInput == old(textInput)
      ensures activeTab == old(activeTab) && imageUploads == old(imageUploads)
      ensures modelUploads == old(modelUploads) && alerts == old(alerts)
    {
      if Trim(textInput) != "" && !loading {
        submitted := submitted + [textInput];
        textInput := "";
      }
    }

    /** `handleImageSelect`: passes the chosen file on unless there is none or
        something is loading. */
    method HandleImageSelect(file: Option<File>, loading: bool)
      modifies this
      ensures file.Some? && !loading ==> imageUploads == old(imageUploads) + [file.value]
      ensures file == None || loading ==> imageUploads == old(imageUploads)
      ensures textInput == old(textInput) && activeTab == old(activeTab) && submitted == old(submitted)
      ensures modelUploads == old(modelUploads) && alerts == old(alerts)
    {
      if file.Some? && !loading {
        imageUploads := imageUploads + [file.value];
      }
    }

    /** `handleModelSelect`: with a file and nothing loading, a file whose name
        does not end in .glb or .gltf (ignoring case) raises the alert and
        goes no further; an accepted file is passed on. A rejected file never
        reaches `onModelUpload`. */
    method HandleModelSelect(file: Option<File>, loading: bool)
      modifies this
      ensures file.Some? && !loading && IsValidModelFile(file.value.name) ==>
                modelUploads == old(modelUploads) + [file.value] && alerts == old(alerts)
      ensures file.Some? && !loading && !IsValidModelFile(file.value.name) ==>
                modelUploads == old(modelUploads) && alerts == old(alerts) + [InvalidModelMessage]
      ensures file == None || loading ==> modelUploads == old(modelUploads) && alerts == old(alerts)
      ensures textInput == old(textInput) && activeTab == old(activeTab) && submitted == old(submitted)
      ensures imageUploads == old(imageUploads)
    {
      if file.Some? && !loading {
        var fileName := ToLower(file.value.name);
        var isValid := false;
        var k := 0;
        while k < |ValidExtensions|
          invariant 0 <= k <= |ValidExtensions|
          invariant isValid <==> exists e :: 0 <= e < k && EndsWith(fileName, ValidExtensions[e])
        {
          if EndsWith(fileName, ValidExtensions[k]) {
            isValid := true;
          }
          k := k + 1;
        }
        if !isValid {
          alerts := alerts + [InvalidModelMessage];
          return;
        }
        modelUploads := modelUploads + [file.value];
      }
    }

    /** The textarea's `onChange`; a disabled textarea (while loading) sends
        no events. */
    method ChangeText(value: string, loading: bool)
      modifies this
      ensures textInput == if loading then old(textInput) else value
      ensures activeTab == old(activeTab) && submitted == old(submitted) && imageUploads == old(imageUploads)
      ensures modelUploads == old(modelUploads) && alerts == old(alerts)
    {
      if !loading {
        textInput := value;
      }
    }

    /** An example button fills the textarea with its prompt; the buttons are
        disabled while loading. */
    method ChooseExample(index: nat, loading: bool)
      requires index < |ExamplePrompts|
      modifies this
      ensures textInput == if loading then old(textInput) else ExamplePrompts[index]
      ensures activeTab == old(activeTab) && submitted == old(submitted) && imageUploads == old(imageUploads)
      ensures modelUploads == old(modelUploads) && alerts == old(alerts)
    {
      if !loading {
        textInput := ExamplePrompts[index];
      }
    }

    /** A tab button opens its tab; the video tab's button is disabled. */
    method ClickTab(tab: Tab)
      modifies this
      ensures activeTab == if tab == VideoTab then old(activeTab) else tab
      ensures textInput == old(textInput) && submitted == old(submitted) && imageUploads == old(imageUploads)
      ensures modelUploads == old(modelUploads) && alerts == old(alerts)
    {
      if tab != VideoTab {
        activeTab := tab;
      }
    }
  }
}
