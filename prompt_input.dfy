/** The composer of app/components/chat/prompt-input/prompt-input.tsx
    (`PromptBox`): the class-name helper `cn`, the text box with its submit
    rules, the attached image preview, the tool picker, and the textarea's
    height clamp. */
module PromptInput {
  import opened Wrappers
  import Text

  // ---------------------------------------------------------------------------
  // cn

  /** `string | number | boolean | null | undefined`; numbers are integers. */
  datatype ClassValue = CStr(s: string) | CNum(n: int) | CBool(b: bool) | CNull | CUndefined

  /** `Boolean(v)`. */
  predicate ClassTruthy(v: ClassValue)
  {
    match v
    case CStr(s) => s != ""
    case CNum(n) => n != 0
    case CBool(b) => b
    case CNull => false
    case CUndefined => false
  }

  /** The text `join` writes for a value that passed the filter. */
  function ClassText(v: ClassValue): (t: string)
    requires ClassTruthy(v)
    ensures t != ""
  {
    match v
    case CStr(s) => s
    case CNum(n) => Text.IntToString(n)
    case CBool(_) => "true"
  }

  /** The texts of the truthy inputs, in order. */
  function TruthyTexts(inputs: seq<ClassValue>): (r: seq<string>)
    ensures |r| <= |inputs|
    ensures forall i :: 0 <= i < |r| ==> r[i] != ""
  {
    if inputs == [] then []
    else (if ClassTruthy(inputs[0]) then [ClassText(inputs[0])] else []) + TruthyTexts(inputs[1..])
  }

  /** `inputs.filter(Boolean).join(" ")` */
  function Cn(inputs: seq<ClassValue>): string
  {
    Text.Join(TruthyTexts(inputs), ' ')
  }

  /** `cn` gives the empty text exactly when every input is falsy. */
  lemma {:induction false} CnEmptyIff(inputs: seq<ClassValue>)
    ensures Cn(inputs) == "" <==> forall i :: 0 <= i < |inputs| ==> !ClassTruthy(inputs[i])
  {
    TruthyTextsEmptyIff(inputs);
    var texts := TruthyTexts(inputs);
    if texts != [] {
      JoinNonEmpty(texts);
    }
  }

  lemma {:induction false} TruthyTextsEmptyIff(inputs: seq<ClassValue>)
    ensures TruthyTexts(inputs) == [] <==> forall i :: 0 <= i < |inputs| ==> !ClassTruthy(inputs[i])
  {
    if inputs != [] {
      TruthyTextsEmptyIff(inputs[1..]);
      if !ClassTruthy(inputs[0]) {
        forall i | 1 <= i < |inputs| ensures inputs[i] == inputs[1..][i - 1] { }
      }
    }
  }

  /** Joining non-empty pieces, at least one, gives a non-empty text. */
  lemma JoinNonEmpty(parts: seq<string>)
    requires |parts| >= 1 && parts[0] != ""
    ensures Text.Join(parts, ' ') != ""
  {
    if |parts| >= 2 {
      assert Text.Join(parts, ' ')[0] == parts[0][0];
    }
  }

  /** When no class text holds a space, splitting the result of `cn` at the
      spaces gives back the truthy inputs' texts, in order: each truthy input
      appears once, separated by single spaces. */
  lemma CnSplits(inputs: seq<ClassValue>)
    requires exists i :: 0 <= i < |inputs| && ClassTruthy(inputs[i])
    requires forall i :: 0 <= i < |inputs| && ClassTruthy(inputs[i]) ==> ' ' !in ClassText(inputs[i])
    ensures Text.Split(Cn(inputs), ' ') == TruthyTexts(inputs)
  {
    TruthyTextsEmptyIff(inputs);
    TruthyTextsNoSeparator(inputs);
    Text.SplitJoin(TruthyTexts(inputs), ' ');
  }

  lemma {:induction false} TruthyTextsNoSeparator(inputs: seq<ClassValue>)
    requires forall i :: 0 <= i < |inputs| && ClassTruthy(inputs[i]) ==> ' ' !in ClassText(inputs[i])
    ensures forall k :: 0 <= k < |TruthyTexts(inputs)| ==> ' ' !in TruthyTexts(inputs)[k]
  {
    if inputs != [] {
      assert forall i :: 1 <= i < |inputs| ==> inputs[1..][i - 1] == inputs[i];
      TruthyTextsNoSeparator(inputs[1..]);
    }
  }

  // ---------------------------------------------------------------------------
  // Tools

  datatype Tool = Tool(id: string, name: string, shortName: string, extra: Option<string>)

  const ToolsList: seq<Tool> := [
    Tool("createImage", "Create an image", "Image", None),
    Tool("searchWeb", "Search the web", "Search", None),
    Tool("writeCode", "Write or code", "Write", None),
    Tool("deepResearch", "Run deep research", "Deep Search", Some("5 left")),
    Tool("thinkLonger", "Think for longer", "Think", None)
  ]

  predicate DistinctIds(tools: seq<Tool>)
  {
    forall i, j :: 0 <= i < j < |tools| ==> tools[i].id != tools[j].id
  }

  /** `tools.find(t => t.id === id)`: the first entry with that id. */
  function Find(tools: seq<Tool>, id: string): (r: Option<Tool>)
    ensures r.Some? ==> r.value in tools && r.value.id == id
    ensures r.None? ==> forall i :: 0 <= i < |tools| ==> tools[i].id != id
  {
    if tools == [] then None
    else if tools[0].id == id then Some(tools[0])
    else Find(tools[1..], id)
  }

  /** With distinct ids, the lookup of an entry's id yields that entry. */
  lemma {:induction false} FindDistinct(tools: seq<Tool>, i: nat)
    requires DistinctIds(tools) && i < |tools|
    ensures Find(tools, tools[i].id) == Some(tools[i])
  {
    if i > 0 {
      assert tools[1..][i - 1] == tools[i];
      FindDistinct(tools[1..], i - 1);
    }
  }

  lemma ToolsListDistinct()
    ensures DistinctIds(ToolsList)
  {
  }

  /** `selectedTool ? toolsList.find(..) : null` */
  function ActiveTool(selectedTool: Option<string>): (r: Option<Tool>)
    ensures selectedTool.None? || selectedTool == Some("") ==> r.None?
    ensures r.Some? ==> r.value in ToolsList && Some(r.value.id) == selectedTool
  {
    if selectedTool.Some? && selectedTool.value != "" then Find(ToolsList, selectedTool.value) else None
  }

  /** A selected id names its entry in the list; an id outside the list gives
      no active tool. */
  lemma ActiveToolOfList(i: nat, id: string)
    requires i < |ToolsList|
    ensures ActiveTool(Some(ToolsList[i].id)) == Some(ToolsList[i])
    ensures (forall k :: 0 <= k < |ToolsList| ==> ToolsList[k].id != id) ==> ActiveTool(Some(id)) == None
  {
    ToolsListDistinct();
    FindDistinct(ToolsList, i);
  }

  // ---------------------------------------------------------------------------
  // Text, image and submit rules

  /** The textarea height: the content height, capped at 200 pixels. */
  function TextareaHeight(scrollHeight: nat): (h: nat)
    ensures h <= 200 && h <= scrollHeight
    ensures h == scrollHeight || h == 200
  {
    if scrollHeight < 200 then scrollHeight else 200
  }

  predicate Truthy(o: Option<string>)
  {
    o.Some? && o.value != ""
  }

  /** `hasValue`, which enables the send button. */
  function HasValue(value: string, imagePreview: Option<string>): (b: bool)
    ensures b <==> !Text.AllWhitespace(value) || Truthy(imagePreview)
  {
    Text.TrimEmptyIff(value);
    |Text.Trim(value)| > 0 || Truthy(imagePreview)
  }

  /** What `onSubmit` receives from handleSubmit, if it is called. */
  function Submitted(value: string, hasOnSubmit: bool): (r: Option<string>)
    ensures r.Some? <==> !Text.AllWhitespace(value) && hasOnSubmit
    ensures r.Some? ==> r.value == Text.Trim(value) && r.value != ""
  {
    Text.TrimEmptyIff(value);
    if Text.Trim(value) != "" && hasOnSubmit then Some(Text.Trim(value)) else None
  }

  /** An image alone enables the button, but submitting it sends nothing. */
  lemma ImageAloneIsNotSent(value: string, image: string, hasOnSubmit: bool)
    requires Text.AllWhitespace(value) && image != ""
    ensures HasValue(value, Some(image))
    ensures Submitted(value, hasOnSubmit) == None
  {
  }

  /** The text sent has no whitespace at either end and is the input with its
      surrounding whitespace cut off. */
  lemma SubmittedIsTrimmed(value: string, hasOnSubmit: bool)
    requires Submitted(value, hasOnSubmit).Some?
    ensures var sent := Submitted(value, hasOnSubmit).value;
      !Text.IsWhitespace(sent[0]) && !Text.IsWhitespace(sent[|sent| - 1])
      && Text.Trim(sent) == sent
  {
    Text.TrimShape(value);
    Text.TrimIdempotent(value);
  }

  /** The file picker's choice: absent, or a file with its MIME type. */
  datatype PickedFile = PickedFile(mimeType: string)

  predicate IsImage(f: PickedFile)
  {
    Text.StartsWith(f.mimeType, "image/")
  }

  datatype KeyOutcome = KeyOutcome(preventDefault: bool, submitted: Option<string>)

  // ---------------------------------------------------------------------------
  // The component instance

  class PromptBox {
    var value: string
    var imagePreview: Option<string>
    var selectedTool: Option<string>
    var isPopoverOpen: bool
    var fileInputValue: string
    /** Image reads started by handleFileChange whose `loadend` is still due. */
    var pendingImageReads: nat

    constructor ()
      ensures value == "" && imagePreview == None && selectedTool == None && !isPopoverOpen
      ensures fileInputValue == "" && pendingImageReads == 0
    {
      value := "";
      imagePreview := None;
      selectedTool := None;
      isPopoverOpen := false;
      fileInputValue := "";
      pendingImageReads := 0;
    }

    method HandleInputChange(newValue: string)
      modifies this
      ensures value == newValue
      ensures imagePreview == old(imagePreview) && selectedTool == old(selectedTool)
      ensures fileInputValue == old(fileInputValue) && pendingImageReads == old(pendingImageReads)
      ensures isPopoverOpen == old(isPopoverOpen)
    {
      value := newValue;
    }

    /** handleSubmit: with a non-blank text and a handler, sends the trimmed
        text and clears the text and the image; otherwise changes nothing. */
    method HandleSubmit(hasOnSubmit: bool) returns (submitted: Option<string>)
      modifies this
      ensures submitted == Submitted(old(value), hasOnSubmit)
      ensures submitted.Some? ==> value == "" && imagePreview == None
      ensures submitted.None? ==> value == old(value) && imagePreview == old(imagePreview)
      ensures selectedTool == old(selectedTool) && fileInputValue == old(fileInputValue)
      ensures pendingImageReads == old(pendingImageReads) && isPopoverOpen == old(isPopoverOpen)
    {
      var trimmed := Text.Trim(value);
      submitted := None;
      if trimmed != "" && hasOnSubmit {
        submitted := Some(trimmed);
        value := "";
        imagePreview := None;
      }
      Text.TrimEmptyIff(old(value));
    }

    /** handleKeyDown: Enter without Shift submits (and suppresses the new
        line); any other key, Shift+Enter included, does nothing here. */
    method HandleKeyDown(key: string, shiftKey: bool, hasOnSubmit: bool) returns (outcome: KeyOutcome)
      modifies this
      ensures outcome.preventDefault <==> key == "Enter" && !shiftKey
      ensures outcome.preventDefault ==> outcome.submitted == Submitted(old(value), hasOnSubmit)
      ensures !outcome.preventDefault ==> outcome.submitted == None && value == old(value)
                                          && imagePreview == old(imagePreview)
      ensures outcome.submitted.Some? ==> value == "" && imagePreview == None
      ensures outcome.submitted.None? ==> value == old(value) && imagePreview == old(imagePreview)
      ensures selectedTool == old(selectedTool) && fileInputValue == old(fileInputValue)
      ensures pendingImageReads == old(pendingImageReads) && isPopoverOpen == old(isPopoverOpen)
    {
      if key == "Enter" && !shiftKey {
        var submitted := HandleSubmit(hasOnSubmit);
        outcome := KeyOutcome(true, submitted);
      } else {
        outcome := KeyOutcome(false, None);
      }
    }

    /** handleFileChange: only an image starts a read into the preview; the
        file input is cleared in every case. */
    method HandleFileChange(file: Option<PickedFile>)
      modifies this
      ensures fileInputValue == ""
      ensures pendingImageReads == old(pendingImageReads) + (if file.Some? && IsImage(file.value) then 1 else 0)
      ensures value == old(value) && imagePreview == old(imagePreview) && selectedTool == old(selectedTool)
      ensures isPopoverOpen == old(isPopoverOpen)
    {
      if file.Some? && Text.StartsWith(file.value.mimeType, "image/") {
        pendingImageReads := pendingImageReads + 1;
      }
      fileInputValue := "";
    }

    /** The image reader's `loadend`: the preview becomes `reader.result`,
        the data URL read, or `null` when the read failed. */
    method OnImageLoadEnd(result: Option<string>)
      modifies this
      ensures old(pendingImageReads) > 0 ==>
                imagePreview == result && pendingImageReads == old(pendingImageReads) - 1
      ensures old(pendingImageReads) == 0 ==>
                imagePreview == old(imagePreview) && pendingImageReads == 0
      ensures value == old(value) && selectedTool == old(selectedTool) && fileInputValue == old(fileInputValue)
      ensures isPopoverOpen == old(isPopoverOpen)
    {
      if pendingImageReads > 0 {
        imagePreview := result;
        pendingImageReads := pendingImageReads - 1;
      }
    }

    /** handleRemoveImage: clears the preview and the file input, and nothing
        else. This is the click the button is meant to cause. */
    method HandleRemoveImage()
      modifies this
      ensures imagePreview == None && fileInputValue == ""
      ensures value == old(value) && selectedTool == old(selectedTool)
      ensures pendingImageReads == old(pendingImageReads) && isPopoverOpen == old(isPopoverOpen)
    {
      imagePreview := None;
      fileInputValue := "";
    }

    /** The remove-image button as written: it has no `type`, so inside the
        form it is a submit button, and `stopPropagation` does not cancel the
        submission: handleRemoveImage runs, then handleSubmit. */
    method HandleRemoveImageAsWritten(hasOnSubmit: bool) returns (submitted: Option<string>)
      modifies this
      ensures submitted == Submitted(old(value), hasOnSubmit)
      ensures imagePreview == None && fileInputValue == ""
      ensures submitted.Some? ==> value == ""
      ensures submitted.None? ==> value == old(value)
      ensures selectedTool == old(selectedTool) && pendingImageReads == old(pendingImageReads)
      ensures isPopoverOpen == old(isPopoverOpen)
    {
      HandleRemoveImage();
      submitted := HandleSubmit(hasOnSubmit);
    }

    /** A tool entry of the picker: selects it and closes the popover. */
    method SelectTool(id: string)
      modifies this
      ensures selectedTool == Some(id) && !isPopoverOpen
      ensures value == old(value) && imagePreview == old(imagePreview)
      ensures fileInputValue == old(fileInputValue) && pendingImageReads == old(pendingImageReads)
    {
      selectedTool := Some(id);
      isPopoverOpen := false;
    }

    /** The active tool's chip: deselects it, and nothing else. This is the
        click the chip is meant to cause. */
    method ClearTool()
      modifies this
      ensures selectedTool == None && ActiveTool(selectedTool) == None
      ensures value == old(value) && imagePreview == old(imagePreview)
      ensures fileInputValue == old(fileInputValue) && pendingImageReads == old(pendingImageReads)
      ensures isPopoverOpen == old(isPopoverOpen)
    {
      selectedTool := None;
    }

    /** The chip as written: a button without `type` inside the form, so the
        click deselects the tool and then submits the form through
        handleSubmit. */
    method ClearToolAsWritten(hasOnSubmit: bool) returns (submitted: Option<string>)
      modifies this
      ensures submitted == Submitted(old(value), hasOnSubmit)
      ensures selectedTool == None
      ensures submitted.Some? ==> value == "" && imagePreview == None
      ensures submitted.None? ==> value == old(value) && imagePreview == old(imagePreview)
      ensures fileInputValue == old(fileInputValue) && pendingImageReads == old(pendingImageReads)
      ensures isPopoverOpen == old(isPopoverOpen)
    {
      ClearTool();
      submitted := HandleSubmit(hasOnSubmit);
    }
  }

  // ---------------------------------------------------------------------------
  // The implicit submissions

  /** A typed text, a tool picked, a click on the tool's chip: as written the
      click sends the trimmed text and empties the composer; the intended
      click only deselects the tool and keeps the text. */
  method ChipClickSubmits(text: string) returns (sentAsWritten: Option<string>, valueAsWritten: string,
                                                 valueIntended: string, toolIntended: Option<string>)
    requires !Text.AllWhitespace(text)
    ensures sentAsWritten == Some(Text.Trim(text)) && valueAsWritten == ""
    ensures valueIntended == text && toolIntended == None
  {
    var box := new PromptBox();
    box.HandleInputChange(text);
    box.SelectTool(ToolsList[0].id);
    sentAsWritten := box.ClearToolAsWritten(true);
    valueAsWritten := box.value;

    var intended := new PromptBox();
    intended.HandleInputChange(text);
    intended.SelectTool(ToolsList[0].id);
    intended.ClearTool();
    valueIntended := intended.value;
    toolIntended := intended.selectedTool;
  }

  /** A typed text, an image attached, a click on the image's remove button:
      as written the click also sends the trimmed text and empties the
      composer; the intended click only drops the image and keeps the text. */
  method RemoveImageClickSubmits(text: string, dataUrl: string)
    returns (sentAsWritten: Option<string>, valueAsWritten: string,
             valueIntended: string, imageIntended: Option<string>)
    requires !Text.AllWhitespace(text)
    ensures sentAsWritten == Some(Text.Trim(text)) && valueAsWritten == ""
    ensures valueIntended == text && imageIntended == None
  {
    var box := new PromptBox();
    box.HandleInputChange(text);
    box.HandleFileChange(Some(PickedFile("image/png")));
    box.OnImageLoadEnd(Some(dataUrl));
    sentAsWritten := box.HandleRemoveImageAsWritten(true);
    valueAsWritten := box.value;

    var intended := new PromptBox();
    intended.HandleInputChange(text);
    intended.HandleFileChange(Some(PickedFile("image/png")));
    intended.OnImageLoadEnd(Some(dataUrl));
    intended.HandleRemoveImage();
    valueIntended := intended.value;
    imageIntended := intended.imagePreview;
  }
}
