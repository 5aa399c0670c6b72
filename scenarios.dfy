/** Client runs of the wizard: a three-section form driven to its last section and
    submitted, with the replies of a success, a declared error, a server error and an
    ok reply whose body does not parse. What is asserted follows from the contracts alone. */
module Scenarios {
  import opened Wrappers
  import opened Navigation
  import opened Form
  import opened Chips
  import opened Payload
  import opened Submission
  import opened Wizard

  /** Three sections, the second titled; two checkboxes sharing the name "topic"
      (the first inside a chip) and a text field. */
  method Setup() returns (w: WizardSession)
    ensures w.Valid() && fresh(w) && fresh(w.inputs) && fresh(w.chips)
    ensures fresh(w.sectionActive) && fresh(w.pillActive) && fresh(w.pillCompleted)
    ensures w.totalSteps == 3 && w.currentStep == 0 && !w.nextDisabled
    ensures w.inputs.Length == 3 && w.inputs[..] == w.defaults && w.chips.Length == 1
    ensures w.defaults == [Input(Checkbox, "topic", "a", false), Input(Checkbox, "topic", "b", false), Input(OtherKind, "color", "", false)]
    ensures w.chips[0].input == Some(0) && !w.chips[0].selected
    ensures w.pillTargets == [0, 1, 2] && w.titles == ["", "Contact", ""]
  {
    var defaults := [Input(Checkbox, "topic", "a", false), Input(Checkbox, "topic", "b", false), Input(OtherKind, "color", "", false)];
    w := new WizardSession(["", "Contact", ""], [0, 1, 2], defaults, [Chip(Some(0), true)]);
    assert w.chips[..] == SyncAll(defaults, [Chip(Some(0), true)]);
    assert w.chips[0] == SyncChip(defaults, Chip(Some(0), true));
  }

  const FILLED: seq<Input> := [Input(Checkbox, "topic", "a", true), Input(Checkbox, "topic", "b", true), Input(OtherKind, "color", "red", false)]

  /** Ticks both checkboxes and types into the text field. */
  method Fill(w: WizardSession)
    requires w.Valid() && w.inputs.Length == 3 && w.chips.Length == 1 && w.chips[0].input == Some(0)
    requires w.inputs[..] == w.defaults
    requires w.defaults == [Input(Checkbox, "topic", "a", false), Input(Checkbox, "topic", "b", false), Input(OtherKind, "color", "", false)]
    modifies w.inputs, w.chips
    ensures w.Valid() && w.inputs[..] == FILLED && w.chips[0] == Chip(Some(0), true)
  {
    assert w.InChip(0);
    w.ChangeInput(0, "a", true);
    assert w.chips[0] == SyncChip(w.inputs[..], old(w.chips[0]));
    w.ChangeInput(1, "b", true);
    w.ChangeInput(2, "red", false);
  }

  /** Walks forward to the last section, where Next starts the submission. */
  method WalkAndSubmit(w: WizardSession) returns (request: Option<Payload>)
    requires w.Valid() && w.totalSteps == 3 && w.currentStep == 0 && !w.nextDisabled
    requires w.titles == ["", "Contact", ""]
    modifies w, w.sectionActive, w.pillActive, w.pillCompleted
    ensures w.Valid() && w.currentStep == 2 && w.nextDisabled && w.nextLabel == SUBMITTING_LABEL
    ensures request == Some(Aggregate(FormEntries(w.inputs[..])))
  {
    var r := w.Next();
    assert w.currentStep == 1 && w.stepLabel == StepLabel(1, 3, "Contact");
    r := w.Next();
    assert w.currentStep == 2 && w.nextLabel == SUBMIT_LABEL;
    request := w.Next();
  }

  /** The filled form's payload: the two ticked boxes collect into a list. */
  lemma FilledPayload()
    ensures Aggregate(FormEntries(FILLED)) == map["topic" := Multi(["a", "b"]), "color" := Single("red")]
  {
    var es := [("topic", "a"), ("topic", "b"), ("color", "red")];
    assert FormEntries(FILLED) == es;
    assert es[..1] == [("topic", "a")] && es[..2][..1] == es[..1];
    assert Aggregate(es[..1]) == map["topic" := Single("a")];
    assert Aggregate(es[..2]) == map["topic" := Multi(["a", "b"])];
  }

  /** Fills in the form, then walks to the last section and starts the submission. */
  method FillAndSubmit(w: WizardSession) returns (request: Option<Payload>)
    requires w.Valid() && w.totalSteps == 3 && w.currentStep == 0 && !w.nextDisabled
    requires w.inputs.Length == 3 && w.chips.Length == 1 && w.chips[0].input == Some(0)
    requires w.inputs[..] == w.defaults && w.titles == ["", "Contact", ""]
    requires w.defaults == [Input(Checkbox, "topic", "a", false), Input(Checkbox, "topic", "b", false), Input(OtherKind, "color", "", false)]
    modifies w, w.sectionActive, w.pillActive, w.pillCompleted, w.inputs, w.chips
    ensures w.Valid() && w.currentStep == 2 && w.nextDisabled && w.nextLabel == SUBMITTING_LABEL
    ensures w.inputs[..] == FILLED && w.chips[0] == Chip(Some(0), true)
    ensures request == Some(map["topic" := Multi(["a", "b"]), "color" := Single("red")])
  {
    Fill(w);
    request := WalkAndSubmit(w);
    FilledPayload();
  }

  /** Success: the operator is thanked, the form is cleared and the first section is
      shown again, with the forward button unlocked and reading "Submit". */
  method SuccessScenario()
  {
    var w := Setup();
    var request := FillAndSubmit(w);
    var before := w.chips[..];
    var notice := w.CompleteSubmit(Response(200, "OK", Parsed(JObject(Some(JStr("success")), None))));
    assert notice == SUCCESS_NOTICE;
    assert w.currentStep == 0 && w.progress == Progress(0, 3) && !w.prevVisible;
    assert w.inputs[..] == w.defaults;
    assert w.chips[0] == SyncAll(w.defaults, before)[0] == SyncChip(w.defaults, Chip(Some(0), true));
    assert !w.chips[0].selected;
    assert !w.nextDisabled && w.nextLabel == SUBMIT_LABEL;
  }

  /** Declared error: the notice carries the body's message and nothing is reset. */
  method DeclaredErrorScenario()
  {
    var w := Setup();
    var request := FillAndSubmit(w);
    SheetLockedExample();
    var notice := w.CompleteSubmit(Response(200, "OK", Parsed(JObject(Some(JStr("error")), Some(JStr("Sheet locked"))))));
    assert notice == ERROR_NOTICE_PREFIX + "Sheet locked";
    assert w.currentStep == 2 && w.inputs[2].value == "red" && w.chips[0].selected;
    assert !w.nextDisabled && w.nextLabel == SUBMIT_LABEL;
  }

  /** Server error: the notice names status 500 and nothing is reset. */
  method ServerErrorScenario()
  {
    var w := Setup();
    var request := FillAndSubmit(w);
    ServerErrorExample();
    var notice := w.CompleteSubmit(Response(500, "Internal Server Error", Unparsable));
    assert notice == ERROR_NOTICE_PREFIX + "HTTP 500 Internal Server Error";
    assert w.currentStep == 2 && w.inputs[2].value == "red";
    assert !w.nextDisabled && w.nextLabel == SUBMIT_LABEL;
  }

  /** An ok reply whose body does not parse: treated as success, and the form is reset. */
  method UnparsableBodyScenario()
  {
    var w := Setup();
    var request := FillAndSubmit(w);
    var notice := w.CompleteSubmit(Response(200, "OK", Unparsable));
    assert notice == SUCCESS_NOTICE;
    assert w.currentStep == 0 && w.inputs[..] == w.defaults;
  }
}
