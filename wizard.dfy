/** The wizard as the page runs it: the sections, pills, inputs and chips it updates in
    place, the state of the back and forward buttons, and the handlers that change them. */
module Wizard {
  import opened Wrappers
  import opened Navigation
  import opened Form
  import opened Chips
  import opened Payload
  import opened Submission

  const SUBMITTING_LABEL: string := "Submitting..."

  class WizardSession {
    /** The number of sections, and each section's `data-title` ("" when absent). */
    const totalSteps: nat
    const titles: seq<string>
    /** Each pill's `data-step`. */
    const pillTargets: seq<nat>
    /** What `form.reset()` restores each input to. */
    const defaults: seq<Input>

    /** The `active` class of each section, and the `active` and `completed` classes of each pill. */
    const sectionActive: array<bool>
    const pillActive: array<bool>
    const pillCompleted: array<bool>
    /** The form's inputs in document order, and the chips. */
    const inputs: array<Input>
    const chips: array<Chip>

    var currentStep: nat
    /** The percentage shown by the progress bar and its readout. */
    var progress: nat
    var stepLabel: string
    /** Whether the back button is visible. */
    var prevVisible: bool
    /** The forward button's text, and whether it is disabled. */
    var nextLabel: string
    var nextDisabled: bool

    /** The structure fixed at load time, and the step cursor in range. */
    ghost predicate Wf()
      reads this, chips
    {
      && totalSteps == |titles| && totalSteps >= 1
      && sectionActive.Length == totalSteps
      && pillActive.Length == |pillTargets| && pillCompleted.Length == |pillTargets|
      && sectionActive != pillActive && sectionActive != pillCompleted && pillActive != pillCompleted
      && inputs.Length == |defaults|
      && (forall j :: 0 <= j < chips.Length ==> ChipInRange(chips[j], inputs.Length))
      && currentStep < totalSteps
    }

    /** Everything `showStep(i)` derives is on display for step i. */
    ghost predicate Shows(i: nat)
      reads this, sectionActive, pillActive, pillCompleted
    {
      && i < totalSteps == |titles| == sectionActive.Length
      && pillActive.Length == pillCompleted.Length
      && sectionActive[..] == ActiveFlags(totalSteps, i)
      && pillActive[..] == ActiveFlags(pillActive.Length, i)
      && pillCompleted[..] == CompletedFlags(pillCompleted.Length, i)
      && progress == Progress(i, totalSteps)
      && stepLabel == StepLabel(i, totalSteps, titles[i])
      && prevVisible == (i != 0)
    }

    ghost predicate Valid()
      reads this, sectionActive, pillActive, pillCompleted, chips
    {
      && Wf()
      && Shows(currentStep)
      && nextLabel in {NextLabel(currentStep, totalSteps), SUBMIT_LABEL, SUBMITTING_LABEL}
    }

    /** Whether input k is (the first input of) a chip. */
    predicate InChip(k: nat)
      reads chips
    {
      exists j :: 0 <= j < chips.Length && chips[j].input == Some(k)
    }

    /** Page initialisation: the first section is shown and the chips are synchronised. */
    constructor (titles: seq<string>, pillTargets: seq<nat>, defaults: seq<Input>, initialChips: seq<Chip>)
      requires |titles| >= 1
      requires AllInRange(defaults, initialChips)
      ensures Valid()
      ensures this.titles == titles && this.pillTargets == pillTargets && this.defaults == defaults
      ensures fresh(sectionActive) && fresh(pillActive) && fresh(pillCompleted) && fresh(inputs) && fresh(chips)
      ensures currentStep == 0 && nextLabel == NextLabel(0, totalSteps) && !nextDisabled
      ensures inputs[..] == defaults
      ensures chips[..] == SyncAll(defaults, initialChips)
    {
      totalSteps := |titles|;
      this.titles := titles;
      this.pillTargets := pillTargets;
      this.defaults := defaults;
      sectionActive := new bool[|titles|];
      pillActive := new bool[|pillTargets|];
      pillCompleted := new bool[|pillTargets|];
      inputs := new Input[|defaults|](k requires 0 <= k < |defaults| => defaults[k]);
      chips := new Chip[|initialChips|](k requires 0 <= k < |initialChips| => initialChips[k]);
      currentStep, progress, stepLabel, prevVisible := 0, 0, "", false;
      nextLabel, nextDisabled := "", false;
      new;
      assert inputs[..] == defaults && chips[..] == initialChips;
      ShowStep(0);
      UpdateChipSelection();
    }

    /** `showStep`: activates section i alone, updates the progress, the label, both
        buttons and the pills, and moves the cursor to i. */
    method ShowStep(i: nat)
      requires Wf() && i < totalSteps
      modifies this, sectionActive, pillActive, pillCompleted
      ensures Valid()
      ensures currentStep == i && Shows(i)
      ensures nextLabel == NextLabel(i, totalSteps) && nextDisabled == old(nextDisabled)
    {
      for idx := 0 to sectionActive.Length
        modifies sectionActive
        invariant forall k :: 0 <= k < idx ==> sectionActive[k] == (k == i)
      {
        sectionActive[idx] := idx == i;
      }
      stepLabel := StepLabel(i, totalSteps, titles[i]);
      progress := Progress(i, totalSteps);
      prevVisible := i != 0;
      nextLabel := NextLabel(i, totalSteps);
      for idx := 0 to pillActive.Length
        modifies pillActive, pillCompleted
        invariant forall k :: 0 <= k < idx ==> pillActive[k] == (k == i) && pillCompleted[k] == (k < i)
      {
        pillActive[idx] := idx == i;
        pillCompleted[idx] := idx < i;
      }
      currentStep := i;
      assert sectionActive[..] == ActiveFlags(totalSteps, i);
      assert pillActive[..] == ActiveFlags(pillActive.Length, i);
      assert pillCompleted[..] == CompletedFlags(pillCompleted.Length, i);
    }

    /** `updateChipSelection`: every chip is synchronised with its input. */
    method UpdateChipSelection()
      requires Wf()
      modifies chips
      ensures Wf()
      ensures chips[..] == SyncAll(inputs[..], old(chips[..]))
      ensures AllAgree(inputs[..], chips[..])
    {
      for j := 0 to chips.Length
        invariant forall k :: 0 <= k < j ==> chips[k] == SyncChip(inputs[..], old(chips[k]))
        invariant forall k :: j <= k < chips.Length ==> chips[k] == old(chips[k])
      {
        chips[j] := SyncChip(inputs[..], chips[j]);
      }
      assert chips[..] == SyncAll(inputs[..], old(chips[..]));
      SyncAllAgrees(inputs[..], old(chips[..]));
    }

    /** An input is edited, then the `change` listener runs: the chips are synchronised
        when the input belongs to a chip. */
    method ChangeInput(k: nat, value: string, checked: bool)
      requires Valid() && k < inputs.Length
      modifies inputs, chips
      ensures Valid()
      ensures inputs[..] == old(inputs[..])[k := old(inputs[k]).(value := value, checked := checked)]
      ensures old(InChip(k)) ==> chips[..] == SyncAll(inputs[..], old(chips[..]))
      ensures !old(InChip(k)) ==> chips[..] == old(chips[..])
    {
      inputs[k] := inputs[k].(value := value, checked := checked);
      if InChip(k) {
        UpdateChipSelection();
      }
    }

    /** The back button: one step back, except on the first step. */
    method Prev()
      requires Valid()
      modifies this, sectionActive, pillActive, pillCompleted
      ensures Valid()
      ensures nextDisabled == old(nextDisabled)
      ensures Navigate(old(currentStep), totalSteps, Back) == Stay ==>
                unchanged(this) && unchanged(sectionActive, pillActive, pillCompleted)
      ensures Navigate(old(currentStep), totalSteps, Back).Go? ==>
                Navigate(old(currentStep), totalSteps, Back) == Go(currentStep) && nextLabel == NextLabel(currentStep, totalSteps)
    {
      if currentStep > 0 {
        ShowStep(currentStep - 1);
      }
    }

    /** A pill click: the pill's step is shown when it is not ahead of the current one. */
    method ClickPill(p: nat)
      requires Valid() && p < |pillTargets|
      modifies this, sectionActive, pillActive, pillCompleted
      ensures Valid()
      ensures nextDisabled == old(nextDisabled)
      ensures Navigate(old(currentStep), totalSteps, Jump(pillTargets[p])) == Stay ==>
                unchanged(this) && unchanged(sectionActive, pillActive, pillCompleted)
      ensures Navigate(old(currentStep), totalSteps, Jump(pillTargets[p])).Go? ==>
                Navigate(old(currentStep), totalSteps, Jump(pillTargets[p])) == Go(currentStep)
                && nextLabel == NextLabel(currentStep, totalSteps)
    {
      var target := pillTargets[p];
      if target <= currentStep {
        ShowStep(target);
      }
    }

    /** The forward button: the next step, or on the last step the start of a submission.
        A disabled button receives no click. */
    method Next() returns (request: Option<Payload>)
      requires Valid()
      modifies this, sectionActive, pillActive, pillCompleted
      ensures Valid()
      ensures old(nextDisabled) ==>
                request == None && unchanged(this) && unchanged(sectionActive, pillActive, pillCompleted)
      ensures !old(nextDisabled) && Navigate(old(currentStep), totalSteps, Forward).Go? ==>
                Navigate(old(currentStep), totalSteps, Forward) == Go(currentStep)
                && request == None && !nextDisabled && nextLabel == NextLabel(currentStep, totalSteps)
      ensures !old(nextDisabled) && Navigate(old(currentStep), totalSteps, Forward) == Submit ==>
                request == Some(Aggregate(FormEntries(inputs[..])))
                && currentStep == old(currentStep) && progress == old(progress) && stepLabel == old(stepLabel)
                && prevVisible == old(prevVisible) && unchanged(sectionActive, pillActive, pillCompleted)
                && nextDisabled && nextLabel == SUBMITTING_LABEL
    {
      if nextDisabled {
        return None;
      }
      if currentStep < totalSteps - 1 {
        ShowStep(currentStep + 1);
        request := None;
      } else {
        var payload := BeginSubmit();
        request := Some(payload);
      }
    }

    /** The start of `submitForm`: the payload is built and the forward button locked. */
    method BeginSubmit() returns (payload: Payload)
      requires Valid()
      modifies this`nextDisabled, this`nextLabel
      ensures Valid()
      ensures payload == Aggregate(FormEntries(inputs[..]))
      ensures nextDisabled && nextLabel == SUBMITTING_LABEL
    {
      payload := BuildPayload(FormEntries(inputs[..]));
      nextDisabled := true;
      nextLabel := SUBMITTING_LABEL;
    }

    /** `form.reset()`: every input back to its default. */
    method ResetForm()
      requires Wf()
      modifies inputs
      ensures inputs[..] == defaults
    {
      forall k | 0 <= k < inputs.Length {
        inputs[k] := defaults[k];
      }
    }

    /** The end of `submitForm`, once the reply is in: on success the form, the chips and
        the step are reset; on failure nothing is; either way the forward button is
        unlocked and labelled "Submit". Returns the notice shown to the operator. */
    method CompleteSubmit(reply: Reply) returns (notice: string)
      requires Valid()
      modifies this, sectionActive, pillActive, pillCompleted, inputs, chips
      ensures Valid()
      ensures notice == Notice(Classify(reply))
      ensures !nextDisabled && nextLabel == SUBMIT_LABEL
      ensures Classify(reply).Success? ==>
                currentStep == 0 && Shows(0)
                && inputs[..] == defaults
                && chips[..] == SyncAll(defaults, old(chips[..])) && AllAgree(defaults, chips[..])
      ensures Classify(reply).Failure? ==>
                currentStep == old(currentStep) && progress == old(progress) && stepLabel == old(stepLabel)
                && prevVisible == old(prevVisible)
                && unchanged(sectionActive, pillActive, pillCompleted, inputs, chips)
    {
      var outcome := Classify(reply);
      if outcome.Success? {
        notice := SUCCESS_NOTICE;
        ResetForm();
        UpdateChipSelection();
        ShowStep(0);
      } else {
        notice := ERROR_NOTICE_PREFIX + outcome.message;
      }
      nextDisabled := false;
      nextLabel := SUBMIT_LABEL;
    }
  }
}
