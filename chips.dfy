/** The chip synchroniser (`updateChipSelection`): each chip's `selected` flag is
    recomputed from the first input inside it. */
module Chips {
  import opened Wrappers
  import opened Form

  /** A chip: the index of the first input inside it (None if it holds none), and
      whether it carries the `selected` class. */
  datatype Chip = Chip(input: Option<nat>, selected: bool)

  predicate ChipInRange(c: Chip, n: nat)
  {
    c.input.Some? ==> c.input.value < n
  }

  /** `document.querySelector('input[name="…"]:checked')`: the index of the first
      checked checkbox or radio button carrying that name, from position `from` on. */
  function FirstCheckedFrom(inputs: seq<Input>, name: string, from: nat): (r: Option<nat>)
    requires from <= |inputs|
    ensures r.Some? ==> from <= r.value < |inputs| && IsCheckedNamed(inputs[r.value], name)
    ensures r.Some? ==> forall k :: from <= k < r.value ==> !IsCheckedNamed(inputs[k], name)
    ensures r.None? ==> forall k :: from <= k < |inputs| ==> !IsCheckedNamed(inputs[k], name)
    decreases |inputs| - from
  {
    if from == |inputs| then None
    else if IsCheckedNamed(inputs[from], name) then Some(from)
    else FirstCheckedFrom(inputs, name, from + 1)
  }

  function FirstChecked(inputs: seq<Input>, name: string): Option<nat>
  {
    FirstCheckedFrom(inputs, name, 0)
  }

  /** One chip after synchronisation. A radio chip is selected iff its input has a name
      and is the first checked input of that name (the selector `[name=""]` never
      matches an input without a `name` attribute); a checkbox chip iff its input is
      checked; any other chip keeps its flag. The chip's input is never changed. */
  function SyncChip(inputs: seq<Input>, c: Chip): (r: Chip)
    requires ChipInRange(c, |inputs|)
    ensures r.input == c.input
  {
    match c.input
    case None => c
    case Some(k) =>
      if inputs[k].kind == Radio then
        c.(selected := inputs[k].name != "" && FirstChecked(inputs, inputs[k].name) == Some(k))
      else if inputs[k].kind == Checkbox then c.(selected := inputs[k].checked)
      else c
  }

  /** The chip's flag reflects its input, as the synchroniser defines it. */
  predicate Agrees(inputs: seq<Input>, c: Chip)
  {
    match c.input
    case None => true
    case Some(k) =>
      k < |inputs| &&
      (inputs[k].kind == Checkbox ==> c.selected == inputs[k].checked) &&
      (inputs[k].kind == Radio ==>
         (c.selected <==>
            inputs[k].name != "" && inputs[k].checked &&
            forall j :: 0 <= j < k ==> !IsCheckedNamed(inputs[j], inputs[k].name)))
  }

  predicate AllInRange(inputs: seq<Input>, cs: seq<Chip>)
  {
    forall j :: 0 <= j < |cs| ==> ChipInRange(cs[j], |inputs|)
  }

  /** Every chip agrees with its input. */
  predicate AllAgree(inputs: seq<Input>, cs: seq<Chip>)
  {
    forall j :: 0 <= j < |cs| ==> Agrees(inputs, cs[j])
  }

  /** All chips after one run of the synchroniser. */
  function SyncAll(inputs: seq<Input>, cs: seq<Chip>): (r: seq<Chip>)
    requires AllInRange(inputs, cs)
    ensures |r| == |cs|
  {
    seq(|cs|, j requires 0 <= j < |cs| => SyncChip(inputs, cs[j]))
  }

  /** A synchronised chip agrees with its input; a chip with no input, or with an input
      that is neither a checkbox nor a radio button, keeps its flag. */
  lemma SyncChipAgrees(inputs: seq<Input>, c: Chip)
    requires ChipInRange(c, |inputs|)
    ensures Agrees(inputs, SyncChip(inputs, c))
    ensures c.input.None? || inputs[c.input.value].kind == OtherKind ==> SyncChip(inputs, c) == c
  {
    if c.input.Some? && inputs[c.input.value].kind == Radio {
      var k := c.input.value;
      var f := FirstChecked(inputs, inputs[k].name);
      if f.Some? && f.value < k {
        assert IsCheckedNamed(inputs[f.value], inputs[k].name);
      }
    }
  }

  /** A chip that already agrees with its input is left as it is. */
  lemma AgreeingChipUnchanged(inputs: seq<Input>, c: Chip)
    requires ChipInRange(c, |inputs|) && Agrees(inputs, c)
    ensures SyncChip(inputs, c) == c
  {
    if c.input.Some? && inputs[c.input.value].kind == Radio {
      var k := c.input.value;
      var f := FirstChecked(inputs, inputs[k].name);
      if f.Some? && f.value < k {
        assert IsCheckedNamed(inputs[f.value], inputs[k].name);
      }
    }
  }

  /** After synchronising, every chip agrees with its input. */
  lemma SyncAllAgrees(inputs: seq<Input>, cs: seq<Chip>)
    requires AllInRange(inputs, cs)
    ensures AllAgree(inputs, SyncAll(inputs, cs))
  {
    forall j | 0 <= j < |cs| ensures Agrees(inputs, SyncAll(inputs, cs)[j]) {
      SyncChipAgrees(inputs, cs[j]);
    }
  }

  /** Synchronising chips that all agree with their inputs changes nothing. */
  lemma SyncAllFixesAgreeing(inputs: seq<Input>, cs: seq<Chip>)
    requires AllInRange(inputs, cs) && AllAgree(inputs, cs)
    ensures SyncAll(inputs, cs) == cs
  {
    forall j | 0 <= j < |cs| ensures SyncAll(inputs, cs)[j] == cs[j] {
      AgreeingChipUnchanged(inputs, cs[j]);
    }
  }

  /** Running the synchroniser twice with no input change in between gives what one run gives. */
  lemma SyncIdempotent(inputs: seq<Input>, cs: seq<Chip>)
    requires AllInRange(inputs, cs)
    ensures AllInRange(inputs, SyncAll(inputs, cs))
    ensures SyncAll(inputs, SyncAll(inputs, cs)) == SyncAll(inputs, cs)
  {
    SyncAllAgrees(inputs, cs);
    SyncAllFixesAgreeing(inputs, SyncAll(inputs, cs));
  }

  /** Two chips on different radio buttons of one name are never both selected after
      synchronising. */
  lemma RadioGroupSelectsAtMostOne(inputs: seq<Input>, c1: Chip, c2: Chip)
    requires ChipInRange(c1, |inputs|) && ChipInRange(c2, |inputs|)
    requires c1.input.Some? && c2.input.Some? && c1.input.value != c2.input.value
    requires inputs[c1.input.value].kind == Radio && inputs[c2.input.value].kind == Radio
    requires inputs[c1.input.value].name == inputs[c2.input.value].name
    ensures !(SyncChip(inputs, c1).selected && SyncChip(inputs, c2).selected)
  {
  }

  /** A radio button without a name never selects its chip, checked or not. */
  lemma NamelessRadioNeverSelected(inputs: seq<Input>, c: Chip)
    requires ChipInRange(c, |inputs|) && c.input.Some?
    requires inputs[c.input.value].kind == Radio && inputs[c.input.value].name == ""
    ensures !SyncChip(inputs, c).selected
  {
  }
}
