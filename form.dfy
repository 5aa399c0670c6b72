/** The form's input elements, in document order, and the name/value entries the
    browser's `FormData` would list for them. */
module Form {

  datatype InputKind = Checkbox | Radio | OtherKind

  /** One input element: its type, `name`, `value` and `checked` state. */
  datatype Input = Input(kind: InputKind, name: string, value: string, checked: bool)

  /** Whether the input matches the selector `input[name="..."]:checked`:
      only a checkbox or a radio button can be `:checked`. */
  predicate IsCheckedNamed(inp: Input, name: string)
  {
    inp.name == name && (inp.kind == Checkbox || inp.kind == Radio) && inp.checked
  }

  /** Whether the input contributes an entry: it has a name, and if it is a checkbox
      or a radio button it is checked. */
  predicate Submits(inp: Input)
  {
    inp.name != "" && (inp.kind == OtherKind || inp.checked)
  }

  /** The `(name, value)` entries of the form, in document order. */
  function FormEntries(inputs: seq<Input>): (es: seq<(string, string)>)
    ensures |es| <= |inputs|
    ensures forall e :: e in es ==> exists k :: 0 <= k < |inputs| && Submits(inputs[k]) && e == (inputs[k].name, inputs[k].value)
    ensures forall k :: 0 <= k < |inputs| && Submits(inputs[k]) ==> (inputs[k].name, inputs[k].value) in es
  {
    if inputs == [] then []
    else
      var last := inputs[|inputs| - 1];
      FormEntries(inputs[..|inputs| - 1]) + (if Submits(last) then [(last.name, last.value)] else [])
  }
}
