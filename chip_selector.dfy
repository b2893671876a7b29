/** The chip selector (ui/ChipSelector.tsx): a row of toggle buttons over a list of options, in a
    single-choice or a multiple-choice mode. It owns no state: a click computes the new selection
    and hands it to the parent. */
module ChipSelector {

  import opened Lists

  /** An option as the parent passes it: a bare string, or a value with its own label. */
  datatype ChipOption = Plain(text: string) | Labelled(value: string, caption: string)

  /** An option after normalisation (the source calls the caption `label`, a Dafny keyword). */
  datatype Chip = Chip(value: string, caption: string)

  /** The `selected` prop: a string or an array of strings. */
  datatype Selection = One(value: string) | Many(values: seq<string>)

  function NormalizeOne(o: ChipOption): Chip
  {
    match o
    case Plain(s) => Chip(s, s)
    case Labelled(v, c) => Chip(v, c)
  }

  /** The options as value/label pairs, in the order given. */
  function Normalize(options: seq<ChipOption>): (chips: seq<Chip>)
    ensures |chips| == |options|
    ensures forall i :: 0 <= i < |options| && options[i].Plain? ==>
              chips[i].value == options[i].text && chips[i].caption == options[i].text
    ensures forall i :: 0 <= i < |options| && options[i].Labelled? ==>
              chips[i].value == options[i].value && chips[i].caption == options[i].caption
  {
    seq(|options|, i requires 0 <= i < |options| => NormalizeOne(options[i]))
  }

  /** The selection as a list in multiple mode (a non-array selection counts as empty), and the
      non-empty selected string in single mode. */
  function SelectedValues(multiple: bool, selected: Selection): (values: seq<string>)
    requires multiple || selected.One?
    ensures multiple && selected.Many? ==> values == selected.values
    ensures multiple && selected.One? ==> values == []
    ensures !multiple ==> (values == [] <==> selected.value == "")
    ensures !multiple && selected.value != "" ==> values == [selected.value]
  {
    if multiple then
      (match selected
       case Many(vs) => vs
       case One(_) => [])
    else if selected.value == "" then [] else [selected.value]
  }

  /** The selection a click on `value` emits. */
  function Click(multiple: bool, selected: Selection, value: string): Selection
  {
    if multiple then
      var current := match selected case Many(vs) => vs case One(_) => [];
      Many(Toggle(current, value))
    else
      One(value)
  }

  /** Whether the chip for `value` is drawn as selected. */
  function IsSelected(multiple: bool, selected: Selection, value: string): bool
  {
    if multiple then
      (match selected
       case Many(vs) => value in vs
       case One(_) => false)
    else
      selected == One(value)
  }

  /** In multiple mode a click on a selected value removes all its occurrences, a click on an
      unselected value appends it at the end, and no other value changes state. */
  lemma ClickMultiple(selected: Selection, value: string)
    ensures var r := Click(true, selected, value);
      && r.Many?
      && (IsSelected(true, selected, value) ==> value !in r.values)
      && (!IsSelected(true, selected, value) ==>
            r.values == SelectedValues(true, selected) + [value])
      && forall other :: other != value ==>
           (IsSelected(true, r, other) <==> IsSelected(true, selected, other))
  {
    var current := SelectedValues(true, selected);
    RemoveAllSpec(current, value);
    ToggleMembership(current, value);
  }

  /** In multiple mode, two clicks on a value that is not selected restore the selection. */
  lemma ClickTwiceRestores(selected: seq<string>, value: string)
    requires value !in selected
    ensures Click(true, Click(true, Many(selected), value), value) == Many(selected)
  {
    ToggleTwice(selected, value);
  }

  /** In single mode a click selects exactly the clicked value, and clicking the value already
      selected keeps it selected. */
  lemma ClickSingle(selected: Selection, value: string)
    ensures Click(false, selected, value) == One(value)
    ensures IsSelected(false, Click(false, selected, value), value)
    ensures forall other :: other != value ==> !IsSelected(false, Click(false, selected, value), other)
  {
  }

  /** The selected-state test is membership of the selection list in multiple mode and equality
      with the selected string in single mode. */
  lemma IsSelectedMeaning(multiple: bool, selected: Selection, value: string)
    requires multiple || selected.One?
    ensures multiple ==> (IsSelected(multiple, selected, value) <==> value in SelectedValues(multiple, selected))
    ensures !multiple ==> (IsSelected(multiple, selected, value) <==> selected.value == value)
  {
  }
}
