/**
 * The editor of one project card: its name and description are edited in
 * place, tech tags can be added and deleted, and the card shows its position
 * as a two-digit label. Every change rebuilds the whole project and hands it
 * to the parent through `onSave`, modelled as the value each handler returns
 * (`None` when `onSave` is not called).
 */
module EditableProjectItem {
  import opened Wrappers
  import opened JsText
  import opened SeqEdit
  import Store

  type Project = Store.ProjectItem

  /** `handleUpdateName`: only the name changes. */
  function UpdateName(p: Project, value: string): (r: Project)
    ensures r.name == value && r.tech == p.tech && r.description == p.description
  {
    Store.ProjectItem(value, p.tech, p.description)
  }

  /** `handleUpdateDescription`: only the description changes. */
  function UpdateDescription(p: Project, value: string): (r: Project)
    ensures r.description == value && r.name == p.name && r.tech == p.tech
  {
    Store.ProjectItem(p.name, p.tech, value)
  }

  /** Name and description edits do not interfere, and saving a field's own value changes nothing. */
  lemma FieldUpdatesIndependent(p: Project, name: string, description: string)
    ensures UpdateName(UpdateDescription(p, description), name) == UpdateDescription(UpdateName(p, name), description)
    ensures UpdateName(p, p.name) == p && UpdateDescription(p, p.description) == p
  {
  }

  /** `handleDeleteTech`: the project without tag `techIndex`; name, description and the other tags' order are kept. */
  function DeleteTech(p: Project, techIndex: int): (r: Project)
    ensures r.name == p.name && r.description == p.description
    ensures 0 <= techIndex < |p.tech| ==> r.tech == p.tech[..techIndex] + p.tech[techIndex + 1..]
    ensures !(0 <= techIndex < |p.tech|) ==> r.tech == p.tech
  {
    RemoveIndexSplices(p.tech, techIndex);
    Store.ProjectItem(p.name, RemoveIndex(p.tech, techIndex), p.description)
  }

  /** `String(index + 1).padStart(2, "0")`: the card's one-based position, at least two digits. */
  function PositionLabel(index: nat): string {
    PadStart(DecimalString(index + 1), 2, '0')
  }

  /** The label is all digits, at least two of them, and reads back as the one-based position. */
  lemma PositionLabelReadsBack(index: nat)
    ensures |PositionLabel(index)| >= 2 && AllDigits(PositionLabel(index))
    ensures DecimalValue(PositionLabel(index)) == index + 1
    ensures index < 9 ==> PositionLabel(index) == ['0', DigitChar(index + 1)]
    ensures index >= 9 ==> PositionLabel(index) == DecimalString(index + 1)
  {
    var d := DecimalString(index + 1);
    var shown := PositionLabel(index);
    var z := shown[..|shown| - |d|];
    assert shown == z + d;
    LeadingZeros(z, d);
    DecimalRoundTrip(index + 1);
  }

  /** The card's own state: the "add tech" input. */
  class TechEditor {
    var isAddingTech: bool
    var newTech: string

    constructor()
      ensures !isAddingTech && newTech == []
    {
      isAddingTech := false;
      newTech := [];
    }

    /**
     * `handleAddTech`: a non-blank tag, trimmed, is appended to the project's
     * tags and the input is cleared and closed; a blank one saves nothing.
     */
    method HandleAddTech(p: Project) returns (saved: Option<Project>)
      modifies this
      ensures saved.Some? <==> AddTrimmed(p.tech, old(newTech)).Some?
      ensures saved.Some? ==> saved.value == Store.ProjectItem(p.name, AddTrimmed(p.tech, old(newTech)).value, p.description)
      ensures saved.Some? ==> newTech == [] && !isAddingTech
      ensures saved.None? ==> newTech == old(newTech) && isAddingTech == old(isAddingTech)
    {
      saved := None;
      if !IsBlank(newTech) {
        saved := Some(Store.ProjectItem(p.name, p.tech + [Trim(newTech)], p.description));
        newTech := [];
        isAddingTech := false;
      }
    }
  }
}
