/**
 * The experience section of the portfolio page: it replaces, deletes and
 * appends whole experience entries, handing each new list to the parent
 * through `onUpdateExperience` (modelled as the value each handler
 * returns), and it hides itself when there is nothing to show.
 */
module ExperienceSection {
  import opened SeqEdit
  import Store

  type Entry = Store.ExperienceItem

  /** `handleUpdateItem`: a copy of the list with slot `index` overwritten by `data`. */
  method HandleUpdateItem(experience: seq<Entry>, index: nat, data: Entry) returns (updated: seq<Entry>)
    requires index < |experience|
    ensures |updated| == |experience| && updated[index] == data
    ensures forall j :: 0 <= j < |experience| && j != index ==> updated[j] == experience[j]
  {
    updated := CopyAndSet(experience, index, data);
  }

  /** `handleDeleteItem`: the list without slot `index`, the others in their order. */
  function HandleDeleteItem(experience: seq<Entry>, index: int): (updated: seq<Entry>)
    ensures 0 <= index < |experience| ==> updated == experience[..index] + experience[index + 1..]
    ensures !(0 <= index < |experience|) ==> updated == experience
  {
    RemoveIndexSplices(experience, index);
    RemoveIndex(experience, index)
  }

  /** The entry `handleAddItem` appends: no role, company, duration or points. */
  const BlankEntry: Entry := Store.ExperienceItem([], [], [], [])

  /** `handleAddItem`: the list with one blank entry at the end. */
  function HandleAddItem(experience: seq<Entry>): (updated: seq<Entry>)
    ensures |updated| == |experience| + 1
    ensures updated[..|experience|] == experience && updated[|experience|] == BlankEntry
  {
    experience + [BlankEntry]
  }

  /** Deleting the entry just added gives back the list before it. */
  lemma AddThenDelete(experience: seq<Entry>)
    ensures HandleDeleteItem(HandleAddItem(experience), |experience|) == experience
  {
    AddThenRemove(experience, BlankEntry);
  }

  /** The section is rendered unless the list is empty and edit mode is off. */
  predicate Renders(experience: seq<Entry>, isEditMode: bool) {
    !(|experience| == 0 && !isEditMode)
  }

  /**
   * In edit mode the section always shows (so an empty list can be added to),
   * after an add it shows whatever the mode, and outside edit mode deleting
   * the only entry hides it.
   */
  lemma Visibility(experience: seq<Entry>, isEditMode: bool, index: int)
    ensures isEditMode ==> Renders(experience, isEditMode)
    ensures Renders(HandleAddItem(experience), isEditMode)
    ensures !isEditMode && |experience| == 1 ==>
      (Renders(HandleDeleteItem(experience, index), isEditMode) <==> index != 0)
  {
  }
}
