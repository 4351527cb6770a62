/**
 * The projects section of the portfolio page: it replaces, deletes and
 * appends whole projects, handing each new list to the parent
 * through `onUpdateProjects` (modelled as the value each handler
 * returns), and it hides itself when there is nothing to show.
 */
module ProjectsSection {
  import opened SeqEdit
  import Store

  type Entry = Store.ProjectItem

  /** `handleUpdateItem`: a copy of the list with slot `index` overwritten by `data`. */
  method HandleUpdateItem(projects: seq<Entry>, index: nat, data: Entry) returns (updated: seq<Entry>)
    requires index < |projects|
    ensures |updated| == |projects| && updated[index] == data
    ensures forall j :: 0 <= j < |projects| && j != index ==> updated[j] == projects[j]
  {
    updated := CopyAndSet(projects, index, data);
  }

  /** `handleDeleteItem`: the list without slot `index`, the others in their order. */
  function HandleDeleteItem(projects: seq<Entry>, index: int): (updated: seq<Entry>)
    ensures 0 <= index < |projects| ==> updated == projects[..index] + projects[index + 1..]
    ensures !(0 <= index < |projects|) ==> updated == projects
  {
    RemoveIndexSplices(projects, index);
    RemoveIndex(projects, index)
  }

  /** The entry `handleAddItem` appends: no name, tech or description. */
  const BlankEntry: Entry := Store.ProjectItem([], [], [])

  /** `handleAddItem`: the list with one blank entry at the end. */
  function HandleAddItem(projects: seq<Entry>): (updated: seq<Entry>)
    ensures |updated| == |projects| + 1
    ensures updated[..|projects|] == projects && updated[|projects|] == BlankEntry
  {
    projects + [BlankEntry]
  }

  /** Deleting the entry just added gives back the list before it. */
  lemma AddThenDelete(projects: seq<Entry>)
    ensures HandleDeleteItem(HandleAddItem(projects), |projects|) == projects
  {
    AddThenRemove(projects, BlankEntry);
  }

  /** The section is rendered unless the list is empty and edit mode is off. */
  predicate Renders(projects: seq<Entry>, isEditMode: bool) {
    !(|projects| == 0 && !isEditMode)
  }

  /**
   * In edit mode the section always shows (so an empty list can be added to),
   * after an add it shows whatever the mode, and outside edit mode deleting
   * the only entry hides it.
   */
  lemma Visibility(projects: seq<Entry>, isEditMode: bool, index: int)
    ensures isEditMode ==> Renders(projects, isEditMode)
    ensures Renders(HandleAddItem(projects), isEditMode)
    ensures !isEditMode && |projects| == 1 ==>
      (Renders(HandleDeleteItem(projects, index), isEditMode) <==> index != 0)
  {
  }
}
