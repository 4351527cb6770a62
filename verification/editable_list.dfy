/**
 * The in-place list editor used for the skills list: one entry can be opened
 * for editing and saved, any entry can be deleted, and a new entry can be
 * typed and added. The list itself is a prop; every change is handed to the
 * parent through `onSave`, modelled here as the value each handler returns
 * (`None` when `onSave` is not called).
 */
module EditableList {
  import opened Wrappers
  import opened JsText
  import opened SeqEdit

  /** The editor's own state: the entry being edited and its draft, and the "add" input. */
  class ListEditor {
    var editingIndex: Option<nat>
    var draft: string
    var isAdding: bool
    var newItem: string

    constructor()
      ensures editingIndex == None && draft == [] && !isAdding && newItem == []
    {
      editingIndex := None;
      draft := [];
      isAdding := false;
      newItem := [];
    }

    /** `handleEdit`: opens entry `index` with its current text as the draft. */
    method HandleEdit(items: seq<string>, index: nat)
      requires index < |items|
      modifies this
      ensures editingIndex == Some(index) && draft == items[index]
      ensures isAdding == old(isAdding) && newItem == old(newItem)
    {
      editingIndex := Some(index);
      draft := items[index];
    }

    /**
     * `handleSaveEdit`: a non-blank draft, trimmed, replaces entry `index` in a
     * copy of the list; a blank one saves nothing. Editing ends either way.
     */
    method HandleSaveEdit(items: seq<string>, index: nat) returns (saved: Option<seq<string>>)
      requires index < |items|
      modifies this
      ensures saved == SetTrimmed(items, index, old(draft))
      ensures editingIndex == None && draft == []
      ensures isAdding == old(isAdding) && newItem == old(newItem)
    {
      saved := None;
      if !IsBlank(draft) {
        var newItems := CopyAndSet(items, index, Trim(draft));
        saved := Some(newItems);
      }
      editingIndex := None;
      draft := [];
    }

    /**
     * `handleAdd`: a non-blank input, trimmed, is appended and the input is
     * cleared and closed; a blank one saves nothing and changes nothing.
     */
    method HandleAdd(items: seq<string>) returns (saved: Option<seq<string>>)
      modifies this
      ensures saved == AddTrimmed(items, old(newItem))
      ensures saved.Some? ==> newItem == [] && !isAdding
      ensures saved.None? ==> newItem == old(newItem) && isAdding == old(isAdding)
      ensures editingIndex == old(editingIndex) && draft == old(draft)
    {
      saved := None;
      if !IsBlank(newItem) {
        saved := Some(items + [Trim(newItem)]);
        newItem := [];
        isAdding := false;
      }
    }
  }

  /** `handleDelete`: the list without entry `index`, the others in their order. */
  function HandleDelete(items: seq<string>, index: int): (saved: seq<string>)
    ensures 0 <= index < |items| ==> saved == items[..index] + items[index + 1..]
    ensures !(0 <= index < |items|) ==> saved == items
  {
    RemoveIndexSplices(items, index);
    RemoveIndex(items, index)
  }
}
