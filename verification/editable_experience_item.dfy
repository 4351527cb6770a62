/**
 * The editor of one experience entry: its role, company and duration are
 * edited in place, and its bullet points can be added, opened for editing,
 * saved and deleted. Every change rebuilds the whole entry and hands it to
 * the parent through `onSave`, modelled as the value each handler returns
 * (`None` when `onSave` is not called).
 */
module EditableExperienceItem {
  import opened Wrappers
  import opened JsText
  import opened SeqEdit
  import Store

  type Entry = Store.ExperienceItem

  /** `handleUpdateRole`: only the role changes. */
  function UpdateRole(e: Entry, value: string): (r: Entry)
    ensures r.role == value && r.company == e.company && r.duration == e.duration && r.points == e.points
  {
    Store.ExperienceItem(e.company, value, e.duration, e.points)
  }

  /** `handleUpdateCompany`: only the company changes. */
  function UpdateCompany(e: Entry, value: string): (r: Entry)
    ensures r.company == value && r.role == e.role && r.duration == e.duration && r.points == e.points
  {
    Store.ExperienceItem(value, e.role, e.duration, e.points)
  }

  /** `handleUpdateDuration`: only the duration changes. */
  function UpdateDuration(e: Entry, value: string): (r: Entry)
    ensures r.duration == value && r.role == e.role && r.company == e.company && r.points == e.points
  {
    Store.ExperienceItem(e.company, e.role, value, e.points)
  }

  /** Edits of different fields do not interfere, and saving a field's own value changes nothing. */
  lemma FieldUpdatesIndependent(e: Entry, role: string, company: string, duration: string)
    ensures UpdateRole(UpdateCompany(e, company), role) == UpdateCompany(UpdateRole(e, role), company)
    ensures UpdateRole(UpdateDuration(e, duration), role) == UpdateDuration(UpdateRole(e, role), duration)
    ensures UpdateRole(e, e.role) == e && UpdateCompany(e, e.company) == e && UpdateDuration(e, e.duration) == e
  {
  }

  /** `experience.points[index] || ""`: the point at `index`, or "" when there is none. */
  function PointOrEmpty(points: seq<string>, index: int): (draft: string)
    ensures 0 <= index < |points| ==> draft == points[index]
    ensures !(0 <= index < |points|) ==> draft == []
  {
    if 0 <= index < |points| && |points[index]| > 0 then points[index] else []
  }

  /** `handleDeletePoint`: the entry without point `index`; its other fields are kept. */
  function DeletePoint(e: Entry, index: int): (r: Entry)
    ensures r.company == e.company && r.role == e.role && r.duration == e.duration
    ensures 0 <= index < |e.points| ==> r.points == e.points[..index] + e.points[index + 1..]
    ensures !(0 <= index < |e.points|) ==> r.points == e.points
  {
    RemoveIndexSplices(e.points, index);
    Store.ExperienceItem(e.company, e.role, e.duration, RemoveIndex(e.points, index))
  }

  /** The entry with the points a list save produced, or no save. */
  function WithPoints(e: Entry, points: Option<seq<string>>): (r: Option<Entry>)
    ensures r.Some? <==> points.Some?
    ensures r.Some? ==>
      r.value.company == e.company && r.value.role == e.role && r.value.duration == e.duration &&
      r.value.points == points.value
  {
    if points.Some? then Some(Store.ExperienceItem(e.company, e.role, e.duration, points.value)) else None
  }

  /** The entry's own state: the "add point" input and the point being edited. */
  class PointEditor {
    var isAddingPoint: bool
    var newPoint: string
    var editingPointIndex: Option<int>
    var pointDraft: string

    constructor()
      ensures !isAddingPoint && newPoint == [] && editingPointIndex == None && pointDraft == []
    {
      isAddingPoint := false;
      newPoint := [];
      editingPointIndex := None;
      pointDraft := [];
    }

    /**
     * `handleAddPoint`: a non-blank point, trimmed, is appended to the entry's
     * points and the input is cleared and closed; a blank one saves nothing.
     */
    method HandleAddPoint(e: Entry) returns (saved: Option<Entry>)
      modifies this
      ensures saved == WithPoints(e, AddTrimmed(e.points, old(newPoint)))
      ensures saved.Some? ==> newPoint == [] && !isAddingPoint
      ensures saved.None? ==> newPoint == old(newPoint) && isAddingPoint == old(isAddingPoint)
      ensures editingPointIndex == old(editingPointIndex) && pointDraft == old(pointDraft)
    {
      saved := None;
      if !IsBlank(newPoint) {
        saved := Some(Store.ExperienceItem(e.company, e.role, e.duration, e.points + [Trim(newPoint)]));
        newPoint := [];
        isAddingPoint := false;
      }
    }

    /** `handleEditPoint`: opens point `index`, its text (or "") as the draft. */
    method HandleEditPoint(e: Entry, index: int)
      modifies this
      ensures editingPointIndex == Some(index) && pointDraft == PointOrEmpty(e.points, index)
      ensures isAddingPoint == old(isAddingPoint) && newPoint == old(newPoint)
    {
      editingPointIndex := Some(index);
      pointDraft := PointOrEmpty(e.points, index);
    }

    /**
     * `handleSavePoint`: a non-blank draft, trimmed, replaces point `index` in
     * a copy of the points; a blank one saves nothing. Editing ends either way.
     */
    method HandleSavePoint(e: Entry, index: nat) returns (saved: Option<Entry>)
      requires index < |e.points|
      modifies this
      ensures saved == WithPoints(e, SetTrimmed(e.points, index, old(pointDraft)))
      ensures editingPointIndex == None && pointDraft == []
      ensures isAddingPoint == old(isAddingPoint) && newPoint == old(newPoint)
    {
      saved := None;
      if !IsBlank(pointDraft) {
        var newPoints := CopyAndSet(e.points, index, Trim(pointDraft));
        saved := Some(Store.ExperienceItem(e.company, e.role, e.duration, newPoints));
      }
      editingPointIndex := None;
      pointDraft := [];
    }
  }
}
