/**
 * The list edits behind the in-place editor, shared by the skills list, the
 * bullet points of an experience entry, the tech tags of a project and the
 * experience and project lists themselves.
 */
module SeqEdit {
  import opened Wrappers
  import opened JsText

  /**
   * `const copy = [...s]; copy[index] = x;` -- a fresh array filled with the
   * elements of `s`, then one slot overwritten.
   */
  method CopyAndSet<T>(s: seq<T>, index: nat, x: T) returns (r: seq<T>)
    requires index < |s|
    ensures |r| == |s| && r[index] == x
    ensures forall j :: 0 <= j < |s| && j != index ==> r[j] == s[j]
    ensures r == s[index := x]
  {
    var copy := new T[|s|](_ => x);
    var i := 0;
    while i < |s|
      invariant 0 <= i <= |s|
      invariant forall j :: 0 <= j < i ==> copy[j] == s[j]
    {
      copy[i] := s[i];
      i := i + 1;
    }
    copy[index] := x;
    r := copy[..];
  }

  /** `s.filter((_, i) => i !== index)`, walking the list with `index` counted down. */
  function RemoveIndex<T>(s: seq<T>, index: int): (r: seq<T>)
    ensures |r| == if 0 <= index < |s| then |s| - 1 else |s|
  {
    if s == [] then []
    else (if index == 0 then [] else [s[0]]) + RemoveIndex(s[1..], index - 1)
  }

  /** Removing an index in range drops exactly that element; any other index leaves the list as it is. */
  lemma {:induction false} RemoveIndexSplices<T>(s: seq<T>, index: int)
    ensures 0 <= index < |s| ==> RemoveIndex(s, index) == s[..index] + s[index + 1..]
    ensures !(0 <= index < |s|) ==> RemoveIndex(s, index) == s
  {
    if s != [] {
      var rest := s[1..];
      RemoveIndexSplices(rest, index - 1);
      assert s == [s[0]] + rest;
      if index == 0 {
        assert RemoveIndex(s, index) == rest;
      } else if 0 < index < |s| {
        assert RemoveIndex(s, index) == [s[0]] + (rest[..index - 1] + rest[index..]);
        assert s[..index] == [s[0]] + rest[..index - 1];
        assert s[index + 1..] == rest[index..];
      } else {
        assert RemoveIndex(s, index) == [s[0]] + rest;
      }
    }
  }

  /** Elementwise form of a removal in range: the elements before `index` keep their place, the later ones move down by one. */
  lemma RemoveIndexAt<T>(s: seq<T>, index: int)
    requires 0 <= index < |s|
    ensures forall j :: 0 <= j < index ==> RemoveIndex(s, index)[j] == s[j]
    ensures forall j :: index <= j < |s| - 1 ==> RemoveIndex(s, index)[j] == s[j + 1]
  {
    RemoveIndexSplices(s, index);
  }

  /** Every entry is non-blank and has nothing to trim: what the editors' saves produce. */
  predicate Tidy(items: seq<string>) {
    forall i :: 0 <= i < |items| ==> Trimmed(items[i])
  }

  /**
   * The save of an "add" input: the list with the trimmed text appended, or
   * no save at all when the text is blank.
   */
  function AddTrimmed(items: seq<string>, text: string): (saved: Option<seq<string>>)
    ensures saved.None? <==> IsBlank(text)
    ensures saved.Some? ==> |saved.value| == |items| + 1 && saved.value[..|items|] == items
    ensures saved.Some? ==> saved.value[|items|] == Trim(text)
  {
    if IsBlank(text) then None else Some(items + [Trim(text)])
  }

  /**
   * The save of an "edit" input: slot `index` replaced by the trimmed draft,
   * or no save at all when the draft is blank.
   */
  function SetTrimmed(items: seq<string>, index: nat, draft: string): (saved: Option<seq<string>>)
    requires index < |items|
    ensures saved.None? <==> IsBlank(draft)
    ensures saved.Some? ==> |saved.value| == |items| && saved.value[index] == Trim(draft)
    ensures saved.Some? ==> forall j :: 0 <= j < |items| && j != index ==> saved.value[j] == items[j]
  {
    if IsBlank(draft) then None else Some(items[index := Trim(draft)])
  }

  /** An add keeps a tidy list tidy. */
  lemma AddKeepsTidy(items: seq<string>, text: string)
    requires Tidy(items) && !IsBlank(text)
    ensures Tidy(AddTrimmed(items, text).value)
  {
    TrimmedFacts(text);
    var r := AddTrimmed(items, text).value;
    assert forall j :: 0 <= j < |items| ==> r[j] == items[j];
  }

  /** An edit keeps a tidy list tidy. */
  lemma SetKeepsTidy(items: seq<string>, index: nat, draft: string)
    requires Tidy(items) && index < |items| && !IsBlank(draft)
    ensures Tidy(SetTrimmed(items, index, draft).value)
  {
    TrimmedFacts(draft);
  }

  /** A removal keeps a tidy list tidy. */
  lemma RemoveKeepsTidy(items: seq<string>, index: int)
    requires Tidy(items)
    ensures Tidy(RemoveIndex(items, index))
  {
    RemoveIndexSplices(items, index);
    if 0 <= index < |items| {
      RemoveIndexAt(items, index);
    }
  }

  /** Opening a tidy entry for editing and saving it untouched leaves the list as it was. */
  lemma EditUntouchedIsIdentity(items: seq<string>, index: nat)
    requires Tidy(items) && index < |items|
    ensures SetTrimmed(items, index, items[index]) == Some(items)
  {
    assert Trimmed(items[index]);
    TrimmedFacts(items[index]);
    assert items[index := items[index]] == items;
  }

  /** Removing the entry just added gives back the list before the add. */
  lemma AddThenRemove<T>(items: seq<T>, x: T)
    ensures RemoveIndex(items + [x], |items|) == items
  {
    RemoveIndexSplices(items + [x], |items|);
    assert (items + [x])[..|items|] == items;
  }
}
