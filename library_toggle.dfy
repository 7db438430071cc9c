/** The library toggle panel: the multi-select group that sets the selection, the
  * "Delete Selected" button and its handler.
  *
  * The group's item values are `String(library.id)` and the handler parses them back
  * with `parseInt(…, 10)`; this model keeps integer ids in the selection and applies
  * that conversion at this boundary (ToggleValue, ParsedId). At run time the group
  * stores the strings themselves in a selection the context types as `number[]`; the
  * consequence for `deleteLibrary` is modelled at the end of this module. */
module LibraryToggle {
  import opened Wrappers
  import opened Seqs
  import JsNumbers
  import opened LibraryContext

  /** The value a library's toggle item carries: `String(library.id)`. */
  function ToggleValue(id: int): string {
    JsNumbers.IntToString(id)
  }

  /** The id the handler derives from a toggle value: `parseInt(value, 10)`, `None` for NaN. */
  function ParsedId(value: string): Option<int> {
    JsNumbers.ParseInt10(value)
  }

  /** The id a toggle value parses back to is the id it was made from, so the delete
    * request goes to the library that was selected. */
  lemma ToggleValueParsesBack(id: int)
    ensures ParsedId(ToggleValue(id)) == Some(id)
  {
    JsNumbers.ParseIntOfString(id, "");
    assert ToggleValue(id) + "" == ToggleValue(id);
  }

  /** `disabled={selectedLibraries.length === 0}`. */
  function DeleteDisabled(selected: seq<int>): bool {
    |selected| == 0
  }

  /** The state after deleting `ids` one after another, the k-th answered `replies[k]`;
    * a rejected delete changes nothing and the next one is issued anyway. */
  function DeleteAll(st: Store, ids: seq<int>, replies: seq<Reply>): Store
    requires |ids| == |replies|
    decreases |ids|
  {
    if ids == [] then st
    else
      var n := |ids| - 1;
      AfterDelete(DeleteAll(st, ids[..n], replies[..n]), ids[n], replies[n]).after
  }

  /** Some delete of `id` among `ids` was accepted. */
  predicate DeletedBy(id: int, ids: seq<int>, replies: seq<Reply>)
    requires |ids| == |replies|
  {
    exists k :: 0 <= k < |ids| && ids[k] == id && DeleteAccepted(replies[k])
  }

  /** The test a record passes when no accepted delete among `ids` named it. */
  function Survives(ids: seq<int>, replies: seq<Reply>): Library -> bool
    requires |ids| == |replies|
  {
    (l: Library) => !DeletedBy(l.id, ids, replies)
  }

  /** One more delete: an id is deleted by the longer run exactly when the shorter run
    * deleted it or the new delete names it and is accepted. */
  lemma DeletedByStep(x: int, ids: seq<int>, replies: seq<Reply>)
    requires |ids| == |replies| && ids != []
    ensures var n := |ids| - 1;
            DeletedBy(x, ids, replies)
            <==> DeletedBy(x, ids[..n], replies[..n]) || (ids[n] == x && DeleteAccepted(replies[n]))
  {
    var n := |ids| - 1;
    if DeletedBy(x, ids, replies) {
      var k :| 0 <= k < |ids| && ids[k] == x && DeleteAccepted(replies[k]);
      if k < n {
        assert ids[..n][k] == ids[k] && replies[..n][k] == replies[k];
      }
    }
    if DeletedBy(x, ids[..n], replies[..n]) {
      var k :| 0 <= k < n && ids[..n][k] == x && DeleteAccepted(replies[..n][k]);
      assert ids[k] == x && DeleteAccepted(replies[k]);
    }
  }

  /** A record survives the longer run exactly when it survived the shorter one and the
    * new delete, if accepted, names another id. */
  lemma SurvivesStep(l: Library, ids: seq<int>, replies: seq<Reply>)
    requires |ids| == |replies| && ids != []
    ensures var n := |ids| - 1;
            Survives(ids, replies)(l)
            == (Survives(ids[..n], replies[..n])(l) && (DeleteAccepted(replies[n]) ==> l.id != ids[n]))
  {
    DeletedByStep(l.id, ids, replies);
  }

  /** An accepted delete filters the survivors of the shorter run down to those of the
    * longer one. */
  lemma FilterStepAccepted(libraries: seq<Library>, ids: seq<int>, replies: seq<Reply>)
    requires |ids| == |replies| && ids != [] && DeleteAccepted(replies[|ids| - 1])
    ensures var n := |ids| - 1;
            WithoutLibrary(Filter(libraries, Survives(ids[..n], replies[..n])), ids[n])
            == Filter(libraries, Survives(ids, replies))
  {
    var n := |ids| - 1;
    var keep := Survives(ids, replies);
    var before := Survives(ids[..n], replies[..n]);
    var other := (l: Library) => l.id != ids[n];
    assert WithoutLibrary(Filter(libraries, before), ids[n]) == Filter(Filter(libraries, before), other);
    forall i | 0 <= i < |libraries|
      ensures keep(libraries[i]) == (before(libraries[i]) && other(libraries[i]))
    {
      SurvivesStep(libraries[i], ids, replies);
    }
    FilterFilter(libraries, before, other, keep);
  }

  /** A rejected delete leaves the survivors of the shorter run as they were. */
  lemma FilterStepRejected(libraries: seq<Library>, ids: seq<int>, replies: seq<Reply>)
    requires |ids| == |replies| && ids != [] && !DeleteAccepted(replies[|ids| - 1])
    ensures var n := |ids| - 1;
            Filter(libraries, Survives(ids[..n], replies[..n]))
            == Filter(libraries, Survives(ids, replies))
  {
    var n := |ids| - 1;
    forall i | 0 <= i < |libraries|
      ensures Survives(ids[..n], replies[..n])(libraries[i]) == Survives(ids, replies)(libraries[i])
    {
      SurvivesStep(libraries[i], ids, replies);
    }
    FilterCongruent(libraries, Survives(ids[..n], replies[..n]), Survives(ids, replies));
  }

  /** After a run of deletes, the snapshot is the original one with exactly the records
    * that some accepted delete named taken out, the others in their original order. */
  lemma {:induction false} DeleteAllLibraries(st: Store, ids: seq<int>, replies: seq<Reply>)
    requires |ids| == |replies|
    ensures DeleteAll(st, ids, replies).libraries == Filter(st.libraries, Survives(ids, replies))
    decreases |ids|
  {
    if ids == [] {
      FilterKeepsAll(st.libraries, Survives(ids, replies));
    } else {
      var n := |ids| - 1;
      DeleteAllLibraries(st, ids[..n], replies[..n]);
      if DeleteAccepted(replies[n]) {
        FilterStepAccepted(st.libraries, ids, replies);
      } else {
        FilterStepRejected(st.libraries, ids, replies);
      }
    }
  }

  /** The state after the handler, and the ids it passed to `deleteLibrary`, in order. */
  datatype Outcome = Outcome(after: Store, issued: seq<int>)

  /** `handleDeleteSelected`: nothing at all for an empty selection; otherwise one
    * delete per selected id, then the selection is cleared whatever the deletes did. */
  function DeleteSelected(st: Store, replies: seq<Reply>): (r: Outcome)
    requires |replies| == |st.selected|
    ensures st.selected == [] ==> r == Outcome(st, [])
    ensures st.selected != [] ==> r.after.selected == [] && r.issued == st.selected
    ensures r.after.libraries == Filter(st.libraries, Survives(st.selected, replies))
    ensures forall l :: l in r.after.libraries
                        <==> l in st.libraries && !DeletedBy(l.id, st.selected, replies)
  {
    if st.selected == [] then
      DeleteAllLibraries(st, st.selected, replies);
      Outcome(st, [])
    else
      DeleteAllLibraries(st, st.selected, replies);
      Outcome(Store(DeleteAll(st, st.selected, replies).libraries, []), st.selected)
  }

  /** The button is disabled exactly when the handler would issue no delete. */
  lemma DisabledExactlyWhenNothingIssued(st: Store, replies: seq<Reply>)
    requires |replies| == |st.selected|
    ensures DeleteDisabled(st.selected) <==> DeleteSelected(st, replies).issued == []
    ensures DeleteDisabled(st.selected) ==> DeleteSelected(st, replies).after == st
  {
  }

  /** After the handler every selected id names a library, whatever the state before:
    * the handler ends by clearing the selection, and does nothing to an empty one. */
  lemma DeleteSelectedLeavesSelectionWithin(st: Store, replies: seq<Reply>)
    requires |replies| == |st.selected|
    ensures SelectionWithin(DeleteSelected(st, replies).after)
  {
  }

  /** The handler, issuing the deletes one after another (the source fires them all at
    * once and waits for all of them; every one of them is issued either way). */
  method HandleDeleteSelected(context: LibraryProvider, replies: seq<Reply>)
    returns (issued: seq<int>)
    requires |replies| == |context.selectedLibraries|
    modifies context
    ensures var r := DeleteSelected(old(context.State()), replies);
            context.State() == r.after && issued == r.issued
  {
    var ids := context.selectedLibraries;
    if |ids| == 0 {
      return [];
    }
    issued := DeleteEach(context, ids, replies);
    context.SetSelectedLibraries([]);
  }

  /** One `deleteLibrary` per value, each parsed back from its toggle string, whatever
    * the earlier ones did. */
  method DeleteEach(context: LibraryProvider, ids: seq<int>, replies: seq<Reply>)
    returns (issued: seq<int>)
    requires |replies| == |ids|
    modifies context
    ensures issued == ids
    ensures context.State() == DeleteAll(old(context.State()), ids, replies)
  {
    ghost var start := context.State();
    issued := [];
    var i := 0;
    while i < |ids|
      invariant 0 <= i <= |ids|
      invariant issued == ids[..i]
      invariant context.State() == DeleteAll(start, ids[..i], replies[..i])
    {
      var id := IdOfToggle(ids[i]);
      assert ids[..i + 1] == ids[..i] + [id];
      issued := issued + [id];
      var settled, sent := context.DeleteLibrary(id, replies[i]);
      StepDeleteAll(start, ids, replies, i);
      i := i + 1;
    }
    assert ids[..i] == ids && replies[..i] == replies;
  }

  /** `parseInt(String(id), 10)`. */
  method IdOfToggle(id: int) returns (parsed: int)
    ensures parsed == id
  {
    var value := ToggleValue(id);
    var n := ParsedId(value);
    ToggleValueParsesBack(id);
    parsed := n.value;
  }

  /** One more delete extends the run by one. */
  lemma StepDeleteAll(st: Store, ids: seq<int>, replies: seq<Reply>, i: nat)
    requires |ids| == |replies| && i < |ids|
    ensures DeleteAll(st, ids[..i + 1], replies[..i + 1])
            == AfterDelete(DeleteAll(st, ids[..i], replies[..i]), ids[i], replies[i]).after
  {
    assert ids[..i + 1][..i] == ids[..i];
    assert replies[..i + 1][..i] == replies[..i];
  }

  /** `handleValueChange`: the group's value replaces the selection wholesale, with no
    * check against the snapshot. */
  method HandleValueChange(context: LibraryProvider, value: seq<int>)
    modifies context
    ensures context.State() == Store(old(context.libraries), value)
  {
    context.SetSelectedLibraries(value);
  }

  // What the delete does to the selection the group actually stores.

  /** A JavaScript value as it sits in the selection array at run time. */
  datatype JsValue = JsNumber(n: int) | JsString(s: string)

  /** `a === b`: values of different types are never strictly equal. */
  predicate StrictEquals(a: JsValue, b: JsValue) {
    match (a, b)
    case (JsNumber(x), JsNumber(y)) => x == y
    case (JsString(x), JsString(y)) => x == y
    case _ => false
  }

  /** The selection the group stores: the toggle values of the chosen ids. */
  function StoredSelection(ids: seq<int>): (r: seq<JsValue>)
    ensures |r| == |ids|
    ensures forall i :: 0 <= i < |ids| ==> r[i] == JsString(ToggleValue(ids[i]))
    decreases |ids|
  {
    if ids == [] then [] else [JsString(ToggleValue(ids[0]))] + StoredSelection(ids[1..])
  }

  /** `prev.filter(selId => selId !== id)` as written, run on the stored selection with
    * the numeric id `deleteLibrary` receives. */
  function PruneAsWritten(selection: seq<JsValue>, id: int): seq<JsValue> {
    Filter(selection, (v: JsValue) => !StrictEquals(v, JsNumber(id)))
  }

  /** As written, the prune removes nothing from a selection of strings, so a deleted
    * id stays selected even when its own string is in the selection. */
  lemma PruneAsWrittenKeepsDeletedId(ids: seq<int>, id: int)
    ensures PruneAsWritten(StoredSelection(ids), id) == StoredSelection(ids)
  {
    var sel := StoredSelection(ids);
    forall i | 0 <= i < |sel| ensures !StrictEquals(sel[i], JsNumber(id)) {
    }
    FilterKeepsAll(sel, (v: JsValue) => !StrictEquals(v, JsNumber(id)));
  }

  /** The smallest case: selecting library 5 and deleting it, answered 204. */
  lemma PruneAsWrittenExample()
    ensures PruneAsWritten([JsString("5")], 5) == [JsString("5")]
    ensures ParsedId("5") == Some(5)
  {
    PruneAsWrittenKeepsDeletedId([5], 5);
    assert StoredSelection([5]) == [JsString("5")];
    ToggleValueParsesBack(5);
  }

  /** With integer ids in the selection (the intended representation, used by the rest
    * of this model), the prune removes exactly the deleted id and keeps the others in
    * order. */
  lemma PruneRemovesDeletedId(selected: seq<int>, id: int)
    ensures id !in WithoutId(selected, id)
    ensures forall x :: x in selected && x != id ==> x in WithoutId(selected, id)
    ensures forall a, b :: WithoutId(a + b, id) == WithoutId(a, id) + WithoutId(b, id)
  {
    forall a: seq<int>, b: seq<int> ensures WithoutId(a + b, id) == WithoutId(a, id) + WithoutId(b, id) {
      FilterAppend(a, b, (x: int) => x != id);
    }
  }
}
