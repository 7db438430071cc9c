/** The library store of the chat front end: the provider that holds the snapshot of
  * library records and the selected library ids, and its REST operations.
  *
  * Every network call is an input to the operation that issues it (a `Reply` when the
  * body is not read, a `Response` when it is), so each operation is deterministic.
  * Each method is tied to a pure step function over a `Store` value; the properties of
  * the store are lemmas about those functions.
  *
  * The selection is typed `number[]` here, but the toggle group that fills it hands
  * over the strings `String(id)`; this model keeps integer ids and puts the conversion
  * at the toggle (see LibraryToggle). */
module LibraryContext {
  import opened Wrappers
  import opened Seqs
  import JsNumbers
  import DbRouter

  datatype Library = Library(id: int, name: string, description: string, url: string,
                             content: string, isContent: bool)

  /** A library without its id (`Omit<Library, 'id'>`), the body of a create request. */
  datatype LibraryData = LibraryData(name: string, description: string, url: string,
                                     content: string, isContent: bool)

  /** `Partial<Omit<Library, 'id'>>`, the body of an update request. */
  datatype LibraryPatch = LibraryPatch(name: Option<string>, description: Option<string>,
                                       url: Option<string>, content: Option<string>,
                                       isContent: Option<bool>)

  /** What `fetch` reports for a call whose body is not read: a status, or no answer. */
  datatype Reply = Status(code: int) | NoReply

  /** What `fetch` reports for a call whose JSON body is read; `json` is `None` when the
    * body does not parse as the expected value. */
  datatype Response<T> = Answered(code: int, json: Option<T>) | NoResponse

  /** `response.ok`. */
  predicate IsOk(code: int) {
    200 <= code <= 299
  }

  /** A response that `fetchLibraries` or `getLibraryById` takes in. */
  predicate Delivers<T>(answer: Response<T>) {
    answer.Answered? && IsOk(answer.code) && answer.json.Some?
  }

  datatype Verb = GET | POST | PUT | DELETE
  datatype Body = NewLibrary(data: LibraryData) | Changes(patch: LibraryPatch)
  datatype Request = Request(verb: Verb, url: string, body: Option<Body>)

  const ApiBaseUrl := "http://localhost:8000/db/libraries"

  function CollectionUrl(): string {
    ApiBaseUrl + "/"
  }

  function ItemUrl(id: int): string {
    ApiBaseUrl + "/" + JsNumbers.IntToString(id)
  }

  /** Why a rejected operation threw: a non-2xx status, or no answer at all. */
  datatype Failure = HttpStatus(status: int) | NetworkFailure

  /** How the promise of an operation settles. */
  datatype Settled = Resolved | Rejected(failure: Failure)

  /** The provider's state: `libraries` and `selectedLibraries`. */
  datatype Store = Store(libraries: seq<Library>, selected: seq<int>)

  /** The state after an operation, how it settled, and the requests it issued in order. */
  datatype Step = Step(after: Store, settled: Settled, sent: seq<Request>)

  /** `libraries.filter(lib => lib.id !== id)`. */
  function WithoutLibrary(libraries: seq<Library>, id: int): seq<Library> {
    Filter(libraries, (l: Library) => l.id != id)
  }

  /** `selectedLibraries.filter(selId => selId !== id)`. */
  function WithoutId(selected: seq<int>, id: int): seq<int> {
    Filter(selected, (x: int) => x != id)
  }

  function IdsOf(libraries: seq<Library>): set<int> {
    set l | l in libraries :: l.id
  }

  /** Every selected id names a library in the snapshot. The store keeps this only
    * through deletes; it is not an invariant of the provider. */
  predicate SelectionWithin(st: Store) {
    forall x :: x in st.selected ==> x in IdsOf(st.libraries)
  }

  /** `fetchLibraries`: replace the snapshot wholesale with a delivered list; swallow
    * every failure (non-2xx, no answer, unreadable body) and keep the old snapshot. */
  function AfterFetch(st: Store, answer: Response<seq<Library>>): (r: Store)
    ensures r.selected == st.selected
    ensures Delivers(answer) ==> r.libraries == answer.json.value
    ensures !Delivers(answer) ==> r == st
  {
    if Delivers(answer) then Store(answer.json.value, st.selected) else st
  }

  /** The exception a non-2xx status or a missing answer raises. */
  function FailureOf(reply: Reply): Failure {
    if reply.Status? then HttpStatus(reply.code) else NetworkFailure
  }

  /** `addLibrary`: POST the data; a non-2xx status or no answer throws and changes
    * nothing; a 2xx answer is followed by a refresh, whose own failure is swallowed. */
  function AfterAdd(st: Store, data: LibraryData, reply: Reply,
                    refresh: Response<seq<Library>>): (r: Step)
    ensures r.sent != [] && r.sent[0] == Request(POST, CollectionUrl(), Some(NewLibrary(data)))
    ensures r.settled.Resolved? <==> reply.Status? && IsOk(reply.code)
    ensures r.settled.Rejected? ==> r.after == st && |r.sent| == 1
                                    && r.settled.failure == FailureOf(reply)
    ensures r.settled.Resolved? ==> r.after == AfterFetch(st, refresh)
                                    && r.sent == [r.sent[0], Request(GET, CollectionUrl(), None)]
    ensures r.after.selected == st.selected
  {
    var post := Request(POST, CollectionUrl(), Some(NewLibrary(data)));
    if reply.Status? && IsOk(reply.code) then
      Step(AfterFetch(st, refresh), Resolved, [post, Request(GET, CollectionUrl(), None)])
    else
      Step(st, Rejected(FailureOf(reply)), [post])
  }

  /** `updateLibrary`: PUT the changes to the item; failure handling as for `addLibrary`
    * (a 404 is a failure here). */
  function AfterUpdate(st: Store, id: int, patch: LibraryPatch, reply: Reply,
                       refresh: Response<seq<Library>>): (r: Step)
    ensures r.sent != [] && r.sent[0] == Request(PUT, ItemUrl(id), Some(Changes(patch)))
    ensures r.settled.Resolved? <==> reply.Status? && IsOk(reply.code)
    ensures r.settled.Rejected? ==> r.after == st && |r.sent| == 1
                                    && r.settled.failure == FailureOf(reply)
    ensures r.settled.Resolved? ==> r.after == AfterFetch(st, refresh)
                                    && r.sent == [r.sent[0], Request(GET, CollectionUrl(), None)]
    ensures r.after.selected == st.selected
  {
    var put := Request(PUT, ItemUrl(id), Some(Changes(patch)));
    if reply.Status? && IsOk(reply.code) then
      Step(AfterFetch(st, refresh), Resolved, [put, Request(GET, CollectionUrl(), None)])
    else
      Step(st, Rejected(FailureOf(reply)), [put])
  }

  /** A delete answer that `deleteLibrary` accepts: 2xx, or 404 (already gone). */
  predicate DeleteAccepted(reply: Reply) {
    reply.Status? && (IsOk(reply.code) || reply.code == 404)
  }

  /** `deleteLibrary`: on an accepted answer drop the id from both the snapshot and the
    * selection; otherwise throw and change nothing. */
  function AfterDelete(st: Store, id: int, reply: Reply): (r: Step)
    ensures r.sent == [Request(DELETE, ItemUrl(id), None)]
    ensures r.settled.Resolved? <==> DeleteAccepted(reply)
    ensures r.settled.Rejected? ==> r.after == st && r.settled.failure == FailureOf(reply)
    ensures r.settled.Resolved? ==>
              (forall l :: l in r.after.libraries <==> l in st.libraries && l.id != id)
              && (forall x :: x in r.after.selected <==> x in st.selected && x != id)
    ensures r.settled.Resolved? ==>
              r.after == Store(WithoutLibrary(st.libraries, id), WithoutId(st.selected, id))
  {
    var delete := Request(DELETE, ItemUrl(id), None);
    if DeleteAccepted(reply) then
      Step(Store(WithoutLibrary(st.libraries, id), WithoutId(st.selected, id)), Resolved, [delete])
    else
      Step(st, Rejected(FailureOf(reply)), [delete])
  }

  /** The snapshot after a delete keeps the other records in their original order:
    * removing an id from a concatenation removes it from each part. */
  lemma DeleteKeepsOrder(a: seq<Library>, b: seq<Library>, id: int)
    ensures WithoutLibrary(a + b, id) == WithoutLibrary(a, id) + WithoutLibrary(b, id)
  {
    FilterAppend(a, b, (l: Library) => l.id != id);
  }

  /** Deleting an id that no record carries leaves the snapshot exactly as it was. */
  lemma DeleteAbsentIdKeepsSnapshot(libraries: seq<Library>, id: int)
    requires id !in IdsOf(libraries)
    ensures WithoutLibrary(libraries, id) == libraries
  {
    forall i | 0 <= i < |libraries| ensures libraries[i].id != id {
      assert libraries[i] in libraries;
    }
    FilterKeepsAll(libraries, (l: Library) => l.id != id);
  }

  /** Deleting the same id twice, the second time answered 404, ends in the same state
    * as deleting it once. */
  lemma DeleteTwiceSameAsOnce(st: Store, id: int, first: Reply)
    requires DeleteAccepted(first)
    ensures var once := AfterDelete(st, id, first);
            AfterDelete(once.after, id, Status(404)) == Step(once.after, Resolved, once.sent)
  {
    FilterIdempotent(st.libraries, (l: Library) => l.id != id);
    FilterIdempotent(st.selected, (x: int) => x != id);
  }

  /** Against the server's delete rule, deleting an id twice resolves both times, the
    * second answer is 404, and the client ends where one delete left it. */
  lemma DeleteTwiceAgainstServer(table: map<int, Library>, st: Store, id: int)
    ensures var first := DbRouter.DeleteLibrary(table, id);
            var second := DbRouter.DeleteLibrary(first.table, id);
            var once := AfterDelete(st, id, Status(first.status));
            second.status == 404
            && once.settled.Resolved?
            && AfterDelete(once.after, id, Status(second.status)).after == once.after
  {
    var first := DbRouter.DeleteLibrary(table, id);
    DbRouter.DeleteTwice(table, id);
    assert DeleteAccepted(Status(first.status));
    DeleteTwiceSameAsOnce(st, id, Status(first.status));
  }

  /** A delete keeps "every selected id names a library": the id leaves the selection
    * together with its records. */
  lemma DeletePreservesSelectionWithin(st: Store, id: int, reply: Reply)
    requires SelectionWithin(st)
    ensures SelectionWithin(AfterDelete(st, id, reply).after)
  {
    var r := AfterDelete(st, id, reply);
    if r.settled.Resolved? {
      forall x | x in r.after.selected ensures x in IdsOf(r.after.libraries) {
        assert x in st.selected && x != id;
        var l :| l in st.libraries && l.id == x;
        assert l in r.after.libraries;
      }
    }
  }

  /** A refresh does not prune the selection: a delivered list that drops a selected
    * library leaves that id selected. */
  lemma FetchMayStrandSelection()
    ensures var lib := Library(1, "NumPy", "", "https://numpy.org", "", false);
            var st := Store([lib], [1]);
            SelectionWithin(st) && !SelectionWithin(AfterFetch(st, Answered(200, Some([]))))
  {
    var lib := Library(1, "NumPy", "", "https://numpy.org", "", false);
    assert lib in [lib];
    assert 1 in IdsOf([lib]);
  }

  /** Distinct ids address distinct item URLs. */
  lemma ItemUrlInjective(a: int, b: int)
    ensures ItemUrl(a) == ItemUrl(b) ==> a == b
  {
    var prefix := ApiBaseUrl + "/";
    if ItemUrl(a) == ItemUrl(b) {
      assert ItemUrl(a)[|prefix|..] == JsNumbers.IntToString(a);
      assert ItemUrl(b)[|prefix|..] == JsNumbers.IntToString(b);
      JsNumbers.IntToStringInjective(a, b);
    }
  }

  /** The provider component: its two pieces of state and the operations it hands out. */
  class LibraryProvider {
    var libraries: seq<Library>
    var selectedLibraries: seq<int>

    function State(): Store
      reads this
    {
      Store(libraries, selectedLibraries)
    }

    /** Both pieces of state start empty. */
    constructor ()
      ensures State() == Store([], [])
    {
      libraries := [];
      selectedLibraries := [];
    }

    method FetchLibraries(answer: Response<seq<Library>>) returns (sent: Request)
      modifies this
      ensures sent == Request(GET, CollectionUrl(), None)
      ensures State() == AfterFetch(old(State()), answer)
    {
      sent := Request(GET, CollectionUrl(), None);
      if answer.Answered? && IsOk(answer.code) && answer.json.Some? {
        libraries := answer.json.value;
      }
    }

    method AddLibrary(data: LibraryData, reply: Reply, refresh: Response<seq<Library>>)
      returns (settled: Settled, sent: seq<Request>)
      modifies this
      ensures Step(State(), settled, sent) == AfterAdd(old(State()), data, reply, refresh)
    {
      sent := [Request(POST, CollectionUrl(), Some(NewLibrary(data)))];
      if reply.NoReply? || !IsOk(reply.code) {
        settled := Rejected(FailureOf(reply));
        return;
      }
      var get := FetchLibraries(refresh);
      sent := sent + [get];
      settled := Resolved;
    }

    method UpdateLibrary(id: int, patch: LibraryPatch, reply: Reply,
                         refresh: Response<seq<Library>>)
      returns (settled: Settled, sent: seq<Request>)
      modifies this
      ensures Step(State(), settled, sent) == AfterUpdate(old(State()), id, patch, reply, refresh)
    {
      sent := [Request(PUT, ItemUrl(id), Some(Changes(patch)))];
      if reply.NoReply? || !IsOk(reply.code) {
        settled := Rejected(FailureOf(reply));
        return;
      }
      var get := FetchLibraries(refresh);
      sent := sent + [get];
      settled := Resolved;
    }

    method DeleteLibrary(id: int, reply: Reply) returns (settled: Settled, sent: seq<Request>)
      modifies this
      ensures Step(State(), settled, sent) == AfterDelete(old(State()), id, reply)
    {
      sent := [Request(DELETE, ItemUrl(id), None)];
      if reply.NoReply? || (!IsOk(reply.code) && reply.code != 404) {
        settled := Rejected(FailureOf(reply));
        return;
      }
      libraries := WithoutLibrary(libraries, id);
      selectedLibraries := WithoutId(selectedLibraries, id);
      settled := Resolved;
    }

    /** `getLibraryById`: the delivered record, or null on 404, on any other status, on
      * no answer and on an unreadable body; it never throws and changes nothing. */
    method GetLibraryById(id: int, answer: Response<Library>)
      returns (sent: Request, found: Option<Library>)
      ensures sent == Request(GET, ItemUrl(id), None)
      ensures found.Some? <==> Delivers(answer)
      ensures found.Some? ==> found == answer.json
    {
      sent := Request(GET, ItemUrl(id), None);
      if answer.NoResponse? {
        return sent, None;
      }
      if !IsOk(answer.code) {
        // 404 returns null directly; any other status throws into the catch, which
        // also returns null
        return sent, None;
      }
      found := answer.json;
    }

    /** The raw `setSelectedLibraries` setter: no check against the snapshot. */
    method SetSelectedLibraries(ids: seq<int>)
      modifies this
      ensures State() == Store(old(libraries), ids)
    {
      selectedLibraries := ids;
    }
  }

  /** `useLibrary`: the provider in scope, or the error thrown outside one. */
  function UseLibrary(context: LibraryProvider?): (r: Result<LibraryProvider, string>)
    ensures r.Success? <==> context != null
    ensures r.Success? ==> r.value == context
    ensures r.Failure? ==> r.error == "useLibrary must be used within a LibraryProvider"
  {
    if context == null then Result<LibraryProvider, string>.Failure("useLibrary must be used within a LibraryProvider")
    else Success(context)
  }
}
