/**
 * The four handlers of routes/api.js on `/api/issues/:project`: request
 * validation, the defaults POST fills in, the one store call each request
 * makes, and the single error shape every store failure is turned into.
 */
module IssueRoutes {
  import opened Wrappers
  import opened IssueModel
  import opened IssueStore

  /** A POST body; `None` is a key the client did not send. */
  datatype PostBody = PostBody(
    issue_title: Option<string>,
    issue_text: Option<string>,
    created_by: Option<string>,
    assigned_to: Option<string>,
    status_text: Option<string>)

  /** A PUT body: the `_id` and the six fields a client may change. */
  datatype PutBody = PutBody(
    id: Option<string>,
    issue_title: Option<string>,
    issue_text: Option<string>,
    created_by: Option<string>,
    assigned_to: Option<string>,
    status_text: Option<string>,
    open: Option<bool>)

  datatype DeleteBody = DeleteBody(id: Option<string>)

  /** The object POST sends back: the new record without `project_name`. */
  datatype IssueView = IssueView(
    id: string,
    issue_title: string,
    issue_text: string,
    created_by: string,
    assigned_to: Option<string>,
    status_text: Option<string>,
    created_on: Instant,
    updated_on: Instant,
    open: bool)

  /**
   * A JSON response body. `Failed(e, None)` has no `_id` key;
   * `Failed(e, Some(id))` echoes the `_id` the client sent.
   */
  datatype Response =
    | Listed(issues: set<Issue>)
    | Posted(issue: IssueView)
    | Done(result: string, id: string)
    | Failed(error: string, echoed: Option<string>)

  const CouldNotFetch := "could not fetch"
  const RequiredMissing := "required field(s) missing"
  const CouldNotCreate := "could not create issue"
  const MissingId := "missing _id"
  const NoUpdateFields := "no update field(s) sent"
  const SuccessfullyUpdated := "successfully updated"
  const CouldNotUpdate := "could not update"
  const SuccessfullyDeleted := "successfully deleted"
  const CouldNotDelete := "could not delete"

  /** JavaScript truthiness of an optional string: sent and non-empty. */
  predicate Truthy(v: Option<string>) {
    v.Some? && v.value != ""
  }

  /** POST's required-field test: title, text and author are all truthy. */
  predicate RequiredSent(b: PostBody) {
    Truthy(b.issue_title) && Truthy(b.issue_text) && Truthy(b.created_by)
  }

  /** PUT's "something to update" test: presence, not truthiness. */
  predicate AnyUpdateSent(b: PutBody) {
    b.issue_title.Some? || b.issue_text.Some? || b.created_by.Some?
    || b.assigned_to.Some? || b.status_text.Some? || b.open.Some?
  }

  /**
   * The document POST creates: the path project, the three required
   * fields, and `""` for an optional field the client did not send.
   */
  function DraftFor(project: string, b: PostBody): (d: Draft)
    requires RequiredSent(b)
    ensures d.project_name == project
    ensures Some(d.issue_title) == b.issue_title && Some(d.issue_text) == b.issue_text
    ensures Some(d.created_by) == b.created_by
    ensures d.assigned_to.Some? && d.status_text.Some?
    ensures b.assigned_to.Some? ==> d.assigned_to == b.assigned_to
    ensures b.status_text.Some? ==> d.status_text == b.status_text
    ensures b.assigned_to.None? ==> d.assigned_to == Some("")
    ensures b.status_text.None? ==> d.status_text == Some("")
  {
    Draft(project, b.issue_title.value, b.issue_text.value, b.created_by.value,
          Some(b.assigned_to.GetOr("")), Some(b.status_text.GetOr("")))
  }

  /**
   * A body that passed POST's truthiness test also passes the schema's
   * required check unless the path project is empty: the handler's test
   * and the schema's agree on the three client-supplied fields.
   */
  lemma RequiredSentMeetsSchema(project: string, b: PostBody)
    requires RequiredSent(b)
    ensures HasRequired(DraftFor(project, b)) <==> project != ""
  {
  }

  /** The POST response for a record: every field except `project_name`. */
  function ViewOf(r: Issue): IssueView {
    IssueView(r.id, r.issue_title, r.issue_text, r.created_by, r.assigned_to,
              r.status_text, r.created_on, r.updated_on, r.open)
  }

  /** The record a view and a project name describe. */
  function WithProject(v: IssueView, project: string): Issue {
    Issue(v.id, project, v.issue_title, v.issue_text, v.created_on, v.updated_on,
          v.created_by, v.assigned_to, v.status_text, v.open)
  }

  /** The POST response loses exactly `project_name`: adding it back gives the record. */
  lemma ViewOmitsOnlyProject(r: Issue)
    ensures WithProject(ViewOf(r), r.project_name) == r
    ensures forall p :: WithProject(ViewOf(r), p).project_name == p
  {
  }

  /** The update document PUT sends: the body's fields as given and the new `updated_on`. */
  function UpdateFor(b: PutBody, now: Instant): Update {
    Update(b.issue_title, b.issue_text, b.created_by, b.assigned_to, b.status_text, b.open, now)
  }

  /** Whether a PUT body carries the field `f` (the six updatable fields only). */
  predicate Sent(b: PutBody, f: Field) {
    match f
    case IssueTitle => b.issue_title.Some?
    case IssueText => b.issue_text.Some?
    case CreatedBy => b.created_by.Some?
    case AssignedTo => b.assigned_to.Some?
    case StatusText => b.status_text.Some?
    case Open => b.open.Some?
    case _ => false
  }

  /**
   * The update writes exactly the fields the body carries, plus
   * `updated_on`; so "no update field(s) sent" is the case where it would
   * have written nothing but the timestamp.
   */
  lemma {:induction false} UpdateWritesWhatWasSent(b: PutBody, now: Instant)
    ensures forall f :: f != UpdatedOn ==> (Written(UpdateFor(b, now), f).Some? <==> Sent(b, f))
    ensures AnyUpdateSent(b) <==> exists f :: f != UpdatedOn && Written(UpdateFor(b, now), f).Some?
  {
    var u := UpdateFor(b, now);
    forall f | f != UpdatedOn
      ensures Written(u, f).Some? <==> Sent(b, f)
    {
      match f
      case IdField =>
      case ProjectName =>
      case IssueTitle =>
      case IssueText =>
      case CreatedOn =>
      case CreatedBy =>
      case AssignedTo =>
      case StatusText =>
      case Open =>
    }
    if AnyUpdateSent(b) {
      var f :=
        if b.issue_title.Some? then IssueTitle
        else if b.issue_text.Some? then IssueText
        else if b.created_by.Some? then CreatedBy
        else if b.assigned_to.Some? then AssignedTo
        else if b.status_text.Some? then StatusText
        else Open;
      assert Written(u, f).Some?;
    }
  }

  /**
   * The GET filter as written: the path project first, then every query
   * key, so a query `project_name` replaces the path project.
   */
  function SpreadFilter(project: string, query: Filter): Filter {
    map[ProjectName := Text(project)] + query
  }

  /**
   * With the filter as written, `GET /api/issues/apitest?project_name=other`
   * lists an issue of project `other`.
   */
  lemma SpreadFilterLeavesProject()
    ensures exists records: map<string, Issue>, r: Issue ::
      r in Select(records, SpreadFilter("apitest", map[ProjectName := Text("other")]))
      && r.project_name != "apitest"
  {
    var id := "000000000000000000000000";
    var r := Issue(id, "other", "t", "x", 0, 0, "c", None, None, true);
    var records := map[id := r];
    var filter := SpreadFilter("apitest", map[ProjectName := Text("other")]);
    assert filter == map[ProjectName := Text("other")];
    assert r in records.Values by { assert records[id] == r; }
    assert Matches(r, filter);
    assert r in Select(records, filter);
  }

  /** The filter as written casts exactly when the query does: the path project is always a string. */
  lemma SpreadFilterCastable(project: string, query: Filter)
    ensures CastableFilter(SpreadFilter(project, query)) <==> CastableFilter(query)
  {
    var filter := SpreadFilter(project, query);
    if CastableFilter(query) {
      forall f | f in filter ensures Castable(f, filter[f]) {
        if f in query { assert filter[f] == query[f]; }
      }
    }
    if CastableFilter(filter) {
      forall f | f in query ensures Castable(f, query[f]) {
        assert filter[f] == query[f];
      }
    }
  }

  /**
   * The corrected GET listing: the store call as written, keeping only the
   * records of the path project. A query `project_name` can then only narrow
   * the listing, never move it to another project.
   */
  function ScopedListing(records: map<string, Issue>, project: string, query: Filter): set<Issue> {
    set x | x in Select(records, SpreadFilter(project, query)) && x.project_name == project
  }

  /**
   * A record is in the corrected listing iff it is stored, belongs to the
   * path project and matches every query key, `project_name` included.
   */
  lemma ScopedListingIsConjunction(records: map<string, Issue>, project: string, query: Filter, x: Issue)
    ensures x in ScopedListing(records, project, query)
        <==> x in records.Values && x.project_name == project && Matches(x, query)
  {
    var filter := SpreadFilter(project, query);
    if x.project_name == project && Matches(x, query) {
      forall f | f in filter ensures FieldOf(x, f) == Some(filter[f]) {
        if f in query { assert filter[f] == query[f]; }
      }
    }
    if x.project_name == project && Matches(x, filter) {
      forall f | f in query ensures FieldOf(x, f) == Some(query[f]) {
        assert filter[f] == query[f];
      }
    }
  }

  /** A query `project_name` other than the path project lists nothing. */
  lemma ConflictingProjectListsNothing(records: map<string, Issue>, project: string, query: Filter)
    requires ProjectName in query && query[ProjectName] != Text(project)
    ensures ScopedListing(records, project, query) == {}
  {
    forall x | x in ScopedListing(records, project, query) ensures false {
      ScopedListingIsConjunction(records, project, query, x);
    }
  }

  /**
   * GET: the records of the path project matching every query key, or
   * "could not fetch" when the store cannot cast the query. Read-only.
   */
  method Get(store: IssueCollection, project: string, query: Filter) returns (r: Response)
    requires store.Valid()
    ensures r.Listed? || r == Failed(CouldNotFetch, None)
    ensures r.Failed? <==> !CastableFilter(query)
    ensures r.Listed? ==> forall x :: (x in r.issues
      <==> x in store.records.Values && x.project_name == project && Matches(x, query))
  {
    SpreadFilterCastable(project, query);
    var found := store.Find(SpreadFilter(project, query));
    if found.None? {
      r := Failed(CouldNotFetch, None);
    } else {
      r := Listed(set x | x in found.value && x.project_name == project);
      assert r.issues == ScopedListing(store.records, project, query);
      forall x ensures x in r.issues
        <==> x in store.records.Values && x.project_name == project && Matches(x, query)
      {
        ScopedListingIsConjunction(store.records, project, query, x);
      }
    }
  }

  /**
   * POST: rejects a body with a falsy required field before touching the
   * store; otherwise creates the record with `""` defaults and answers with
   * it, minus `project_name`. A create the schema refuses (an empty project
   * name) is "could not create issue".
   */
  method Post(store: IssueCollection, project: string, b: PostBody, newId: string, now: Instant)
    returns (r: Response)
    requires store.Valid() && IsObjectId(newId) && newId !in store.records
    modifies store
    ensures store.Valid()
    ensures !RequiredSent(b) ==> r == Failed(RequiredMissing, None) && store.records == old(store.records)
    ensures RequiredSent(b) && project == "" ==>
      r == Failed(CouldNotCreate, None) && store.records == old(store.records)
    ensures RequiredSent(b) && project != "" ==>
      && store.records == old(store.records)[newId := Instantiate(newId, DraftFor(project, b), now)]
      && r == Posted(ViewOf(store.records[newId]))
  {
    if !RequiredSent(b) {
      return Failed(RequiredMissing, None);
    }
    RequiredSentMeetsSchema(project, b);
    var created := store.Create(DraftFor(project, b), newId, now);
    if created.None? {
      r := Failed(CouldNotCreate, None);
    } else {
      r := Posted(ViewOf(created.value));
    }
  }

  /**
   * PUT: "missing _id" for a falsy `_id`; then "no update field(s) sent"
   * when none of the six fields is present; then the partial update of the
   * record scoped to `(_id, project)`, or "could not update" echoing the
   * `_id` as sent when there is none.
   */
  method Put(store: IssueCollection, project: string, b: PutBody, now: Instant) returns (r: Response)
    requires store.Valid()
    modifies store
    ensures store.Valid()
    ensures !Truthy(b.id) ==> r == Failed(MissingId, None) && store.records == old(store.records)
    ensures Truthy(b.id) && !AnyUpdateSent(b) ==>
      r == Failed(NoUpdateFields, b.id) && store.records == old(store.records)
    ensures Truthy(b.id) && AnyUpdateSent(b) && Scoped(old(store.records), b.id.value, project) ==>
      && r == Done(SuccessfullyUpdated, b.id.value)
      && store.records == old(store.records)[b.id.value := ApplyUpdate(old(store.records)[b.id.value], UpdateFor(b, now))]
    ensures Truthy(b.id) && AnyUpdateSent(b) && !Scoped(old(store.records), b.id.value, project) ==>
      r == Failed(CouldNotUpdate, b.id) && store.records == old(store.records)
  {
    if !Truthy(b.id) {
      return Failed(MissingId, None);
    }
    if !AnyUpdateSent(b) {
      return Failed(NoUpdateFields, b.id);
    }
    var before := store.FindOneAndUpdate(b.id.value, project, UpdateFor(b, now));
    if before.None? {
      r := Failed(CouldNotUpdate, b.id);
    } else {
      r := Done(SuccessfullyUpdated, before.value.id);
    }
  }

  /**
   * DELETE: "missing _id" for a falsy `_id`; otherwise removes the record
   * scoped to `(_id, project)`, or "could not delete" echoing the `_id`.
   */
  method Delete(store: IssueCollection, project: string, b: DeleteBody) returns (r: Response)
    requires store.Valid()
    modifies store
    ensures store.Valid()
    ensures !Truthy(b.id) ==> r == Failed(MissingId, None) && store.records == old(store.records)
    ensures Truthy(b.id) && Scoped(old(store.records), b.id.value, project) ==>
      r == Done(SuccessfullyDeleted, b.id.value) && store.records == old(store.records) - {b.id.value}
    ensures Truthy(b.id) && !Scoped(old(store.records), b.id.value, project) ==>
      r == Failed(CouldNotDelete, b.id) && store.records == old(store.records)
  {
    if !Truthy(b.id) {
      return Failed(MissingId, None);
    }
    var removed := store.FindOneAndDelete(b.id.value, project);
    if removed.None? {
      r := Failed(CouldNotDelete, b.id);
    } else {
      r := Done(SuccessfullyDeleted, removed.value.id);
    }
  }
}
