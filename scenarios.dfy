/**
 * Sequences of requests against one collection, proved from the handlers'
 * contracts alone: the behaviours the functional tests exercise, stated for
 * every store and every input.
 */
module IssueScenarios {
  import opened Wrappers
  import opened IssueModel
  import opened IssueStore
  import opened IssueRoutes

  /**
   * Creating an issue and then listing its project: POST answers with the
   * supplied fields, open, and `""` for the omitted optional ones; the
   * listing is the old one plus exactly the new record.
   */
  method PostThenGet(store: IssueCollection, project: string, b: PostBody, newId: string, now: Instant)
    returns (posted: Response, listed: Response)
    requires store.Valid() && IsObjectId(newId) && newId !in store.records
    requires RequiredSent(b) && project != ""
    modifies store
    ensures posted.Posted? && listed.Listed?
    ensures Some(posted.issue.issue_title) == b.issue_title
    ensures Some(posted.issue.issue_text) == b.issue_text
    ensures Some(posted.issue.created_by) == b.created_by
    ensures posted.issue.assigned_to == Some(b.assigned_to.GetOr(""))
    ensures posted.issue.status_text == Some(b.status_text.GetOr(""))
    ensures posted.issue.open && posted.issue.id == newId
    ensures posted.issue.created_on == now && posted.issue.updated_on == now
    ensures forall x :: (x in listed.issues <==>
      x == WithProject(posted.issue, project) || (x in old(store.records).Values && x.project_name == project))
  {
    ghost var before := store.records;
    posted := Post(store, project, b, newId, now);
    var created := Instantiate(newId, DraftFor(project, b), now);
    ViewOmitsOnlyProject(created);
    var none: Filter := map[];
    listed := Get(store, project, none);
    SelectInsert(before, newId, created, map[ProjectName := Text(project)]);
    forall x ensures x in store.records.Values && x.project_name == project
      <==> (x == created || (x in before.Values && x.project_name == project))
    {
      MatchesProjectOnly(x, project);
    }
  }

  /**
   * Deleting the same issue twice: the first request removes it, the second
   * finds nothing and reports "could not delete" with the same `_id`.
   */
  method DeleteTwice(store: IssueCollection, project: string, id: string)
    returns (first: Response, second: Response)
    requires store.Valid() && Scoped(store.records, id, project)
    modifies store
    ensures first == Done(SuccessfullyDeleted, id)
    ensures second == Failed(CouldNotDelete, Some(id))
    ensures store.records == old(store.records) - {id}
  {
    ObjectIdIsTruthy(id);
    first := Delete(store, project, DeleteBody(Some(id)));
    second := Delete(store, project, DeleteBody(Some(id)));
  }

  /**
   * A PUT whose `_id` is not an identifier at all reports "could not
   * update", echoes that `_id` unchanged, and changes nothing.
   */
  method PutMalformedId(store: IssueCollection, project: string, b: PutBody, now: Instant)
    returns (r: Response)
    requires store.Valid() && Truthy(b.id) && !IsObjectId(b.id.value) && AnyUpdateSent(b)
    modifies store
    ensures r == Failed(CouldNotUpdate, b.id) && store.records == old(store.records)
  {
    MalformedIdNeverScoped(store.records, b.id.value, project);
    r := Put(store, project, b, now);
  }

  /** A DELETE whose `_id` is not an identifier reports "could not delete" and changes nothing. */
  method DeleteMalformedId(store: IssueCollection, project: string, id: string) returns (r: Response)
    requires store.Valid() && id != "" && !IsObjectId(id)
    modifies store
    ensures r == Failed(CouldNotDelete, Some(id)) && store.records == old(store.records)
  {
    MalformedIdNeverScoped(store.records, id, project);
    r := Delete(store, project, DeleteBody(Some(id)));
  }

  /**
   * A successful PUT changes only the fields it sent and `updated_on` of the
   * target, and a GET of the project afterwards lists the updated record in
   * place of the old one.
   */
  method PutThenGet(store: IssueCollection, project: string, b: PutBody, now: Instant)
    returns (updated: Response, listed: Response)
    requires store.Valid() && Truthy(b.id) && AnyUpdateSent(b) && Scoped(store.records, b.id.value, project)
    modifies store
    ensures updated == Done(SuccessfullyUpdated, b.id.value)
    ensures listed.Listed?
    ensures forall x :: (x in listed.issues <==>
      x == ApplyUpdate(old(store.records)[b.id.value], UpdateFor(b, now))
      || (x in old(store.records).Values && x.project_name == project && x != old(store.records)[b.id.value]))
  {
    ghost var before := store.records;
    var id := b.id.value;
    updated := Put(store, project, b, now);
    var none: Filter := map[];
    listed := Get(store, project, none);
    SelectReplace(before, id, ApplyUpdate(before[id], UpdateFor(b, now)), map[ProjectName := Text(project)]);
    forall x ensures x in store.records.Values && x.project_name == project
      <==> (x == ApplyUpdate(before[id], UpdateFor(b, now))
           || (x in before.Values && x.project_name == project && x != before[id]))
    {
      MatchesProjectOnly(x, project);
    }
  }
}
