/**
 * The issue record of models/issue.js: its fields, which of them are
 * required, and the defaults the schema fills in when a record is created.
 */
module IssueModel {
  import opened Wrappers

  /** An instant of the abstract clock that stands for `Date`. */
  type Instant = nat

  /**
   * A stored issue: the schema's fields plus the `_id` the store assigns.
   * `assigned_to` and `status_text` have neither a default nor a required
   * flag, so a record may lack them.
   */
  datatype Issue = Issue(
    id: string,
    project_name: string,
    issue_title: string,
    issue_text: string,
    created_on: Instant,
    updated_on: Instant,
    created_by: string,
    assigned_to: Option<string>,
    status_text: Option<string>,
    open: bool)

  /** The document handed to `create`: every field the caller may set. */
  datatype Draft = Draft(
    project_name: string,
    issue_title: string,
    issue_text: string,
    created_by: string,
    assigned_to: Option<string>,
    status_text: Option<string>)

  predicate IsHexDigit(c: char) {
    '0' <= c <= '9' || 'a' <= c <= 'f'
  }

  /** The text form of a store-assigned identifier: 24 lower-case hex digits. */
  predicate IsObjectId(s: string) {
    |s| == 24 && forall i :: 0 <= i < |s| ==> IsHexDigit(s[i])
  }

  /**
   * A required String passes the schema's validator only when it is
   * present and non-empty.
   */
  predicate RequiredText(s: string) {
    s != ""
  }

  /** The schema's required fields: project_name, issue_title, issue_text, created_by. */
  predicate HasRequired(d: Draft) {
    RequiredText(d.project_name) && RequiredText(d.issue_title)
    && RequiredText(d.issue_text) && RequiredText(d.created_by)
  }

  /**
   * The record the schema builds from a draft at clock time `now`: the draft's
   * fields as given, `open` and both timestamps from the schema defaults.
   */
  function Instantiate(id: string, d: Draft, now: Instant): Issue {
    Issue(id, d.project_name, d.issue_title, d.issue_text, now, now,
          d.created_by, d.assigned_to, d.status_text, true)
  }

  /** A record holds the fields of draft `d` exactly, and nothing else was chosen by the caller. */
  predicate Echoes(r: Issue, d: Draft) {
    && r.project_name == d.project_name
    && r.issue_title == d.issue_title
    && r.issue_text == d.issue_text
    && r.created_by == d.created_by
    && r.assigned_to == d.assigned_to
    && r.status_text == d.status_text
  }

  /** The draft a record was created from, the inverse of `Instantiate` on its caller-set fields. */
  function DraftOf(r: Issue): Draft {
    Draft(r.project_name, r.issue_title, r.issue_text, r.created_by, r.assigned_to, r.status_text)
  }

  /**
   * A new record echoes its draft, starts open and carries the creation
   * time in both timestamps; the draft is recovered from it.
   */
  lemma InstantiateDefaults(id: string, d: Draft, now: Instant)
    ensures Echoes(Instantiate(id, d, now), d)
    ensures Instantiate(id, d, now).id == id
    ensures Instantiate(id, d, now).open
    ensures Instantiate(id, d, now).created_on == now && Instantiate(id, d, now).updated_on == now
    ensures DraftOf(Instantiate(id, d, now)) == d
  {
  }

  /** A valid identifier is never the empty (falsy) string. */
  lemma ObjectIdIsTruthy(s: string)
    requires IsObjectId(s)
    ensures s != ""
  {
  }
}
