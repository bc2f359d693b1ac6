/**
 * The issue collection behind the mongoose model of models/issue.js, as
 * far as routes/api.js uses it: `find`, `create`, `findOneAndUpdate` and
 * `findOneAndDelete`. Each call is one atomic step on a map from the text
 * form of `_id` to the stored record.
 */
module IssueStore {
  import opened Wrappers
  import opened IssueModel

  /** The record fields a filter can name. */
  datatype Field =
    | IdField | ProjectName | IssueTitle | IssueText | CreatedOn | UpdatedOn
    | CreatedBy | AssignedTo | StatusText | Open

  /** A field value after the store has cast it to the field's type. */
  datatype Value = Text(text: string) | Flag(flag: bool) | At(instant: Instant)

  /** An exact-match filter: every listed field must hold the listed value. */
  type Filter = map<Field, Value>

  /** The value a record holds in a field, `None` when the record lacks it. */
  function FieldOf(r: Issue, f: Field): Option<Value> {
    match f
    case IdField => Some(Text(r.id))
    case ProjectName => Some(Text(r.project_name))
    case IssueTitle => Some(Text(r.issue_title))
    case IssueText => Some(Text(r.issue_text))
    case CreatedOn => Some(At(r.created_on))
    case UpdatedOn => Some(At(r.updated_on))
    case CreatedBy => Some(Text(r.created_by))
    case AssignedTo => if r.assigned_to.Some? then Some(Text(r.assigned_to.value)) else None
    case StatusText => if r.status_text.Some? then Some(Text(r.status_text.value)) else None
    case Open => Some(Flag(r.open))
  }

  predicate Matches(r: Issue, filter: Filter) {
    forall f :: f in filter ==> FieldOf(r, f) == Some(filter[f])
  }

  /**
   * A filter value the store can cast to its field's schema type; an `_id`
   * must also have the identifier's shape. Anything else is a cast error.
   */
  predicate Castable(f: Field, v: Value) {
    match f
    case IdField => v.Text? && IsObjectId(v.text)
    case CreatedOn => v.At?
    case UpdatedOn => v.At?
    case Open => v.Flag?
    case _ => v.Text?
  }

  predicate CastableFilter(filter: Filter) {
    forall f :: f in filter ==> Castable(f, filter[f])
  }

  /** The records `find(filter)` returns, in no particular order. */
  function Select(records: map<string, Issue>, filter: Filter): set<Issue> {
    set r | r in records.Values && Matches(r, filter)
  }

  /** Every record is stored under its own `_id`, which has the identifier's shape. */
  ghost predicate KeyedById(records: map<string, Issue>) {
    forall k :: k in records ==> records[k].id == k && IsObjectId(k)
  }

  /** The record a `{_id, project_name}` filter finds, if any. */
  predicate Scoped(records: map<string, Issue>, id: string, project: string) {
    id in records && records[id].project_name == project
  }

  /**
   * An update document: the fields a PUT forwards (absent ones are not
   * written) and the new `updated_on`.
   */
  datatype Update = Update(
    issue_title: Option<string>,
    issue_text: Option<string>,
    created_by: Option<string>,
    assigned_to: Option<string>,
    status_text: Option<string>,
    open: Option<bool>,
    updated_on: Instant)

  /** The value an update writes into a field, `None` when it leaves the field alone. */
  function Written(u: Update, f: Field): Option<Value> {
    match f
    case IssueTitle => if u.issue_title.Some? then Some(Text(u.issue_title.value)) else None
    case IssueText => if u.issue_text.Some? then Some(Text(u.issue_text.value)) else None
    case CreatedBy => if u.created_by.Some? then Some(Text(u.created_by.value)) else None
    case AssignedTo => if u.assigned_to.Some? then Some(Text(u.assigned_to.value)) else None
    case StatusText => if u.status_text.Some? then Some(Text(u.status_text.value)) else None
    case Open => if u.open.Some? then Some(Flag(u.open.value)) else None
    case UpdatedOn => Some(At(u.updated_on))
    case _ => None
  }

  /** A record after a partial update: present keys overwrite, absent keys keep. */
  function ApplyUpdate(r: Issue, u: Update): Issue {
    r.(issue_title := u.issue_title.GetOr(r.issue_title),
       issue_text := u.issue_text.GetOr(r.issue_text),
       created_by := u.created_by.GetOr(r.created_by),
       assigned_to := if u.assigned_to.Some? then u.assigned_to else r.assigned_to,
       status_text := if u.status_text.Some? then u.status_text else r.status_text,
       open := u.open.GetOr(r.open),
       updated_on := u.updated_on)
  }

  /**
   * Every field of the updated record holds what the update wrote there,
   * or its old value when the update does not write it; `_id`,
   * `project_name` and `created_on` are never written.
   */
  lemma ApplyUpdateFields(r: Issue, u: Update, f: Field)
    ensures FieldOf(ApplyUpdate(r, u), f) == if Written(u, f).Some? then Written(u, f) else FieldOf(r, f)
    ensures f in {IdField, ProjectName, CreatedOn} ==> Written(u, f).None?
  {
  }

  /** Sending the same update twice has the effect of sending it once. */
  lemma ApplyUpdateIdempotent(r: Issue, u: Update)
    ensures ApplyUpdate(ApplyUpdate(r, u), u) == ApplyUpdate(r, u)
  {
  }

  /** `open` is the only boolean; it flips only when the update sends the flipped value. */
  lemma OpenFlipsOnlyWhenSent(r: Issue, u: Update)
    ensures ApplyUpdate(r, u).open != r.open <==> u.open == Some(!r.open)
  {
  }

  /** A filter on `project_name` alone selects exactly the records of that project. */
  lemma MatchesProjectOnly(r: Issue, project: string)
    ensures Matches(r, map[ProjectName := Text(project)]) <==> r.project_name == project
  {
    var filter := map[ProjectName := Text(project)];
    assert ProjectName in filter;
  }

  /** Listing after an insert under a fresh key: the old listing plus the new record if it matches. */
  lemma SelectInsert(records: map<string, Issue>, k: string, r: Issue, filter: Filter)
    requires k !in records
    ensures Select(records[k := r], filter) == Select(records, filter) + (if Matches(r, filter) then {r} else {})
  {
    var m := records[k := r];
    assert m.Values == records.Values + {r} by {
      forall x | x in m.Values ensures x in records.Values + {r} {
        var j :| j in m && m[j] == x;
        if j != k { assert records[j] == x; }
      }
      forall x | x in records.Values ensures x in m.Values {
        var j :| j in records && records[j] == x;
        assert m[j] == x;
      }
      assert m[k] == r;
    }
  }

  /** Listing after removing a stored record: the old listing without exactly that record. */
  lemma SelectRemove(records: map<string, Issue>, k: string, filter: Filter)
    requires KeyedById(records) && k in records
    ensures Select(records - {k}, filter) == Select(records, filter) - {records[k]}
  {
    var m := records - {k};
    assert m.Values == records.Values - {records[k]} by {
      forall x | x in records.Values - {records[k]} ensures x in m.Values {
        var j :| j in records && records[j] == x;
        assert m[j] == x;
      }
    }
  }

  /** Listing after replacing a stored record by one with the same `_id`. */
  lemma SelectReplace(records: map<string, Issue>, k: string, r: Issue, filter: Filter)
    requires KeyedById(records) && k in records && r.id == k
    ensures Select(records[k := r], filter)
         == (Select(records, filter) - {records[k]}) + (if Matches(r, filter) then {r} else {})
  {
    SelectRemove(records, k, filter);
    SelectInsert(records - {k}, k, r, filter);
    assert records[k := r] == (records - {k})[k := r];
  }

  /** A malformed identifier never finds a record. */
  lemma MalformedIdNeverScoped(records: map<string, Issue>, id: string, project: string)
    requires KeyedById(records) && !IsObjectId(id)
    ensures !Scoped(records, id, project)
  {
  }

  /** The collection of issue records. */
  class IssueCollection {
    var records: map<string, Issue>

    /** Records sit under their own well-formed `_id` and keep the required `project_name`. */
    ghost predicate Valid()
      reads this
    {
      KeyedById(records) && forall k :: k in records ==> RequiredText(records[k].project_name)
    }

    constructor ()
      ensures Valid() && records == map[]
    {
      records := map[];
    }

    /** `find(filter)`: the matching records, or `None` when the filter cannot be cast. */
    method Find(filter: Filter) returns (r: Option<set<Issue>>)
      requires Valid()
      ensures r.None? <==> !CastableFilter(filter)
      ensures r.Some? ==> forall x :: x in r.value <==> x in records.Values && Matches(x, filter)
    {
      if CastableFilter(filter) {
        r := Some(Select(records, filter));
      } else {
        r := None;
      }
    }

    /**
     * `create(draft)`: the schema's required check, then the record with its
     * defaults under the fresh identifier the store generated. `None` stands
     * for the validation error.
     */
    method Create(d: Draft, newId: string, now: Instant) returns (r: Option<Issue>)
      requires Valid() && IsObjectId(newId) && newId !in records
      modifies this
      ensures Valid()
      ensures r.Some? <==> HasRequired(d)
      ensures r.Some? ==> r.value == Instantiate(newId, d, now) && records == old(records)[newId := r.value]
      ensures r.None? ==> records == old(records)
    {
      if HasRequired(d) {
        var created := Instantiate(newId, d, now);
        records := records[newId := created];
        r := Some(created);
      } else {
        r := None;
      }
    }

    /**
     * `findOneAndUpdate({_id, project_name}, u)`: applies `u` to the scoped
     * record and returns it as it was before the update (mongoose's default);
     * `None` when nothing matches, a malformed `_id` included.
     */
    method FindOneAndUpdate(id: string, project: string, u: Update) returns (r: Option<Issue>)
      requires Valid()
      modifies this
      ensures Valid()
      ensures r.Some? <==> Scoped(old(records), id, project)
      ensures r.Some? ==> r.value == old(records)[id] && records == old(records)[id := ApplyUpdate(r.value, u)]
      ensures r.None? ==> records == old(records)
    {
      if Scoped(records, id, project) {
        r := Some(records[id]);
        records := records[id := ApplyUpdate(records[id], u)];
      } else {
        r := None;
      }
    }

    /** `findOneAndDelete({project_name, _id})`: removes and returns the scoped record. */
    method FindOneAndDelete(id: string, project: string) returns (r: Option<Issue>)
      requires Valid()
      modifies this
      ensures Valid()
      ensures r.Some? <==> Scoped(old(records), id, project)
      ensures r.Some? ==> r.value == old(records)[id] && records == old(records) - {id}
      ensures r.None? ==> records == old(records)
    {
      if Scoped(records, id, project) {
        r := Some(records[id]);
        records := records - {id};
      } else {
        r := None;
      }
    }
  }
}
