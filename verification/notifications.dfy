/**
 * The owner's application notifications (`useProjectNotifications`): the
 * pending applications to the user's own projects, decorated with the
 * project title and the applicant's names, and the status update that
 * removes an entry from the list.
 */
module Notifications {
  import opened Common
  import opened Text
  import opened Backend

  /** The applicant as the list shows them; a missing or empty name is `None` (JavaScript `null`). */
  datatype Applicant = Applicant(id: Id, firstName: Option<string>, lastName: Option<string>)

  /** One list entry: the application row as read, its project's title and its applicant. */
  datatype Entry = Entry(id: Id, row: Application, title: string, applicant: Applicant)

  /** The hook's state: the list and the loading flag. */
  datatype View = View(entries: seq<Entry>, loading: bool)

  /**
   * The rows whose per-row `.single()` lookups fail: the project-title
   * lookup, and the applicant-profile lookup. The hook ignores these errors
   * and falls back as if the project or profile were missing.
   */
  datatype Lookups = Lookups(title: set<Id>, profile: set<Id>)

  /** Which of the two list queries fails, and which per-row lookups fail. */
  datatype Faults = Faults(projects: bool, applications: bool, lookups: Lookups)

  /**
   * The order the database lists `project_applications` rows in: every row
   * once. It is a parameter because the query has no `order by`.
   */
  predicate Listing(order: seq<Id>, s: Store) {
    && (forall i, j :: 0 <= i < j < |order| ==> order[i] != order[j])
    && (forall id :: id in order ==> id in s.applications)
    && (forall id :: id in s.applications ==> id in order)
  }

  /** The user's projects: `projects.select().eq("creator_id", userId)`. */
  function Owned(s: Store, userId: Id): (owned: set<Id>)
    ensures forall p :: p in owned <==> p in s.projects && s.projects[p].creatorId == userId
  {
    set p | p in s.projects && s.projects[p].creatorId == userId
  }

  /** The row `id` is pending and belongs to one of `owned`. */
  predicate PendingIn(s: Store, owned: set<Id>, id: Id) {
    id in s.applications && s.applications[id].status == Pending && s.applications[id].projectId in owned
  }

  /** The pending rows of the owned projects, in the database's order. */
  function PendingRows(s: Store, owned: set<Id>, order: seq<Id>): (ids: seq<Id>)
    ensures Subsequence(ids, order)
    ensures forall i :: 0 <= i < |ids| ==> PendingIn(s, owned, ids[i])
    ensures forall id :: id in ids <==> id in order && PendingIn(s, owned, id)
  {
    FilterCounts(order, id => PendingIn(s, owned, id));
    Filter(order, id => PendingIn(s, owned, id))
  }

  /** The project's title as the row's lookup finds it: `None` when the lookup fails or finds no project. */
  function FoundTitle(s: Store, lk: Lookups, id: Id): Option<string>
    requires id in s.applications
  {
    var app := s.applications[id];
    if id !in lk.title && app.projectId in s.projects then Some(s.projects[app.projectId].title) else None
  }

  /** The applicant's profile as the row's lookup finds it: `None` when the lookup fails or finds no profile. */
  function FoundProfile(s: Store, lk: Lookups, id: Id): Option<Person>
    requires id in s.applications
  {
    var app := s.applications[id];
    if id !in lk.profile && app.applicantId in s.details then Some(s.details[app.applicantId]) else None
  }

  /**
   * The decoration of one row: the project title falls back to "Unknown
   * Project" when its lookup fails, finds no project or finds an empty
   * title, and a name that is missing or empty becomes `None`.
   */
  function Decorate(s: Store, lk: Lookups, id: Id): (e: Entry)
    requires id in s.applications
    ensures e.id == id && e.row == s.applications[id]
    ensures e.applicant.id == e.row.applicantId
    ensures e.title != ""
    ensures var found := FoundTitle(s, lk, id);
            e.title == (if found.Some? && found.value != "" then found.value else "Unknown Project")
    // a failed title lookup shows the fallback even though the project exists
    ensures id in lk.title ==> e.title == "Unknown Project"
    ensures e.applicant.firstName.Some? <==> FoundProfile(s, lk, id).Some? && Present(FoundProfile(s, lk, id).value.firstName)
    ensures e.applicant.lastName.Some? <==> FoundProfile(s, lk, id).Some? && Present(FoundProfile(s, lk, id).value.lastName)
    ensures e.applicant.firstName.Some? ==> e.applicant.firstName == FoundProfile(s, lk, id).value.firstName
    ensures e.applicant.lastName.Some? ==> e.applicant.lastName == FoundProfile(s, lk, id).value.lastName
    ensures id in lk.profile ==> e.applicant.firstName.None? && e.applicant.lastName.None?
  {
    var app := s.applications[id];
    var found := FoundTitle(s, lk, id);
    var title := if found.Some? then Or(found.value, "Unknown Project") else "Unknown Project";
    var person := FoundProfile(s, lk, id);
    var first := if person.Some? && Present(person.value.firstName) then person.value.firstName else None;
    var last := if person.Some? && Present(person.value.lastName) then person.value.lastName else None;
    Entry(id, app, title, Applicant(app.applicantId, first, last))
  }

  /** The `for … of` loop: one entry per row, in the same order. */
  function DecorateAll(s: Store, lk: Lookups, ids: seq<Id>): (es: seq<Entry>)
    requires forall i :: 0 <= i < |ids| ==> ids[i] in s.applications
    ensures |es| == |ids|
    ensures forall i :: 0 <= i < |ids| ==> es[i] == Decorate(s, lk, ids[i])
    decreases |ids|
  {
    if |ids| == 0 then []
    else [Decorate(s, lk, ids[0])] + DecorateAll(s, lk, ids[1..])
  }

  /** The list a successful fetch produces. */
  function PendingList(s: Store, lk: Lookups, userId: Id, order: seq<Id>): (es: seq<Entry>)
    ensures forall i :: 0 <= i < |es| ==> es[i].row.status == Pending && es[i].row.projectId in Owned(s, userId)
    ensures |es| == |PendingRows(s, Owned(s, userId), order)|
  {
    DecorateAll(s, lk, PendingRows(s, Owned(s, userId), order))
  }

  /**
   * `fetchApplications`. With no user id nothing is queried; a failed query
   * keeps the previous list; loading always ends false.
   */
  function Fetch(userId: Id, s: Store, order: seq<Id>, f: Faults, prev: View): (v: View)
    ensures !v.loading
    ensures userId == "" ==> v.entries == prev.entries
    ensures userId != "" && f.projects ==> v.entries == prev.entries
    // a user with no projects gets the empty list, whatever the second query would do
    ensures userId != "" && !f.projects && Owned(s, userId) == {} ==> v.entries == []
    ensures userId != "" && !f.projects && Owned(s, userId) != {} && f.applications ==> v.entries == prev.entries
    ensures userId != "" && !f.projects && (Owned(s, userId) == {} || !f.applications) ==>
              v.entries == PendingList(s, f.lookups, userId, order)
  {
    if userId == "" then View(prev.entries, false)
    else if f.projects then View(prev.entries, false)
    else
      var owned := Owned(s, userId);
      if owned == {} then View([], false)
      else if f.applications then View(prev.entries, false)
      else View(PendingList(s, f.lookups, userId, order), false)
  }

  /**
   * The fetched list holds exactly the pending applications to the user's
   * projects, each once, decorated from its own row.
   */
  lemma {:induction false} PendingExactly(s: Store, lk: Lookups, userId: Id, order: seq<Id>)
    requires Listing(order, s)
    ensures var es := PendingList(s, lk, userId, order);
            && (forall id :: (exists i :: 0 <= i < |es| && es[i].id == id)
                               <==> id in s.applications && s.applications[id].status == Pending
                                    && s.applications[id].projectId in s.projects
                                    && s.projects[s.applications[id].projectId].creatorId == userId)
            && (forall i :: 0 <= i < |es| ==> es[i] == Decorate(s, lk, es[i].id))
  {
    var owned := Owned(s, userId);
    var ids := PendingRows(s, owned, order);
    var es := PendingList(s, lk, userId, order);
    forall id
      ensures (exists i :: 0 <= i < |es| && es[i].id == id) <==> id in order && PendingIn(s, owned, id)
    {
      if id in order && PendingIn(s, owned, id) {
        assert id in ids;
        var i :| 0 <= i < |ids| && ids[i] == id;
        assert es[i].id == id;
      }
    }
  }

  /**
   * `updateApplicationStatus`: a successful update stamps the row and drops
   * every entry with that id; a failed one changes neither list nor store.
   */
  function UpdateStatus(entries: seq<Entry>, s: Store, id: Id, status: Status, now: Timestamp, fails: bool): (r: (seq<Entry>, Store))
    ensures fails ==> r == (entries, s)
    ensures !fails ==> r.1 == SetStatus(s, id, status, Some(now))
    ensures !fails ==> forall i :: 0 <= i < |r.0| ==> r.0[i].id != id
    ensures !fails ==> forall e: Entry :: e in r.0 <==> e in entries && e.id != id
    ensures !fails ==> Subsequence(r.0, entries)
    ensures !fails ==> forall e: Entry :: e.id != id ==> multiset(r.0)[e] == multiset(entries)[e]
  {
    if fails then (entries, s)
    else
      FilterCounts(entries, (e: Entry) => e.id != id);
      (Filter(entries, (e: Entry) => e.id != id), SetStatus(s, id, status, Some(now)))
  }

  /** Dropping the decided entry gives the list a fresh fetch would give. */
  lemma {:induction false} RemovalMatchesRefetch(s: Store, lk: Lookups, userId: Id, order: seq<Id>, id: Id, status: Status, now: Timestamp)
    requires status != Pending
    ensures var s' := SetStatus(s, id, status, Some(now));
            PendingList(s', lk, userId, order) == Filter(PendingList(s, lk, userId, order), (e: Entry) => e.id != id)
  {
    var s' := SetStatus(s, id, status, Some(now));
    assert Owned(s', userId) == Owned(s, userId);
    RemovalMatchesRefetchRows(s, lk, Owned(s, userId), order, id, status, now);
  }

  /** The pending rows of an order with a known first row. */
  lemma PendingRowsCons(s: Store, owned: set<Id>, x: Id, rest: seq<Id>)
    ensures PendingRows(s, owned, [x] + rest) == (if PendingIn(s, owned, x) then [x] else []) + PendingRows(s, owned, rest)
  {
    FilterCons(x, rest, id => PendingIn(s, owned, id));
  }

  /** Decorating a sequence with a known first row. */
  lemma DecorateCons(s: Store, lk: Lookups, x: Id, ids: seq<Id>)
    requires x in s.applications && forall i :: 0 <= i < |ids| ==> ids[i] in s.applications
    ensures DecorateAll(s, lk, [x] + ids) == [Decorate(s, lk, x)] + DecorateAll(s, lk, ids)
  {
    assert ([x] + ids)[1..] == ids;
  }

  /** A status write to one row leaves every other row's pending test and decoration as they were. */
  lemma OtherRowsUntouched(s: Store, lk: Lookups, owned: set<Id>, id: Id, status: Status, now: Timestamp, x: Id)
    requires x != id
    ensures PendingIn(SetStatus(s, id, status, Some(now)), owned, x) == PendingIn(s, owned, x)
    ensures x in s.applications ==> Decorate(SetStatus(s, id, status, Some(now)), lk, x) == Decorate(s, lk, x)
  {
  }

  /** After `id` is decided, the fetch over `order` yields the old list without `id`'s entry. */
  predicate RemovalAgrees(s: Store, lk: Lookups, owned: set<Id>, order: seq<Id>, id: Id, status: Status, now: Timestamp) {
    var s' := SetStatus(s, id, status, Some(now));
    DecorateAll(s', lk, PendingRows(s', owned, order))
    == Filter(DecorateAll(s, lk, PendingRows(s, owned, order)), (e: Entry) => e.id != id)
  }

  /** `RemovalMatchesRefetch` for any set of owned projects, by induction on the row order. */
  lemma {:induction false} RemovalMatchesRefetchRows(s: Store, lk: Lookups, owned: set<Id>, order: seq<Id>, id: Id, status: Status, now: Timestamp)
    requires status != Pending
    ensures var s' := SetStatus(s, id, status, Some(now));
            DecorateAll(s', lk, PendingRows(s', owned, order))
            == Filter(DecorateAll(s, lk, PendingRows(s, owned, order)), (e: Entry) => e.id != id)
    decreases |order|
  {
    if |order| > 0 {
      var x, rest := order[0], order[1..];
      assert order == [x] + rest;
      RemovalMatchesRefetchRows(s, lk, owned, rest, id, status, now);
      if x == id {
        RemovalStepDecided(s, lk, owned, rest, id, status, now);
      } else {
        RemovalStepOther(s, lk, owned, x, rest, id, status, now);
      }
    }
  }

  /** The decided row heads the order: it is dropped from the old list and absent from the new one. */
  lemma RemovalStepDecided(s: Store, lk: Lookups, owned: set<Id>, rest: seq<Id>, id: Id, status: Status, now: Timestamp)
    requires status != Pending && RemovalAgrees(s, lk, owned, rest, id, status, now)
    ensures RemovalAgrees(s, lk, owned, [id] + rest, id, status, now)
  {
    var s' := SetStatus(s, id, status, Some(now));
    PendingRowsCons(s, owned, id, rest);
    PendingRowsCons(s', owned, id, rest);
    var tail := PendingRows(s, owned, rest);
    if PendingIn(s, owned, id) {
      DecorateCons(s, lk, id, tail);
      FilterCons(Decorate(s, lk, id), DecorateAll(s, lk, tail), (e: Entry) => e.id != id);
    }
  }

  /** Another row heads the order: it is kept, or left out, in both lists alike. */
  lemma RemovalStepOther(s: Store, lk: Lookups, owned: set<Id>, x: Id, rest: seq<Id>, id: Id, status: Status, now: Timestamp)
    requires status != Pending && x != id && RemovalAgrees(s, lk, owned, rest, id, status, now)
    ensures RemovalAgrees(s, lk, owned, [x] + rest, id, status, now)
  {
    var s' := SetStatus(s, id, status, Some(now));
    PendingRowsCons(s, owned, x, rest);
    PendingRowsCons(s', owned, x, rest);
    OtherRowsUntouched(s, lk, owned, id, status, now, x);
    if PendingIn(s, owned, x) {
      var tail := PendingRows(s, owned, rest);
      DecorateCons(s, lk, x, tail);
      DecorateCons(s', lk, x, PendingRows(s', owned, rest));
      FilterCons(Decorate(s, lk, x), DecorateAll(s, lk, tail), (e: Entry) => e.id != id);
    }
  }
}
