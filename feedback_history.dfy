/**
 * The feedback history of Frontend/src/components/FeedbackHistory.jsx: a role-scoped view of
 * the "feedbacks" collection, deletion from the full collection, and a case-insensitive search
 * over the counterpart's id.
 */
module FeedbackHistory {
  import opened Wrappers
  import opened Records
  import opened Storage
  import Seqs
  import Text

  /** `user?.email || user?.id`: the fetch runs only for a user with an email or an id. */
  predicate ShouldFetch(user: Option<User>) {
    user.Some? && (Truthy(user.value.email) || Truthy(user.value.id))
  }

  /** The records the fetch shows: by `manager_id` for managers, by `employee_id` for employees, none otherwise. */
  function FetchScope(user: User, all: seq<Feedback>): (r: seq<Feedback>)
    ensures user.role == Some("manager") ==>
              (forall i :: 0 <= i < |r| ==> r[i].manager_id == user.email) &&
              (forall i :: 0 <= i < |all| && all[i].manager_id == user.email ==> all[i] in r) &&
              |r| == Seqs.Count(ManagedBy(user.email), all)
    ensures user.role == Some("employee") ==>
              (forall i :: 0 <= i < |r| ==> r[i].employee_id == user.id) &&
              (forall i :: 0 <= i < |all| && all[i].employee_id == user.id ==> all[i] in r) &&
              |r| == Seqs.Count(ReceivedBy(user.id), all)
    ensures user.role != Some("manager") && user.role != Some("employee") ==> r == []
    ensures Seqs.IsSubsequence(r, all)
  {
    if user.role == Some("manager") then
      Seqs.FilterIsSubsequence(ManagedBy(user.email), all);
      Seqs.FilterLength(ManagedBy(user.email), all);
      Seqs.Filter(ManagedBy(user.email), all)
    else if user.role == Some("employee") then
      Seqs.FilterIsSubsequence(ReceivedBy(user.id), all);
      Seqs.FilterLength(ReceivedBy(user.id), all);
      Seqs.Filter(ReceivedBy(user.id), all)
    else []
  }

  /** The filter handleDelete re-applies: by `manager_id` for managers, by `employee_id` for everyone else. */
  function DeleteScope(user: User): Feedback -> bool {
    if user.role == Some("manager") then ManagedBy(user.email) else ReceivedBy(user.id)
  }

  /**
   * The two scopes agree for managers and employees. For any other role the fetch shows
   * nothing, but after a deletion the view shows the records whose `employee_id` is the
   * user's id.
   */
  lemma ScopesAfterDelete(user: User, all: seq<Feedback>)
    ensures user.role == Some("manager") || user.role == Some("employee") ==>
              Seqs.Filter(DeleteScope(user), all) == FetchScope(user, all)
    ensures user.role != Some("manager") && user.role != Some("employee") ==>
              FetchScope(user, all) == [] &&
              Seqs.Filter(DeleteScope(user), all) == Seqs.Filter(ReceivedBy(user.id), all)
  {
  }

  /** The roles whose view after a deletion can differ from the fetched view: a record shows up that the fetch hid. */
  lemma ScopesDiffer(all: seq<Feedback>, id: string)
    requires exists i :: 0 <= i < |all| && all[i].employee_id == Some(id)
    ensures var user := User(None, Some(id), Some("admin"), None);
            FetchScope(user, all) == [] && Seqs.Filter(DeleteScope(user), all) != []
  {
    var user := User(None, Some(id), Some("admin"), None);
    var i :| 0 <= i < |all| && all[i].employee_id == Some(id);
    assert DeleteScope(user)(all[i]);
    assert all[i] in Seqs.Filter(DeleteScope(user), all);
  }

  /** The search key: the employee for managers, the manager for everyone else. */
  function SearchKey(user: User, fb: Feedback): Option<string> {
    if user.role == Some("manager") then fb.employee_id else fb.manager_id
  }

  /** `searchKey?.toLowerCase().includes(searchTerm.toLowerCase())`: false when the key is absent. */
  predicate Matches(user: User, term: string, fb: Feedback) {
    SearchKey(user, fb).Some? && Text.Contains(Text.ToLower(SearchKey(user, fb).value), Text.ToLower(term))
  }

  /** `Matches` as the predicate a filter takes. */
  function Matching(user: User, term: string): Feedback -> bool {
    (fb: Feedback) => Matches(user, term, fb)
  }

  /** The records shown for a search term. */
  function SearchFilter(user: User, feedbacks: seq<Feedback>, term: string): (r: seq<Feedback>)
    ensures Seqs.IsSubsequence(r, feedbacks)
    ensures forall i :: 0 <= i < |r| ==> Matches(user, term, r[i])
    ensures forall i :: 0 <= i < |feedbacks| && Matches(user, term, feedbacks[i]) ==> feedbacks[i] in r
    ensures |r| == Seqs.Count(Matching(user, term), feedbacks)
  {
    Seqs.FilterIsSubsequence(Matching(user, term), feedbacks);
    Seqs.FilterLength(Matching(user, term), feedbacks);
    Seqs.Filter(Matching(user, term), feedbacks)
  }

  /** The empty term keeps exactly the records that carry the search key. */
  lemma EmptySearch(user: User, feedbacks: seq<Feedback>)
    ensures SearchFilter(user, feedbacks, "") ==
              Seqs.Filter((fb: Feedback) => SearchKey(user, fb).Some?, feedbacks)
  {
    forall fb: Feedback | SearchKey(user, fb).Some?
      ensures Matches(user, "", fb)
    {
      Text.ContainsEmpty(Text.ToLower(SearchKey(user, fb).value));
    }
    FilterSame(feedbacks, Matching(user, ""), (fb: Feedback) => SearchKey(user, fb).Some?);
  }

  /** Filters by predicates that agree on every element give the same result. */
  lemma {:induction false} FilterSame(s: seq<Feedback>, p: Feedback -> bool, q: Feedback -> bool)
    requires forall i :: 0 <= i < |s| ==> p(s[i]) == q(s[i])
    ensures Seqs.Filter(p, s) == Seqs.Filter(q, s)
  {
    if s != [] {
      FilterSame(s[1..], p, q);
    }
  }

  /** The search is case-insensitive: a record is found by the upper-case or lower-case form of a term alike. */
  lemma SearchIgnoresCase(user: User, feedbacks: seq<Feedback>, term: string)
    ensures SearchFilter(user, feedbacks, Text.ToLower(term)) == SearchFilter(user, feedbacks, term)
  {
    Text.ToLowerIdempotent(term);
    FilterSame(feedbacks, Matching(user, Text.ToLower(term)), Matching(user, term));
  }

  /** The history view's state. */
  class History {
    /** The session user, possibly absent. */
    const user: Option<User>
    var feedbacks: seq<Feedback>
    var searchTerm: string
    var loading: bool

    constructor(user: Option<User>)
      ensures this.user == user && feedbacks == [] && searchTerm == "" && !loading
    {
      this.user := user;
      feedbacks := [];
      searchTerm := "";
      loading := false;
    }

    /**
     * The fetch effect: without an email or an id nothing happens; otherwise the role-scoped
     * records are shown, unless reading the collection throws, which is caught and leaves the
     * view as it was. Loading is false again in every case.
     */
    method Fetch(store: LocalStorage)
      modifies this
      ensures searchTerm == old(searchTerm)
      ensures !ShouldFetch(user) ==> feedbacks == old(feedbacks) && loading == old(loading)
      ensures ShouldFetch(user) ==>
                !loading &&
                feedbacks == if FeedbacksReadable(store.items) then FetchScope(user.value, ReadFeedbacks(store.items))
                             else old(feedbacks)
    {
      if ShouldFetch(user) {
        loading := true;
        if FeedbacksReadable(store.items) {
          feedbacks := FetchScope(user.value, ReadFeedbacks(store.items));
        }
        loading := false;
      }
    }

    /**
     * handleDelete: after confirmation, removes every record with the id from the full stored
     * collection and shows the remainder through the delete scope. Reading `user.role` without
     * a user throws once the remainder is non-empty; the error is caught after the write.
     */
    method HandleDelete(store: LocalStorage, id: Option<Id>, confirmed: bool)
      modifies this, store
      ensures searchTerm == old(searchTerm) && loading == old(loading)
      ensures !confirmed || !FeedbacksReadable(old(store.items)) ==>
                feedbacks == old(feedbacks) && store.items == old(store.items)
      ensures confirmed && FeedbacksReadable(old(store.items)) ==>
                var updated := DeleteWhere(old(ReadFeedbacks(store.items)), id);
                store.items == old(store.items)[FeedbacksKey := FeedbackArray(updated)] &&
                feedbacks == if user.Some? then Seqs.Filter(DeleteScope(user.value), updated)
                             else if updated == [] then [] else old(feedbacks)
    {
      if !confirmed || !FeedbacksReadable(store.items) {
        return;
      }
      var updated := DeleteWhere(ReadFeedbacks(store.items), id);
      store.SetItem(FeedbacksKey, FeedbackArray(updated));
      if user.Some? {
        feedbacks := Seqs.Filter(DeleteScope(user.value), updated);
      } else if updated == [] {
        feedbacks := [];
      }
    }

    method SetSearchTerm(term: string)
      modifies this
      ensures searchTerm == term && feedbacks == old(feedbacks) && loading == old(loading)
    {
      searchTerm := term;
    }

    /** `filteredFeedbacks`, the list rendered. */
    function Shown(): (r: seq<Feedback>)
      requires user.Some?
      reads this
      ensures Seqs.IsSubsequence(r, feedbacks)
      ensures forall i :: 0 <= i < |r| ==> Matches(user.value, searchTerm, r[i])
      ensures forall i :: 0 <= i < |feedbacks| && Matches(user.value, searchTerm, feedbacks[i]) ==> feedbacks[i] in r
      ensures |r| == Seqs.Count(Matching(user.value, searchTerm), feedbacks)
    {
      SearchFilter(user.value, feedbacks, searchTerm)
    }
  }

  /** After a deletion by a manager or an employee, no shown record carries the deleted id. */
  lemma DeleteHidesId(user: User, all: seq<Feedback>, id: Option<Id>)
    ensures forall i :: 0 <= i < |Seqs.Filter(DeleteScope(user), DeleteWhere(all, id))| ==>
              Seqs.Filter(DeleteScope(user), DeleteWhere(all, id))[i].id != id
  {
    DeleteWhereSpec(all, id);
  }
}
