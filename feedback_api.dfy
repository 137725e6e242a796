/**
 * The second feedback repository, Frontend/src/api/feedback.js. It performs the same
 * read-modify-write cycles as Frontend/src/utils/api.js, but reads the collection with
 * `data ? JSON.parse(data) : []`, generates ids with Math.random, and selects records by the
 * camelCase keys `managerId` and `employeeId`, which no page ever writes.
 */
module FeedbackApi {
  import opened Wrappers
  import opened Records
  import opened Storage
  import Seqs

  /** `data ? JSON.parse(data) : []` yields an array: absent, the empty string, or an array. */
  predicate StoredReadable(items: Items) {
    match Get(items, FeedbacksKey)
    case None => true
    case Some(v) => v == Text("") || v.FeedbackArray?
  }

  /** getStoredFeedbacks. */
  function GetStoredFeedbacks(items: Items): (r: seq<Feedback>)
    requires StoredReadable(items)
    ensures Get(items, FeedbacksKey).None? || Get(items, FeedbacksKey) == Some(Text("")) ==> r == []
    ensures Get(items, FeedbacksKey).Some? && Get(items, FeedbacksKey).value.FeedbackArray? ==>
              r == Get(items, FeedbacksKey).value.feedbacks
  {
    match Get(items, FeedbacksKey)
    case Some(FeedbackArray(fbs)) => fbs
    case _ => []
  }

  /** setStoredFeedbacks. */
  method SetStoredFeedbacks(store: LocalStorage, feedbacks: seq<Feedback>)
    modifies store
    ensures store.items == old(store.items)[FeedbacksKey := FeedbackArray(feedbacks)]
    ensures StoredReadable(store.items) && GetStoredFeedbacks(store.items) == feedbacks
  {
    store.SetItem(FeedbacksKey, FeedbackArray(feedbacks));
  }

  /** `"_" + Math.random().toString(36).substr(2, 9)`, with the random digits as a parameter. */
  function GenerateId(randomDigits: string): Id {
    Str("_" + randomDigits)
  }

  /**
   * `{id: generateId(), ...feedbackData, createdAt, acknowledged: false, comments: []}`:
   * `createdAt`, `acknowledged` and `comments` cannot be overridden by the input; its `id` can.
   */
  function NewFeedback(data: Feedback, randomDigits: string, createdAt: string): (r: Feedback)
    ensures r.acknowledged == Some(false) && r.comments == Some([]) && r.createdAt == Some(createdAt)
    ensures r.id == if data.id.Some? then data.id else Some(GenerateId(randomDigits))
    ensures r.(id := data.id, acknowledged := data.acknowledged, comments := data.comments,
               createdAt := data.createdAt) == data
  {
    Merge(NoFields.(id := Some(GenerateId(randomDigits))), data)
      .(createdAt := Some(createdAt), acknowledged := Some(false), comments := Some([]))
  }

  /** createFeedback: pushes one new record at the end of the collection and returns it. */
  method CreateFeedback(store: LocalStorage, data: Feedback, randomDigits: string, createdAt: string)
    returns (created: Feedback)
    requires StoredReadable(store.items)
    modifies store
    ensures created == NewFeedback(data, randomDigits, createdAt)
    ensures store.items ==
              old(store.items)[FeedbacksKey := FeedbackArray(old(GetStoredFeedbacks(store.items)) + [created])]
  {
    var feedbacks := GetStoredFeedbacks(store.items);
    created := NewFeedback(data, randomDigits, createdAt);
    feedbacks := feedbacks + [created];
    SetStoredFeedbacks(store, feedbacks);
  }

  /** `fb.managerId === m`. */
  function ManagedByCamel(m: Option<string>): Feedback -> bool {
    (fb: Feedback) => fb.managerId == m
  }

  /** `fb.employeeId === e`. */
  function ReceivedByCamel(e: Option<string>): Feedback -> bool {
    (fb: Feedback) => fb.employeeId == e
  }

  /** getManagerFeedbacks: the stored records whose camelCase `managerId` is the argument. */
  function GetManagerFeedbacks(items: Items, managerId: string): (r: seq<Feedback>)
    requires StoredReadable(items)
    ensures forall i :: 0 <= i < |r| ==> r[i].managerId == Some(managerId)
    ensures Seqs.IsSubsequence(r, GetStoredFeedbacks(items))
    ensures |r| == Seqs.Count(ManagedByCamel(Some(managerId)), GetStoredFeedbacks(items))
  {
    Seqs.FilterIsSubsequence(ManagedByCamel(Some(managerId)), GetStoredFeedbacks(items));
    Seqs.FilterLength(ManagedByCamel(Some(managerId)), GetStoredFeedbacks(items));
    Seqs.Filter(ManagedByCamel(Some(managerId)), GetStoredFeedbacks(items))
  }

  /** getEmployeeFeedbacks: the stored records whose camelCase `employeeId` is the argument. */
  function GetEmployeeFeedbacks(items: Items, employeeId: string): (r: seq<Feedback>)
    requires StoredReadable(items)
    ensures forall i :: 0 <= i < |r| ==> r[i].employeeId == Some(employeeId)
    ensures Seqs.IsSubsequence(r, GetStoredFeedbacks(items))
    ensures |r| == Seqs.Count(ReceivedByCamel(Some(employeeId)), GetStoredFeedbacks(items))
  {
    Seqs.FilterIsSubsequence(ReceivedByCamel(Some(employeeId)), GetStoredFeedbacks(items));
    Seqs.FilterLength(ReceivedByCamel(Some(employeeId)), GetStoredFeedbacks(items));
    Seqs.Filter(ReceivedByCamel(Some(employeeId)), GetStoredFeedbacks(items))
  }

  /**
   * Records that carry only the snake_case keys, which is every record the pages and
   * Frontend/src/utils/api.js write, are invisible to the camelCase getters.
   */
  lemma CamelGettersMissSnakeRecords(items: Items, managerId: string, employeeId: string)
    requires StoredReadable(items)
    requires forall i :: 0 <= i < |GetStoredFeedbacks(items)| ==>
               GetStoredFeedbacks(items)[i].managerId.None? && GetStoredFeedbacks(items)[i].employeeId.None?
    ensures GetManagerFeedbacks(items, managerId) == []
    ensures GetEmployeeFeedbacks(items, employeeId) == []
  {
    Seqs.FilterNone(ManagedByCamel(Some(managerId)), GetStoredFeedbacks(items));
    Seqs.FilterNone(ReceivedByCamel(Some(employeeId)), GetStoredFeedbacks(items));
  }

  /** updateFeedback: shallow-merges into the records with the id; returns the first one. */
  method UpdateFeedback(store: LocalStorage, id: Id, updatedData: Feedback) returns (updated: Option<Feedback>)
    requires StoredReadable(store.items)
    modifies store
    ensures store.items == old(store.items)[FeedbacksKey :=
              FeedbackArray(UpdateWhere(old(GetStoredFeedbacks(store.items)), Some(id), updatedData))]
    ensures updated == FindById(UpdateWhere(old(GetStoredFeedbacks(store.items)), Some(id), updatedData), Some(id))
  {
    var feedbacks := GetStoredFeedbacks(store.items);
    var updatedFeedbacks := UpdateWhere(feedbacks, Some(id), updatedData);
    SetStoredFeedbacks(store, updatedFeedbacks);
    updated := FindById(updatedFeedbacks, Some(id));
  }

  /** deleteFeedback: removes every record with the id and always reports success. */
  method DeleteFeedback(store: LocalStorage, id: Id) returns (success: bool)
    requires StoredReadable(store.items)
    modifies store
    ensures store.items == old(store.items)[FeedbacksKey :=
              FeedbackArray(DeleteWhere(old(GetStoredFeedbacks(store.items)), Some(id)))]
    ensures success
  {
    var feedbacks := GetStoredFeedbacks(store.items);
    SetStoredFeedbacks(store, DeleteWhere(feedbacks, Some(id)));
    success := true;
  }

  /** The store after toggleAcknowledgeFeedback. */
  function StoreAfterToggle(items: Items, id: Id): (r: Items)
    requires StoredReadable(items)
    ensures StoredReadable(r)
  {
    items[FeedbacksKey := FeedbackArray(ToggleWhere(GetStoredFeedbacks(items), Some(id)))]
  }

  /** toggleAcknowledgeFeedback: flips `acknowledged` on the records with the id. */
  method ToggleAcknowledgeFeedback(store: LocalStorage, id: Id) returns (toggled: Option<Feedback>)
    requires StoredReadable(store.items)
    modifies store
    ensures store.items == StoreAfterToggle(old(store.items), id)
    ensures toggled == match FindById(old(GetStoredFeedbacks(store.items)), Some(id))
                       case None => None
                       case Some(fb) => Some(Toggled(fb))
  {
    var feedbacks := GetStoredFeedbacks(store.items);
    var updatedFeedbacks := ToggleWhere(feedbacks, Some(id));
    SetStoredFeedbacks(store, updatedFeedbacks);
    FindAfterMapWhere(feedbacks, Some(id), Toggled);
    toggled := FindById(updatedFeedbacks, Some(id));
  }

  /**
   * Toggling the same id twice gives back the stored collection, provided every record with
   * that id has an `acknowledged` key (records made by createFeedback always do). Without the
   * key, the first toggle adds `acknowledged: true` and the second leaves `false` behind.
   */
  lemma ToggleTwiceRestoresStore(items: Items, id: Id)
    requires StoredReadable(items)
    requires Get(items, FeedbacksKey).Some? && Get(items, FeedbacksKey).value.FeedbackArray?
    requires forall fb :: fb in GetStoredFeedbacks(items) && fb.id == Some(id) ==> fb.acknowledged.Some?
    ensures StoreAfterToggle(StoreAfterToggle(items, id), id) == items
  {
    ToggleTwice(GetStoredFeedbacks(items), Some(id));
  }

  /** A record without the key does not come back unchanged: it ends with `acknowledged: false`. */
  lemma ToggleTwiceAddsKey(fb: Feedback)
    requires fb.acknowledged.None?
    ensures Toggled(Toggled(fb)) == fb.(acknowledged := Some(false))
    ensures Toggled(Toggled(fb)) != fb
  {
  }

  /** submitFeedbackComment: appends the caller's comment unchanged to the records with the id. */
  method SubmitFeedbackComment(store: LocalStorage, id: Id, comment: Comment) returns (commented: Option<Feedback>)
    requires StoredReadable(store.items)
    modifies store
    ensures store.items == old(store.items)[FeedbacksKey :=
              FeedbackArray(AppendCommentWhere(old(GetStoredFeedbacks(store.items)), Some(id), comment))]
    ensures commented == match FindById(old(GetStoredFeedbacks(store.items)), Some(id))
                         case None => None
                         case Some(fb) => Some(WithComment(fb, comment))
  {
    var feedbacks := GetStoredFeedbacks(store.items);
    var updatedFeedbacks := AppendCommentWhere(feedbacks, Some(id), comment);
    SetStoredFeedbacks(store, updatedFeedbacks);
    FindAfterMapWhere(feedbacks, Some(id), (fb: Feedback) => WithComment(fb, comment));
    commented := FindById(updatedFeedbacks, Some(id));
  }
}
