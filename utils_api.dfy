/**
 * The feedback repository of Frontend/src/utils/api.js: every operation reads the whole
 * "feedbacks" collection, transforms it and writes the whole collection back. Records are
 * selected by the snake_case keys `manager_id` and `employee_id`.
 */
module UtilsApi {
  import opened Wrappers
  import opened Records
  import opened Storage
  import Seqs
  import Text

  /** getAllFeedbacks. */
  function GetAllFeedbacks(items: Items): (r: seq<Feedback>)
    requires FeedbacksReadable(items)
    ensures FeedbacksKey !in items ==> r == []
    ensures Get(items, FeedbacksKey) == Some(JsonNull) ==> r == []
    ensures Get(items, FeedbacksKey).Some? && Get(items, FeedbacksKey).value.FeedbackArray? ==>
              r == Get(items, FeedbacksKey).value.feedbacks
  {
    ReadFeedbacks(items)
  }

  /** getManagerFeedbacks: exactly the stored records whose `manager_id` is the argument, in stored order. */
  function GetManagerFeedbacks(items: Items, managerId: string): (r: seq<Feedback>)
    requires FeedbacksReadable(items)
    ensures forall i :: 0 <= i < |r| ==> r[i].manager_id == Some(managerId)
    ensures Seqs.IsSubsequence(r, GetAllFeedbacks(items))
    ensures |r| == Seqs.Count(ManagedBy(Some(managerId)), GetAllFeedbacks(items))
  {
    Seqs.FilterIsSubsequence(ManagedBy(Some(managerId)), GetAllFeedbacks(items));
    Seqs.FilterLength(ManagedBy(Some(managerId)), GetAllFeedbacks(items));
    Seqs.Filter(ManagedBy(Some(managerId)), GetAllFeedbacks(items))
  }

  /** getEmployeeFeedbacks: exactly the stored records whose `employee_id` is the argument, in stored order. */
  function GetEmployeeFeedbacks(items: Items, employeeId: string): (r: seq<Feedback>)
    requires FeedbacksReadable(items)
    ensures forall i :: 0 <= i < |r| ==> r[i].employee_id == Some(employeeId)
    ensures Seqs.IsSubsequence(r, GetAllFeedbacks(items))
    ensures |r| == Seqs.Count(ReceivedBy(Some(employeeId)), GetAllFeedbacks(items))
  {
    Seqs.FilterIsSubsequence(ReceivedBy(Some(employeeId)), GetAllFeedbacks(items));
    Seqs.FilterLength(ReceivedBy(Some(employeeId)), GetAllFeedbacks(items));
    Seqs.Filter(ReceivedBy(Some(employeeId)), GetAllFeedbacks(items))
  }

  /** The id createFeedback generates: `"fb-" + Date.now()`. */
  function GeneratedId(now: nat): Id {
    Str("fb-" + Text.NatToString(now))
  }

  /**
   * `{id: "fb-" + now, ...data, createdAt, acknowledged: false, comments: []}`: the three keys
   * after the spread always win; the generated id loses to an id in `data`; everything else
   * comes from `data`.
   */
  function NewFeedback(data: Feedback, now: nat, createdAt: string): (r: Feedback)
    ensures r.acknowledged == Some(false) && r.comments == Some([]) && r.createdAt == Some(createdAt)
    ensures r.id == if data.id.Some? then data.id else Some(GeneratedId(now))
    ensures r.(id := data.id, acknowledged := data.acknowledged, comments := data.comments,
               createdAt := data.createdAt) == data
  {
    Merge(NoFields.(id := Some(GeneratedId(now))), data)
      .(createdAt := Some(createdAt), acknowledged := Some(false), comments := Some([]))
  }

  /** The store after createFeedback. */
  function StoreAfterCreate(items: Items, data: Feedback, now: nat, createdAt: string): Items
    requires FeedbacksReadable(items)
  {
    items[FeedbacksKey := FeedbackArray(GetAllFeedbacks(items) + [NewFeedback(data, now, createdAt)])]
  }

  /** createFeedback: appends one record at the end and returns it. */
  method CreateFeedback(store: LocalStorage, data: Feedback, now: nat, createdAt: string)
    returns (created: Feedback)
    requires FeedbacksReadable(store.items)
    modifies store
    ensures created == NewFeedback(data, now, createdAt)
    ensures store.items == StoreAfterCreate(old(store.items), data, now, createdAt)
  {
    var feedbacks := GetAllFeedbacks(store.items);
    created := NewFeedback(data, now, createdAt);
    feedbacks := feedbacks + [created];
    store.SetItem(FeedbacksKey, FeedbackArray(feedbacks));
  }

  /**
   * After createFeedback the recipient's list is the old one with the new record at its end,
   * and every other employee's list is unchanged.
   */
  lemma CreateThenListByEmployee(items: Items, data: Feedback, now: nat, createdAt: string, employee: string)
    requires FeedbacksReadable(items)
    ensures FeedbacksReadable(StoreAfterCreate(items, data, now, createdAt))
    ensures GetEmployeeFeedbacks(StoreAfterCreate(items, data, now, createdAt), employee) ==
              GetEmployeeFeedbacks(items, employee) +
              (if data.employee_id == Some(employee) then [NewFeedback(data, now, createdAt)] else [])
  {
    var fb := NewFeedback(data, now, createdAt);
    Seqs.FilterConcat(ReceivedBy(Some(employee)), GetAllFeedbacks(items), [fb]);
    assert [fb][1..] == [];
  }

  /** The store after updateFeedback. */
  function StoreAfterUpdate(items: Items, id: Id, data: Feedback): Items
    requires FeedbacksReadable(items)
  {
    items[FeedbacksKey := FeedbackArray(UpdateWhere(GetAllFeedbacks(items), Some(id), data))]
  }

  /** updateFeedback: shallow-merges `data` into the records with the id; returns the first one. */
  method UpdateFeedback(store: LocalStorage, id: Id, data: Feedback) returns (updated: Option<Feedback>)
    requires FeedbacksReadable(store.items)
    modifies store
    ensures store.items == StoreAfterUpdate(old(store.items), id, data)
    ensures updated == FindById(UpdateWhere(old(GetAllFeedbacks(store.items)), Some(id), data), Some(id))
  {
    var feedbacks := GetAllFeedbacks(store.items);
    var updatedFeedbacks := UpdateWhere(feedbacks, Some(id), data);
    store.SetItem(FeedbacksKey, FeedbackArray(updatedFeedbacks));
    updated := FindById(updatedFeedbacks, Some(id));
  }

  /**
   * What updateFeedback returns: the first record with the id, merged with `data`, or nothing
   * when no record has the id (the collection is then written back unchanged).
   */
  lemma UpdateResult(s: seq<Feedback>, id: Id, data: Feedback)
    requires data.id.None? || data.id == Some(id)
    ensures FindById(UpdateWhere(s, Some(id), data), Some(id)) ==
              match FindById(s, Some(id))
              case None => None
              case Some(fb) => Some(Merge(fb, data))
    ensures FindById(s, Some(id)).None? ==> UpdateWhere(s, Some(id), data) == s
  {
    FindAfterMapWhere(s, Some(id), (fb: Feedback) => Merge(fb, data));
  }

  /**
   * Updating one key changes that key of the records with the id and nothing else: every
   * other record and every other key are unchanged.
   */
  lemma UpdateOneKey(s: seq<Feedback>, id: Id, sentiment: string)
    ensures var r := UpdateWhere(s, Some(id), NoFields.(sentiment := Some(sentiment)));
            |r| == |s| &&
            forall i :: 0 <= i < |s| ==>
              r[i] == if s[i].id == Some(id) then s[i].(sentiment := Some(sentiment)) else s[i]
  {
  }

  /** The store after deleteFeedback. */
  function StoreAfterDelete(items: Items, id: Id): Items
    requires FeedbacksReadable(items)
  {
    items[FeedbacksKey := FeedbackArray(DeleteWhere(GetAllFeedbacks(items), Some(id)))]
  }

  /** deleteFeedback: removes every record with the id and reports success, matched or not. */
  method DeleteFeedback(store: LocalStorage, id: Id) returns (success: bool)
    requires FeedbacksReadable(store.items)
    modifies store
    ensures store.items == StoreAfterDelete(old(store.items), id)
    ensures success
  {
    var feedbacks := GetAllFeedbacks(store.items);
    var filtered := DeleteWhere(feedbacks, Some(id));
    store.SetItem(FeedbacksKey, FeedbackArray(filtered));
    success := true;
  }

  /** After deleteFeedback no list operation returns a record with that id. */
  lemma DeleteThenList(items: Items, id: Id, employee: string, manager: string)
    requires FeedbacksReadable(items)
    ensures FeedbacksReadable(StoreAfterDelete(items, id))
    ensures forall fb :: fb in GetAllFeedbacks(StoreAfterDelete(items, id)) ==> fb.id != Some(id)
    ensures forall fb :: fb in GetEmployeeFeedbacks(StoreAfterDelete(items, id), employee) ==> fb.id != Some(id)
    ensures forall fb :: fb in GetManagerFeedbacks(StoreAfterDelete(items, id), manager) ==> fb.id != Some(id)
  {
    DeleteWhereSpec(GetAllFeedbacks(items), Some(id));
  }

  /** toggleAcknowledge: flips `acknowledged` on the records with the id; returns the first one. */
  method ToggleAcknowledge(store: LocalStorage, id: Id) returns (toggled: Option<Feedback>)
    requires FeedbacksReadable(store.items)
    modifies store
    ensures store.items ==
              old(store.items)[FeedbacksKey := FeedbackArray(ToggleWhere(old(GetAllFeedbacks(store.items)), Some(id)))]
    ensures toggled == match FindById(old(GetAllFeedbacks(store.items)), Some(id))
                       case None => None
                       case Some(fb) => Some(Toggled(fb))
  {
    var feedbacks := GetAllFeedbacks(store.items);
    var updated := ToggleWhere(feedbacks, Some(id));
    store.SetItem(FeedbacksKey, FeedbackArray(updated));
    FindAfterMapWhere(feedbacks, Some(id), Toggled);
    toggled := FindById(updated, Some(id));
  }

  /** submitComment: appends `{text, by, date}` to the `comments` of the records with the id. */
  method SubmitComment(store: LocalStorage, id: Id, commentText: string, commenterId: string, date: string)
    returns (commented: Option<Feedback>)
    requires FeedbacksReadable(store.items)
    modifies store
    ensures var c := Comment(commentText, commenterId, date);
            store.items == old(store.items)[FeedbacksKey :=
              FeedbackArray(AppendCommentWhere(old(GetAllFeedbacks(store.items)), Some(id), c))]
    ensures commented == match FindById(old(GetAllFeedbacks(store.items)), Some(id))
                         case None => None
                         case Some(fb) => Some(WithComment(fb, Comment(commentText, commenterId, date)))
  {
    var feedbacks := GetAllFeedbacks(store.items);
    var comment := Comment(commentText, commenterId, date);
    var updated := AppendCommentWhere(feedbacks, Some(id), comment);
    store.SetItem(FeedbacksKey, FeedbackArray(updated));
    FindAfterMapWhere(feedbacks, Some(id), (fb: Feedback) => WithComment(fb, comment));
    commented := FindById(updated, Some(id));
  }

  /**
   * submitComment adds exactly one comment, at the end, to each record with the id (starting
   * from an empty list when the key is absent); all other records are unchanged.
   */
  lemma CommentAppended(s: seq<Feedback>, id: Id, c: Comment)
    ensures var r := AppendCommentWhere(s, Some(id), c);
            |r| == |s| &&
            forall i :: 0 <= i < |s| ==>
              if s[i].id == Some(id) then
                r[i].comments.Some? && r[i].comments.value == OrElse(s[i].comments, []) + [c] &&
                r[i].(comments := s[i].comments) == s[i]
              else r[i] == s[i]
  {
  }
}
