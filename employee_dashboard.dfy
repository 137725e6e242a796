/**
 * The employee dashboard of Frontend/src/pages/EmployeeDashboard.jsx: the employee's slice of
 * the "feedbacks" collection, the "something is acknowledged" flag, per-record comment drafts,
 * and the two writers that rewrite the whole stored collection.
 */
module EmployeeDashboard {
  import opened Wrappers
  import opened Records
  import opened Storage
  import opened Ui
  import Seqs
  import Text

  /** `s.some(fb => fb.acknowledged)`. */
  function AnyAcknowledged(s: seq<Feedback>): (r: bool)
    ensures r <==> exists i :: 0 <= i < |s| && IsAcknowledged(s[i])
  {
    if s == [] then false
    else IsAcknowledged(s[0]) || (assert forall i :: 1 <= i < |s| ==> s[i] == s[1..][i - 1]; AnyAcknowledged(s[1..]))
  }

  /** `{...fb, acknowledged: true}`: a set, not a toggle. */
  function Acknowledged(fb: Feedback): Feedback {
    fb.(acknowledged := Some(true))
  }

  function AcknowledgeWhere(s: seq<Feedback>, id: Option<Id>): seq<Feedback> {
    MapWhere(s, id, Acknowledged)
  }

  /** Acknowledging is idempotent: a second acknowledgement of the same id changes nothing. */
  lemma AcknowledgeIdempotent(s: seq<Feedback>, id: Option<Id>)
    ensures AcknowledgeWhere(AcknowledgeWhere(s, id), id) == AcknowledgeWhere(s, id)
  {
  }

  /** `{...fb, comment}`: the single free-text comment. */
  function WithReply(fb: Feedback, comment: string): Feedback {
    fb.(comment := Some(comment))
  }

  function SetCommentWhere(s: seq<Feedback>, id: Option<Id>, comment: string): seq<Feedback> {
    MapWhere(s, id, (fb: Feedback) => WithReply(fb, comment))
  }

  /** A second comment on the same record replaces the first; nothing accumulates. */
  lemma CommentOverwrites(s: seq<Feedback>, id: Option<Id>, first: string, second: string)
    ensures SetCommentWhere(SetCommentWhere(s, id, first), id, second) == SetCommentWhere(s, id, second)
  {
  }

  /** `!comment || comment.trim() === ""`: no draft, or one made only of white space. */
  predicate BlankDraft(draft: Option<string>) {
    draft.None? || Text.Trim(draft.value) == ""
  }

  /**
   * Setting the comment keeps, record by record, the recipient and whether the record counts as
   * acknowledged, so the "something is acknowledged" flag stays right.
   */
  lemma {:induction false} SetCommentKeepsFlag(s: seq<Feedback>, id: Option<Id>, comment: string)
    ensures var r := SetCommentWhere(s, id, comment);
            |r| == |s| &&
            (forall i :: 0 <= i < |s| ==> r[i].employee_id == s[i].employee_id) &&
            AnyAcknowledged(r) == AnyAcknowledged(s)
  {
    var r := SetCommentWhere(s, id, comment);
    assert forall i :: 0 <= i < |s| ==> IsAcknowledged(r[i]) == IsAcknowledged(s[i]);
  }

  /** A draft is refused exactly when it is absent or every character of it is white space. */
  lemma BlankDraftIff(draft: Option<string>)
    ensures BlankDraft(draft) <==>
              draft.None? || forall i :: 0 <= i < |draft.value| ==> Text.IsSpace(draft.value[i])
  {
    if draft.Some? {
      Text.BlankIffAllSpace(draft.value);
    }
  }

  /**
   * Both writers map over the full stored collection with a rewrite that keeps `employee_id`.
   * Re-reading the employee's slice afterwards gives the slice rewritten the same way; every
   * other employee's records are rewritten too where they carry the id, and are untouched when
   * none of them does.
   */
  lemma WriterFrame(stored: seq<Feedback>, userId: Option<string>, id: Option<Id>, f: Feedback -> Feedback)
    requires forall fb: Feedback :: f(fb).employee_id == fb.employee_id
    ensures Seqs.Filter(ReceivedBy(userId), MapWhere(stored, id, f)) == MapWhere(Seqs.Filter(ReceivedBy(userId), stored), id, f)
    ensures Seqs.Filter(NotReceivedBy(userId), MapWhere(stored, id, f)) == MapWhere(Seqs.Filter(NotReceivedBy(userId), stored), id, f)
    ensures (forall i :: 0 <= i < |stored| && stored[i].id == id ==> stored[i].employee_id == userId) ==>
              Seqs.Filter(NotReceivedBy(userId), MapWhere(stored, id, f)) == Seqs.Filter(NotReceivedBy(userId), stored)
  {
    FilterMapWhere(stored, id, f, ReceivedBy(userId));
    FilterMapWhere(stored, id, f, NotReceivedBy(userId));
    if forall i :: 0 <= i < |stored| && stored[i].id == id ==> stored[i].employee_id == userId {
      MapWhereKeepsOthers(stored, id, f, NotReceivedBy(userId));
    }
  }

  /**
   * Ids are not assumed unique: a record of another employee that carries the id is rewritten by
   * either writer, so that employee's records change when the rewrite changes that record.
   */
  lemma WriterReachesOthers(stored: seq<Feedback>, userId: Option<string>, id: Option<Id>, f: Feedback -> Feedback, k: int)
    requires forall fb: Feedback :: f(fb).employee_id == fb.employee_id
    requires 0 <= k < |stored| && stored[k].id == id && stored[k].employee_id != userId
    requires f(stored[k]) != stored[k]
    ensures Seqs.Filter(NotReceivedBy(userId), MapWhere(stored, id, f)) != Seqs.Filter(NotReceivedBy(userId), stored)
  {
    var others := Seqs.Filter(NotReceivedBy(userId), stored);
    FilterMapWhere(stored, id, f, NotReceivedBy(userId));
    assert NotReceivedBy(userId)(stored[k]);
    assert stored[k] in others;
    var j :| 0 <= j < |others| && others[j] == stored[k];
    assert MapWhere(others, id, f)[j] != others[j];
  }

  /** The employee dashboard's state. */
  class Dashboard {
    /** `user?.id`. */
    const userId: Option<string>
    /** The employee's records, as shown. */
    var feedbacks: seq<Feedback>
    /** Whether some shown record is acknowledged. */
    var acknowledged: bool
    /** The comment drafts, keyed by record id. */
    var drafts: map<Option<Id>, string>

    /** Every shown record is addressed to this employee, and the flag agrees with the list. */
    predicate Valid()
      reads this
    {
      (forall i :: 0 <= i < |feedbacks| ==> feedbacks[i].employee_id == userId) &&
      acknowledged == AnyAcknowledged(feedbacks)
    }

    constructor(userId: Option<string>)
      ensures this.userId == userId && feedbacks == [] && !acknowledged && drafts == map[]
      ensures Valid()
    {
      this.userId := userId;
      feedbacks := [];
      acknowledged := false;
      drafts := map[];
    }

    /** The mount effect: the stored records addressed to this employee, and the flag. */
    method Mount(store: LocalStorage)
      requires FeedbacksReadable(store.items)
      modifies this
      ensures feedbacks == Seqs.Filter(ReceivedBy(userId), ReadFeedbacks(store.items))
      ensures acknowledged <==> exists i :: 0 <= i < |feedbacks| && IsAcknowledged(feedbacks[i])
      ensures drafts == old(drafts)
      ensures Valid()
    {
      feedbacks := Seqs.Filter(ReceivedBy(userId), ReadFeedbacks(store.items));
      acknowledged := AnyAcknowledged(feedbacks);
    }

    /** handleCommentChange: records the draft for one record. */
    method HandleCommentChange(id: Option<Id>, value: string)
      modifies this
      ensures drafts == old(drafts)[id := value]
      ensures feedbacks == old(feedbacks) && acknowledged == old(acknowledged)
    {
      drafts := drafts[id := value];
    }

    /**
     * handleAcknowledge: with nothing shown it only reports; otherwise it acknowledges the
     * records carrying the first shown record's id, in the view and in storage.
     */
    method HandleAcknowledge(store: LocalStorage) returns (notice: Notice)
      requires Valid()
      requires FeedbacksReadable(store.items)
      modifies this, store
      ensures Valid()
      ensures drafts == old(drafts)
      ensures old(feedbacks) == [] ==>
                notice == Failure("No feedback found") && feedbacks == old(feedbacks) &&
                acknowledged == old(acknowledged) && store.items == old(store.items)
      ensures old(feedbacks) != [] ==>
                var firstId := old(feedbacks)[0].id;
                notice == Success("Feedback acknowledged!") &&
                feedbacks == AcknowledgeWhere(old(feedbacks), firstId) && acknowledged &&
                store.items == old(store.items)[FeedbacksKey :=
                  FeedbackArray(AcknowledgeWhere(old(ReadFeedbacks(store.items)), firstId))]
    {
      if |feedbacks| == 0 {
        return Failure("No feedback found");
      }
      var firstId := feedbacks[0].id;
      var updated := AcknowledgeWhere(feedbacks, firstId);
      var newAll := AcknowledgeWhere(ReadFeedbacks(store.items), firstId);
      store.SetItem(FeedbacksKey, FeedbackArray(newAll));
      feedbacks := updated;
      assert IsAcknowledged(feedbacks[0]);
      acknowledged := true;
      notice := Success("Feedback acknowledged!");
    }

    /**
     * handleSubmitComment: a missing or blank draft is refused without writing; otherwise the
     * draft overwrites the `comment` key of the records with the id, in the view and in storage.
     */
    method HandleSubmitComment(store: LocalStorage, id: Option<Id>) returns (notice: Notice)
      requires Valid()
      requires FeedbacksReadable(store.items)
      modifies this, store
      ensures Valid()
      ensures drafts == old(drafts) && acknowledged == old(acknowledged)
      ensures var draft := if id in old(drafts) then Some(old(drafts)[id]) else None;
              (BlankDraft(draft) ==>
                 notice == Warning("Comment cannot be empty") && feedbacks == old(feedbacks) &&
                 store.items == old(store.items)) &&
              (!BlankDraft(draft) ==>
                 notice == Success("Comment submitted") &&
                 feedbacks == SetCommentWhere(old(feedbacks), id, draft.value) &&
                 store.items == old(store.items)[FeedbacksKey :=
                   FeedbackArray(SetCommentWhere(old(ReadFeedbacks(store.items)), id, draft.value))])
    {
      var draft := if id in drafts then Some(drafts[id]) else None;
      if BlankDraft(draft) {
        return Warning("Comment cannot be empty");
      }
      var comment := draft.value;
      var updated := SetCommentWhere(feedbacks, id, comment);
      var newAll := SetCommentWhere(ReadFeedbacks(store.items), id, comment);
      store.SetItem(FeedbacksKey, FeedbackArray(newAll));
      SetCommentKeepsFlag(feedbacks, id, comment);
      feedbacks := updated;
      notice := Success("Comment submitted");
    }
  }
}
