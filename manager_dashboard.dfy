/**
 * The manager dashboard of Frontend/src/pages/ManagerDashboard.jsx. The page keeps the
 * manager's own slice of the "feedbacks" collection in memory; every write replaces the
 * stored collection with the other managers' records followed by that slice.
 */
module ManagerDashboard {
  import opened Wrappers
  import opened Records
  import opened Storage
  import opened Ui
  import Seqs
  import Text
  import opened Tags

  /**
   * The form state. Every field holds a string while typing, but handleEdit copies keys of a
   * stored record, which may be absent; `tags` is the comma-separated text.
   */
  datatype Form = Form(
    employee_id: Option<string>,
    strengths: Option<string>,
    improvements: Option<string>,
    sentiment: Option<string>,
    tags: string)

  /** The initial and reset form. */
  const EmptyForm: Form := Form(Some(""), Some(""), Some(""), Some("positive"), "")

  /** The fields handleSubmit insists on. */
  predicate Complete(f: Form) {
    Truthy(f.employee_id) && Truthy(f.strengths) && Truthy(f.improvements)
  }

  /** `editId || Date.now()`. */
  function PayloadId(editId: Option<Id>, now: nat): Id {
    if IdTruthy(editId) then editId.value else Num(now)
  }

  /** The record handleSubmit builds; it has no `comments`, `comment` or `createdAt` key. */
  function Payload(form: Form, editId: Option<Id>, email: Option<string>, now: nat): Feedback {
    NoFields.(
      id := Some(PayloadId(editId, now)),
      employee_id := form.employee_id,
      strengths := form.strengths,
      improvements := form.improvements,
      sentiment := form.sentiment,
      tags := Some(ParseTags(form.tags)),
      acknowledged := Some(false),
      manager_id := email)
  }

  /** The manager's new list: the record with `editId` replaced, or the payload prepended. */
  function Submitted(feedbacks: seq<Feedback>, editId: Option<Id>, payload: Feedback): seq<Feedback> {
    if IdTruthy(editId) then MapWhere(feedbacks, editId, (fb: Feedback) => payload)
    else [payload] + feedbacks
  }

  /**
   * Where a submission lands: a new record goes first, carrying the timestamp id; an edit
   * replaces every record with the edited id in place, and the replacement is no longer
   * acknowledged and has lost the employee's comments and the creation date.
   */
  lemma SubmitPlacement(feedbacks: seq<Feedback>, form: Form, editId: Option<Id>, email: Option<string>, now: nat)
    ensures var p := Payload(form, editId, email, now);
            var r := Submitted(feedbacks, editId, p);
            p.acknowledged == Some(false) && p.manager_id == email &&
            (!IdTruthy(editId) ==> |r| == |feedbacks| + 1 && r[0] == p && p.id == Some(Num(now)) && r[1..] == feedbacks) &&
            (IdTruthy(editId) ==>
               |r| == |feedbacks| && p.id == editId &&
               forall i :: 0 <= i < |feedbacks| ==>
                 if feedbacks[i].id == editId
                 then r[i] == p && r[i].comments.None? && r[i].comment.None? && r[i].createdAt.None?
                 else r[i] == feedbacks[i])
  {
  }

  /** `[...stored.filter(f => f.manager_id !== email), ...updated]`. */
  function MergeWithStored(stored: seq<Feedback>, email: Option<string>, updated: seq<Feedback>): seq<Feedback> {
    Seqs.Filter(NotManagedBy(email), stored) + updated
  }

  /**
   * Merge-on-write drops no other manager's record: the records of other managers in the
   * written collection are those of the stored one, in count, content and order; and when
   * every record of `updated` is the manager's, the manager's records are exactly `updated`.
   */
  lemma MergeKeepsOthers(stored: seq<Feedback>, email: Option<string>, updated: seq<Feedback>)
    requires forall i :: 0 <= i < |updated| ==> updated[i].manager_id == email
    ensures Seqs.Filter(NotManagedBy(email), MergeWithStored(stored, email, updated)) ==
              Seqs.Filter(NotManagedBy(email), stored)
    ensures Seqs.Filter(ManagedBy(email), MergeWithStored(stored, email, updated)) == updated
  {
    var others := Seqs.Filter(NotManagedBy(email), stored);
    Seqs.FilterConcat(NotManagedBy(email), others, updated);
    Seqs.FilterIdempotent(NotManagedBy(email), stored);
    Seqs.FilterNone(NotManagedBy(email), updated);
    Seqs.FilterConcat(ManagedBy(email), others, updated);
    Seqs.FilterNone(ManagedBy(email), others);
    Seqs.FilterAll(ManagedBy(email), updated);
  }

  /** The form handleEdit fills from a record whose `tags` key is present. */
  function EditForm(fb: Feedback): Form
    requires fb.tags.Some?
  {
    Form(fb.employee_id, fb.strengths, fb.improvements, fb.sentiment, TagText(fb.tags.value))
  }

  /**
   * Editing a record of this manager and saving it unchanged writes back the same record,
   * except that `acknowledged` is reset to false and the keys the form does not carry
   * (`comments`, `comment`, `createdAt` and the camelCase ids) are gone.
   */
  lemma EditThenSubmit(fb: Feedback, email: Option<string>, now: nat)
    requires IdTruthy(fb.id) && fb.manager_id == email
    requires fb.tags.Some? && forall i :: 0 <= i < |fb.tags.value| ==> WellFormedTag(fb.tags.value[i])
    ensures Payload(EditForm(fb), fb.id, email, now) ==
              fb.(acknowledged := Some(false), comments := None, comment := None, createdAt := None,
                  employeeId := None, managerId := None)
  {
    TagsRoundTrip(fb.tags.value);
    var p := Payload(EditForm(fb), fb.id, email, now);
    assert p.id == fb.id;
    assert p.tags == fb.tags;
  }

  /** The manager dashboard's state. */
  class Dashboard {
    /** `user.email`; sessions stored by the login page have none. */
    const email: Option<string>
    /** The manager's own records, as shown. */
    var feedbacks: seq<Feedback>
    var form: Form
    var editId: Option<Id>

    /** Every record shown belongs to this manager. */
    predicate Valid()
      reads this
    {
      forall i :: 0 <= i < |feedbacks| ==> feedbacks[i].manager_id == email
    }

    constructor(email: Option<string>)
      ensures this.email == email && feedbacks == [] && form == EmptyForm && editId == None
      ensures Valid()
    {
      this.email := email;
      feedbacks := [];
      form := EmptyForm;
      editId := None;
    }

    /** The mount effect: the stored records whose `manager_id` is the manager's email. */
    method Load(store: LocalStorage)
      requires FeedbacksReadable(store.items)
      modifies this
      ensures feedbacks == Seqs.Filter(ManagedBy(email), ReadFeedbacks(store.items))
      ensures form == old(form) && editId == old(editId)
      ensures Valid()
    {
      feedbacks := Seqs.Filter(ManagedBy(email), ReadFeedbacks(store.items));
    }

    /**
     * handleSubmit: an incomplete form is refused and nothing changes; otherwise the slice is
     * updated, merged into the stored collection, and the form is reset.
     */
    method HandleSubmit(store: LocalStorage, now: nat) returns (notice: Notice)
      requires Valid()
      requires FeedbacksReadable(store.items)
      modifies this, store
      ensures Valid()
      ensures !Complete(old(form)) ==>
                notice == Failure("All fields are required") &&
                feedbacks == old(feedbacks) && form == old(form) && editId == old(editId) &&
                store.items == old(store.items)
      ensures Complete(old(form)) ==>
                feedbacks == Submitted(old(feedbacks), old(editId), Payload(old(form), old(editId), email, now)) &&
                store.items == old(store.items)[FeedbacksKey :=
                  FeedbackArray(MergeWithStored(old(ReadFeedbacks(store.items)), email, feedbacks))] &&
                form == EmptyForm && editId == None &&
                notice == if IdTruthy(old(editId)) then Success("Feedback updated successfully")
                          else Success("Feedback submitted successfully")
    {
      if !Complete(form) {
        return Failure("All fields are required");
      }
      var payload := Payload(form, editId, email, now);
      var updated := Submitted(feedbacks, editId, payload);
      notice := if IdTruthy(editId) then Success("Feedback updated successfully")
                else Success("Feedback submitted successfully");
      feedbacks := updated;
      store.SetItem(FeedbacksKey, FeedbackArray(MergeWithStored(ReadFeedbacks(store.items), email, updated)));
      form := EmptyForm;
      editId := None;
    }

    /** handleEdit: loads a record into the form; `tags.join` needs the key to be present. */
    method HandleEdit(fb: Feedback)
      requires fb.tags.Some?
      modifies this
      ensures editId == fb.id && form == EditForm(fb) && feedbacks == old(feedbacks)
    {
      editId := fb.id;
      form := EditForm(fb);
    }

    /**
     * handleDelete: after confirmation, removes the id from the slice, merges and reports;
     * a declined confirmation shows no toast.
     */
    method HandleDelete(store: LocalStorage, id: Option<Id>, confirmed: bool) returns (notice: Option<Notice>)
      requires Valid()
      requires FeedbacksReadable(store.items)
      modifies this, store
      ensures Valid()
      ensures form == old(form) && editId == old(editId)
      ensures !confirmed ==> notice == None && feedbacks == old(feedbacks) && store.items == old(store.items)
      ensures confirmed ==>
                notice == Some(Success("Feedback deleted")) &&
                feedbacks == DeleteWhere(old(feedbacks), id) &&
                store.items == old(store.items)[FeedbacksKey :=
                  FeedbackArray(MergeWithStored(old(ReadFeedbacks(store.items)), email, feedbacks))]
    {
      if confirmed {
        var updated := DeleteWhere(feedbacks, id);
        feedbacks := updated;
        store.SetItem(FeedbacksKey, FeedbackArray(MergeWithStored(ReadFeedbacks(store.items), email, updated)));
        notice := Some(Success("Feedback deleted"));
      } else {
        notice := None;
      }
    }

    /** toggleAcknowledge: flips the records with the id in the slice, merges and reports. */
    method ToggleAcknowledge(store: LocalStorage, id: Option<Id>) returns (notice: Notice)
      requires Valid()
      requires FeedbacksReadable(store.items)
      modifies this, store
      ensures Valid()
      ensures form == old(form) && editId == old(editId)
      ensures notice == Info("Acknowledgement toggled")
      ensures feedbacks == ToggleWhere(old(feedbacks), id)
      ensures store.items == old(store.items)[FeedbacksKey :=
                FeedbackArray(MergeWithStored(old(ReadFeedbacks(store.items)), email, feedbacks))]
    {
      var updated := ToggleWhere(feedbacks, id);
      feedbacks := updated;
      store.SetItem(FeedbacksKey, FeedbackArray(MergeWithStored(ReadFeedbacks(store.items), email, updated)));
      notice := Info("Acknowledgement toggled");
    }
  }

  /**
   * What any dashboard write leaves in storage, read back: the other managers' records as
   * they were, and this manager's records exactly as the page shows them.
   */
  lemma WriteThenLoad(items: Items, email: Option<string>, shown: seq<Feedback>)
    requires FeedbacksReadable(items)
    requires forall i :: 0 <= i < |shown| ==> shown[i].manager_id == email
    ensures var written := items[FeedbacksKey := FeedbackArray(MergeWithStored(ReadFeedbacks(items), email, shown))];
            FeedbacksReadable(written) &&
            Seqs.Filter(ManagedBy(email), ReadFeedbacks(written)) == shown &&
            Seqs.Filter(NotManagedBy(email), ReadFeedbacks(written)) == Seqs.Filter(NotManagedBy(email), ReadFeedbacks(items))
  {
    MergeKeepsOthers(ReadFeedbacks(items), email, shown);
  }
}
