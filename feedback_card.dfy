/**
 * One feedback card of Frontend/src/components/FeedbackCard.jsx: an edit buffer copied from
 * the record, saving it over the stored record with the same id, and deleting that record.
 */
module FeedbackCard {
  import opened Wrappers
  import opened Records
  import opened Storage
  import Seqs
  import Text
  import opened Tags

  /**
   * The `tags` value of the edit buffer: the record's list until the field is typed in, then
   * the typed text; `TagsMissing` when the record had no tags.
   */
  datatype TagInput = TagsTyped(text: string) | TagsList(list: seq<string>) | TagsMissing

  /**
   * The edit buffer `{...feedback}`: the record's keys, with `tags` held apart because typing
   * turns it into a string.
   */
  datatype EditData = EditData(fields: Feedback, tags: TagInput)

  /** `useState({...feedback})`. */
  function InitialEditData(feedback: Feedback): (e: EditData)
    ensures e.fields == feedback
    ensures feedback.tags.Some? ==> e.tags == TagsList(feedback.tags.value)
    ensures feedback.tags.None? ==> e.tags == TagsMissing
  {
    EditData(feedback, if feedback.tags.Some? then TagsList(feedback.tags.value) else TagsMissing)
  }

  /** The inputs of the edit form. */
  datatype Field = EmployeeIdField | StrengthsField | ImprovementsField | TagsField | SentimentField

  /** handleEditChange: `{...prev, [name]: value}`. */
  function Edited(e: EditData, field: Field, value: string): (r: EditData)
    ensures field == TagsField ==> r == e.(tags := TagsTyped(value))
    ensures field != TagsField ==> r.tags == e.tags
    ensures field == EmployeeIdField ==> r.fields == e.fields.(employee_id := Some(value))
    ensures field == StrengthsField ==> r.fields == e.fields.(strengths := Some(value))
    ensures field == ImprovementsField ==> r.fields == e.fields.(improvements := Some(value))
    ensures field == SentimentField ==> r.fields == e.fields.(sentiment := Some(value))
  {
    match field
    case EmployeeIdField => e.(fields := e.fields.(employee_id := Some(value)))
    case StrengthsField => e.(fields := e.fields.(strengths := Some(value)))
    case ImprovementsField => e.(fields := e.fields.(improvements := Some(value)))
    case SentimentField => e.(fields := e.fields.(sentiment := Some(value)))
    case TagsField => e.(tags := TagsTyped(value))
  }

  /** Tag normalisation on save: typed text is parsed, a list is kept, a missing value becomes `[]`. */
  function NormaliseTags(t: TagInput): (r: seq<string>)
    ensures t.TagsTyped? ==> forall i :: 0 <= i < |r| ==> WellFormedTag(r[i])
    ensures t.TagsList? ==> r == t.list
    ensures t.TagsMissing? ==> r == []
  {
    match t
    case TagsTyped(text) => ParseTags(text)
    case TagsList(list) => list
    case TagsMissing => []
  }

  /** What the tag input shows: `Array.isArray(tags) ? tags.join(", ") : tags || ""`. */
  function TagFieldText(t: TagInput): string {
    match t
    case TagsList(list) => TagText(list)
    case TagsTyped(text) => text
    case TagsMissing => ""
  }

  /**
   * Retyping exactly what the tag input shows and saving reproduces the list, when its tags
   * are non-empty, trimmed and comma-free; an untouched field keeps the list as it is.
   */
  lemma TagFieldRoundTrip(list: seq<string>)
    requires forall i :: 0 <= i < |list| ==> WellFormedTag(list[i])
    ensures NormaliseTags(TagsTyped(TagFieldText(TagsList(list)))) == list
    ensures NormaliseTags(TagsList(list)) == list
  {
    TagsRoundTrip(list);
  }

  /** `updatedFeedback`: the buffer with normalised tags. */
  function UpdatedFeedback(e: EditData): (r: Feedback)
    ensures r.tags == Some(NormaliseTags(e.tags))
    ensures r.(tags := e.fields.tags) == e.fields
  {
    e.fields.(tags := Some(NormaliseTags(e.tags)))
  }

  /**
   * Saving an untouched buffer writes back the stored records with the card's id unchanged,
   * when the stored records are the card's own record: a save without edits is a no-op.
   */
  lemma SaveUntouched(stored: seq<Feedback>, feedback: Feedback)
    requires forall i :: 0 <= i < |stored| && stored[i].id == feedback.id ==> stored[i] == feedback
    ensures feedback.tags.Some? ==> UpdateWhere(stored, feedback.id, UpdatedFeedback(InitialEditData(feedback))) == stored
    ensures feedback.tags.None? ==>
              UpdateWhere(stored, feedback.id, UpdatedFeedback(InitialEditData(feedback))) ==
              MapWhere(stored, feedback.id, (fb: Feedback) => fb.(tags := Some([])))
  {
    var u := UpdatedFeedback(InitialEditData(feedback));
    if feedback.tags.Some? {
      assert u == feedback;
      forall i | 0 <= i < |stored| && stored[i].id == feedback.id
        ensures Merge(stored[i], u) == stored[i]
      {
        assert stored[i] == feedback;
      }
    } else {
      forall i | 0 <= i < |stored| && stored[i].id == feedback.id
        ensures Merge(stored[i], u) == stored[i].(tags := Some([]))
      {
        assert stored[i] == feedback;
      }
    }
  }

  /** One card's state. */
  class Card {
    /** The record the card shows. */
    const feedback: Feedback
    var isEditing: bool
    var editData: EditData
    var loading: bool

    constructor(feedback: Feedback)
      ensures this.feedback == feedback && !isEditing && editData == InitialEditData(feedback) && !loading
    {
      this.feedback := feedback;
      isEditing := false;
      editData := InitialEditData(feedback);
      loading := false;
    }

    /** The Edit button. */
    method StartEditing()
      modifies this
      ensures isEditing && editData == old(editData) && loading == old(loading)
    {
      isEditing := true;
    }

    /** The Cancel button: leaves edit mode but keeps the buffer. */
    method CancelEditing()
      modifies this
      ensures !isEditing && editData == old(editData) && loading == old(loading)
    {
      isEditing := false;
    }

    method HandleEditChange(field: Field, value: string)
      modifies this
      ensures editData == Edited(old(editData), field, value)
      ensures isEditing == old(isEditing) && loading == old(loading)
    {
      editData := Edited(editData, field, value);
    }

    /**
     * handleSave: merges the buffer over every stored record with the card's id, then calls the
     * parent's refresh callback and leaves edit mode. A collection that fails to parse is
     * caught: nothing is written and the card stays in edit mode. A refresh callback that
     * throws (`refreshThrows`) is caught after the write, so the card stays in edit mode over
     * the saved records. Loading is false afterwards in every case.
     */
    method HandleSave(store: LocalStorage, refreshThrows: bool)
      modifies this, store
      ensures editData == old(editData) && !loading
      ensures FeedbacksReadable(old(store.items)) ==>
                store.items == old(store.items)[FeedbacksKey :=
                  FeedbackArray(UpdateWhere(old(ReadFeedbacks(store.items)), feedback.id, UpdatedFeedback(editData)))] &&
                isEditing == (old(isEditing) && refreshThrows)
      ensures !FeedbacksReadable(old(store.items)) ==>
                store.items == old(store.items) && isEditing == old(isEditing)
    {
      loading := true;
      if FeedbacksReadable(store.items) {
        var updatedFeedback := UpdatedFeedback(editData);
        var updatedList := UpdateWhere(ReadFeedbacks(store.items), feedback.id, updatedFeedback);
        store.SetItem(FeedbacksKey, FeedbackArray(updatedList));
        if !refreshThrows {
          isEditing := false;
        }
      }
      loading := false;
    }

    /**
     * handleDelete: a declined confirmation does nothing at all; otherwise every stored record
     * with the card's id is removed (unless the collection fails to parse). The refresh
     * callback runs last and anything it throws is caught, so it changes nothing here.
     */
    method HandleDelete(store: LocalStorage, confirmed: bool)
      modifies this, store
      ensures editData == old(editData) && isEditing == old(isEditing)
      ensures !confirmed ==> store.items == old(store.items) && loading == old(loading)
      ensures confirmed ==> !loading
      ensures confirmed && FeedbacksReadable(old(store.items)) ==>
                store.items == old(store.items)[FeedbacksKey :=
                  FeedbackArray(DeleteWhere(old(ReadFeedbacks(store.items)), feedback.id))]
      ensures confirmed && !FeedbacksReadable(old(store.items)) ==> store.items == old(store.items)
    {
      if !confirmed {
        return;
      }
      loading := true;
      if FeedbacksReadable(store.items) {
        var filtered := DeleteWhere(ReadFeedbacks(store.items), feedback.id);
        store.SetItem(FeedbacksKey, FeedbackArray(filtered));
      }
      loading := false;
    }
  }

  /**
   * A save changes only the records with the card's id, and keeps the length of the
   * collection; the records with the id take every key of the buffer.
   */
  lemma SaveFrame(stored: seq<Feedback>, id: Option<Id>, e: EditData)
    ensures var r := UpdateWhere(stored, id, UpdatedFeedback(e));
            |r| == |stored| &&
            forall i :: 0 <= i < |stored| ==>
              if stored[i].id == id then r[i] == Merge(stored[i], UpdatedFeedback(e)) &&
                                        r[i].tags == Some(NormaliseTags(e.tags))
              else r[i] == stored[i]
  {
  }
}
