/**
 * The anonymous feedback page of Frontend/src/pages/AnonymousFeedback.jsx: a form and the
 * "anonymousFeedbacks" list loaded on mount, appended to and written back whole.
 */
module AnonymousFeedback {
  import opened Records
  import opened Storage
  import opened Ui
  import Text

  datatype Form = Form(to_employee: string, strengths: string, improvements: string, sentiment: string)

  /** The initial and reset form. */
  const EmptyForm: Form := Form("", "", "", "positive")

  /** The submission check: strengths and improvements must not be blank; the recipient may be. */
  predicate Acceptable(f: Form) {
    Text.Trim(f.strengths) != "" && Text.Trim(f.improvements) != ""
  }

  /** A form is refused exactly when its strengths or its improvements are all white space. */
  lemma AcceptableIff(f: Form)
    ensures !Acceptable(f) <==>
              (forall i :: 0 <= i < |f.strengths| ==> Text.IsSpace(f.strengths[i])) ||
              (forall i :: 0 <= i < |f.improvements| ==> Text.IsSpace(f.improvements[i]))
  {
    Text.BlankIffAllSpace(f.strengths);
    Text.BlankIffAllSpace(f.improvements);
  }

  /** `{id: Date.now(), ...formData}`: the form fields, untrimmed, under a timestamp id. */
  function Entry(f: Form, now: nat): AnonymousEntry {
    AnonymousEntry(Num(now), f.to_employee, f.strengths, f.improvements, f.sentiment)
  }

  /** The page's state. */
  class Page {
    var form: Form
    var feedbackList: seq<AnonymousEntry>

    constructor()
      ensures form == EmptyForm && feedbackList == []
    {
      form := EmptyForm;
      feedbackList := [];
    }

    /** The mount effect; an absent key gives the empty list. */
    method Mount(store: LocalStorage)
      requires AnonymousReadable(store.items)
      modifies this
      ensures feedbackList == ReadAnonymous(store.items) && form == old(form)
      ensures AnonymousKey !in store.items ==> feedbackList == []
    {
      feedbackList := ReadAnonymous(store.items);
    }

    method HandleChange(f: Form)
      modifies this
      ensures form == f && feedbackList == old(feedbackList)
    {
      form := f;
    }

    /**
     * handleSubmit: a blank strengths or improvements is refused without writing; otherwise
     * the entry is appended to the in-memory list, which replaces the stored one, and the
     * form is reset.
     */
    method HandleSubmit(store: LocalStorage, now: nat) returns (notice: Notice)
      modifies this, store
      ensures !Acceptable(old(form)) ==>
                notice == Failure("Please fill in all required fields.") &&
                form == old(form) && feedbackList == old(feedbackList) && store.items == old(store.items)
      ensures Acceptable(old(form)) ==>
                notice == Success("Anonymous feedback submitted!") &&
                feedbackList == old(feedbackList) + [Entry(old(form), now)] &&
                store.items == old(store.items)[AnonymousKey := AnonymousArray(feedbackList)] &&
                form == EmptyForm
    {
      if !Acceptable(form) {
        return Failure("Please fill in all required fields.");
      }
      var updated := feedbackList + [Entry(form, now)];
      store.SetItem(AnonymousKey, AnonymousArray(updated));
      feedbackList := updated;
      notice := Success("Anonymous feedback submitted!");
      form := EmptyForm;
    }
  }

  /**
   * The list written is the one loaded on mount plus this page's entry: whatever the store held
   * that is not in that list is gone after the write, unlike on the re-reading request page.
   */
  lemma WriteIgnoresStore(items: Items, list: seq<AnonymousEntry>, f: Form, now: nat)
    requires AnonymousReadable(items)
    ensures var written := items[AnonymousKey := AnonymousArray(list + [Entry(f, now)])];
            AnonymousReadable(written) && ReadAnonymous(written) == list + [Entry(f, now)] &&
            forall e :: e in ReadAnonymous(items) && e !in list + [Entry(f, now)] ==> e !in ReadAnonymous(written)
  {
  }

  /**
   * Two pages mounted on the same store each submit once: the second write starts from its own
   * copy of the mounted list, so the first page's entry is lost.
   */
  lemma InterleavedSubmissionLost(items: Items, f: Form, g: Form, t1: nat, t2: nat)
    requires AnonymousReadable(items)
    requires Entry(f, t1) !in ReadAnonymous(items) && t1 != t2
    ensures var loaded := ReadAnonymous(items);
            var once := items[AnonymousKey := AnonymousArray(loaded + [Entry(f, t1)])];
            var twice := once[AnonymousKey := AnonymousArray(loaded + [Entry(g, t2)])];
            AnonymousReadable(once) && Entry(f, t1) in ReadAnonymous(once) &&
            AnonymousReadable(twice) && ReadAnonymous(twice) == loaded + [Entry(g, t2)] &&
            Entry(f, t1) !in ReadAnonymous(twice)
  {
    var loaded := ReadAnonymous(items);
    assert Entry(f, t1) != Entry(g, t2);
    assert (loaded + [Entry(f, t1)])[|loaded|] == Entry(f, t1);
  }
}
