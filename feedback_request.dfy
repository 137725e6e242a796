/**
 * The feedback request page of Frontend/src/pages/FeedbackRequest.jsx: a two-field form whose
 * submission re-reads "feedbackRequests" and writes it back with one entry appended.
 */
module FeedbackRequest {
  import opened Records
  import opened Storage
  import opened Ui
  import Text

  datatype Form = Form(to_manager: string, message: string)

  const EmptyForm: Form := Form("", "")

  /** Both fields must be non-blank once trimmed. */
  predicate Acceptable(f: Form) {
    Text.Trim(f.to_manager) != "" && Text.Trim(f.message) != ""
  }

  /** A form is refused exactly when one of its fields is all white space. */
  lemma AcceptableIff(f: Form)
    ensures !Acceptable(f) <==>
              (forall i :: 0 <= i < |f.to_manager| ==> Text.IsSpace(f.to_manager[i])) ||
              (forall i :: 0 <= i < |f.message| ==> Text.IsSpace(f.message[i]))
  {
    Text.BlankIffAllSpace(f.to_manager);
    Text.BlankIffAllSpace(f.message);
  }

  /** `{id: Date.now(), to_manager, message}`: exactly three keys, untrimmed. */
  function Request(f: Form, now: nat): RequestEntry {
    RequestEntry(Num(now), f.to_manager, f.message)
  }

  /** The page's state. */
  class Page {
    var form: Form

    constructor()
      ensures form == EmptyForm
    {
      form := EmptyForm;
    }

    method HandleChange(f: Form)
      modifies this
      ensures form == f
    {
      form := f;
    }

    /**
     * handleSubmit: a blank field is refused without writing; otherwise the stored requests
     * are re-read and written back with the new request at the end, and the form is reset.
     */
    method HandleSubmit(store: LocalStorage, now: nat) returns (notice: Notice)
      requires RequestsReadable(store.items)
      modifies this, store
      ensures !Acceptable(old(form)) ==>
                notice == Failure("Please fill in all fields.") && form == old(form) &&
                store.items == old(store.items)
      ensures Acceptable(old(form)) ==>
                notice == Success("Feedback request saved locally!") && form == EmptyForm &&
                store.items == old(store.items)[RequestsKey :=
                  RequestArray(old(ReadRequests(store.items)) + [Request(old(form), now)])]
    {
      if !Acceptable(form) {
        return Failure("Please fill in all fields.");
      }
      var existing := ReadRequests(store.items);
      store.SetItem(RequestsKey, RequestArray(existing + [Request(form, now)]));
      notice := Success("Feedback request saved locally!");
      form := EmptyForm;
    }
  }

  /**
   * Two accepted submissions keep both requests, in order, after whatever was stored: each
   * write starts from the stored list, so nothing written in between is lost.
   */
  lemma TwoSubmissions(items: Items, f: Form, g: Form, t1: nat, t2: nat)
    requires RequestsReadable(items)
    ensures var once := items[RequestsKey := RequestArray(ReadRequests(items) + [Request(f, t1)])];
            RequestsReadable(once) &&
            var twice := once[RequestsKey := RequestArray(ReadRequests(once) + [Request(g, t2)])];
            ReadRequests(twice) == ReadRequests(items) + [Request(f, t1), Request(g, t2)]
  {
  }
}
