/**
 * Browser storage as a map from key to a typed JSON value, and the read expressions the
 * repositories and pages apply to it.
 */
module Storage {
  import opened Wrappers
  import opened Records

  const FeedbacksKey: string := "feedbacks"
  const AnonymousKey: string := "anonymousFeedbacks"
  const RequestsKey: string := "feedbackRequests"
  const UserKey: string := "user"
  const ManagerIdKey: string := "managerId"
  const EmployeeIdKey: string := "employeeId"

  /**
   * What a key holds. The first four are the JSON texts of the values the application writes;
   * `JsonNull` is the text "null"; `Text(raw)` is any other string: one that JSON.parse rejects
   * (including "" and "undefined"), or a bare id written under "managerId"/"employeeId", which
   * nothing parses.
   */
  datatype Stored =
    | FeedbackArray(feedbacks: seq<Feedback>)
    | AnonymousArray(anonymous: seq<AnonymousEntry>)
    | RequestArray(requests: seq<RequestEntry>)
    | UserObject(user: User)
    | JsonNull
    | Text(raw: string)

  type Items = map<string, Stored>

  /** `localStorage.getItem(key)`, with `null` as `None`. */
  function Get(items: Items, key: string): Option<Stored> {
    if key in items then Some(items[key]) else None
  }

  /**
   * `JSON.parse(localStorage.getItem("feedbacks")) || []` yields an array: the key is absent
   * (`JSON.parse(null)` is `null`), holds "null", or holds an array. Any other text throws.
   */
  predicate FeedbacksReadable(items: Items) {
    match Get(items, FeedbacksKey)
    case None => true
    case Some(v) => v.JsonNull? || v.FeedbackArray?
  }

  /** `JSON.parse(localStorage.getItem("feedbacks")) || []`. */
  function ReadFeedbacks(items: Items): (r: seq<Feedback>)
    requires FeedbacksReadable(items)
    ensures FeedbacksKey !in items ==> r == []
    ensures Get(items, FeedbacksKey) == Some(JsonNull) ==> r == []
    ensures Get(items, FeedbacksKey).Some? && Get(items, FeedbacksKey).value.FeedbackArray? ==>
              r == Get(items, FeedbacksKey).value.feedbacks
  {
    match Get(items, FeedbacksKey)
    case Some(FeedbackArray(fbs)) => fbs
    case _ => []
  }

  /** The collection written back is the collection read. */
  lemma ReadAfterWrite(items: Items, fbs: seq<Feedback>)
    ensures FeedbacksReadable(items[FeedbacksKey := FeedbackArray(fbs)])
    ensures ReadFeedbacks(items[FeedbacksKey := FeedbackArray(fbs)]) == fbs
  {
  }

  /** Writing back what was read leaves the store as it was, up to an absent key becoming "[]". */
  lemma WriteWhatWasRead(items: Items)
    requires FeedbacksReadable(items)
    requires Get(items, FeedbacksKey).Some? && Get(items, FeedbacksKey).value.FeedbackArray?
    ensures items[FeedbacksKey := FeedbackArray(ReadFeedbacks(items))] == items
  {
  }

  /** `JSON.parse(localStorage.getItem("anonymousFeedbacks")) || []` does not throw. */
  predicate AnonymousReadable(items: Items) {
    match Get(items, AnonymousKey)
    case None => true
    case Some(v) => v.JsonNull? || v.AnonymousArray?
  }

  /** The anonymous entries stored, or none for an absent key or `null`. */
  function ReadAnonymous(items: Items): (r: seq<AnonymousEntry>)
    requires AnonymousReadable(items)
    ensures AnonymousKey !in items ==> r == []
    ensures Get(items, AnonymousKey) == Some(JsonNull) ==> r == []
    ensures Get(items, AnonymousKey).Some? && Get(items, AnonymousKey).value.AnonymousArray? ==>
              r == Get(items, AnonymousKey).value.anonymous
  {
    match Get(items, AnonymousKey)
    case Some(AnonymousArray(entries)) => entries
    case _ => []
  }

  /** `JSON.parse(localStorage.getItem("feedbackRequests")) || []` does not throw. */
  predicate RequestsReadable(items: Items) {
    match Get(items, RequestsKey)
    case None => true
    case Some(v) => v.JsonNull? || v.RequestArray?
  }

  /** The feedback requests stored, or none for an absent key or `null`. */
  function ReadRequests(items: Items): (r: seq<RequestEntry>)
    requires RequestsReadable(items)
    ensures RequestsKey !in items ==> r == []
    ensures Get(items, RequestsKey) == Some(JsonNull) ==> r == []
    ensures Get(items, RequestsKey).Some? && Get(items, RequestsKey).value.RequestArray? ==>
              r == Get(items, RequestsKey).value.requests
  {
    match Get(items, RequestsKey)
    case Some(RequestArray(entries)) => entries
    case _ => []
  }

  /** `localStorage`: one shared, mutable map from key to stored value. */
  class LocalStorage {
    var items: Items

    constructor(initial: Items)
      ensures items == initial
    {
      items := initial;
    }

    /** `localStorage.setItem(key, value)`. */
    method SetItem(key: string, value: Stored)
      modifies this
      ensures items == old(items)[key := value]
    {
      items := items[key := value];
    }

    /** `localStorage.removeItem(key)`. */
    method RemoveItem(key: string)
      modifies this
      ensures items == old(items) - {key}
    {
      items := items - {key};
    }
  }
}
