/**
 * The records kept in browser storage and the whole-collection transformations that every
 * writer applies to the "feedbacks" collection: a shallow merge on the records with a given
 * id, removal by id, and lookup of the first record with an id.
 */
module Records {
  import opened Wrappers
  import Seqs

  /** A record identifier. Ids are compared with `===`, so the string "5" and the number 5 differ. */
  datatype Id = Str(s: string) | Num(n: int)

  /** JavaScript truthiness of a possibly absent id: absent, "" and 0 are falsy. */
  predicate IdTruthy(id: Option<Id>) {
    match id
    case None => false
    case Some(Str(s)) => s != ""
    case Some(Num(n)) => n != 0
  }

  /** JavaScript truthiness of a possibly absent string. */
  predicate Truthy(o: Option<string>) {
    o.Some? && o.value != ""
  }

  /** `message || fallback`: the server's message when it is a non-empty string, the fallback otherwise. */
  function MessageOr(message: Option<string>, fallback: string): (t: string)
    ensures Truthy(message) ==> t == message.value
    ensures !Truthy(message) ==> t == fallback
    ensures fallback != "" ==> t != ""
  {
    if Truthy(message) then message.value else fallback
  }

  /** One entry of a record's `comments` array: `{text, by, date}` (`by` is a Dafny keyword, hence `author`). */
  datatype Comment = Comment(text: string, author: string, date: string)

  /**
   * A feedback record. Records are built with open object spreads, so every key may be absent
   * (`None`). The field names are the JSON keys: the pages and Frontend/src/utils/api.js write
   * `employee_id`/`manager_id`, Frontend/src/api/feedback.js reads `employeeId`/`managerId`, and
   * the two pairs are different keys. `comments` is the array of structured comments,
   * `comment` the single free-text comment the employee dashboard writes.
   */
  datatype Feedback = Feedback(
    id: Option<Id>,
    employee_id: Option<string>,
    manager_id: Option<string>,
    employeeId: Option<string>,
    managerId: Option<string>,
    strengths: Option<string>,
    improvements: Option<string>,
    sentiment: Option<string>,
    tags: Option<seq<string>>,
    acknowledged: Option<bool>,
    comments: Option<seq<Comment>>,
    comment: Option<string>,
    createdAt: Option<string>)

  /** The empty object `{}`. */
  const NoFields: Feedback :=
    Feedback(None, None, None, None, None, None, None, None, None, None, None, None, None)

  /** An anonymous feedback entry: `{id, to_employee, strengths, improvements, sentiment}`. */
  datatype AnonymousEntry = AnonymousEntry(
    id: Id, to_employee: string, strengths: string, improvements: string, sentiment: string)

  /** A feedback request entry: exactly `{id, to_manager, message}`. */
  datatype RequestEntry = RequestEntry(id: Id, to_manager: string, message: string)

  /** The session identity object; the login page stores `{token, id, role}` and never an email. */
  datatype User = User(
    token: Option<string>, id: Option<string>, role: Option<string>, email: Option<string>)

  /** The value of a key after a spread of `patch` over `base`. */
  function Override<T>(base: Option<T>, patch: Option<T>): Option<T> {
    if patch.Some? then patch else base
  }

  /** `{...base, ...patch}`: every key present in `patch` wins, every other key keeps `base`'s value. */
  function Merge(base: Feedback, patch: Feedback): Feedback {
    Feedback(
      Override(base.id, patch.id),
      Override(base.employee_id, patch.employee_id),
      Override(base.manager_id, patch.manager_id),
      Override(base.employeeId, patch.employeeId),
      Override(base.managerId, patch.managerId),
      Override(base.strengths, patch.strengths),
      Override(base.improvements, patch.improvements),
      Override(base.sentiment, patch.sentiment),
      Override(base.tags, patch.tags),
      Override(base.acknowledged, patch.acknowledged),
      Override(base.comments, patch.comments),
      Override(base.comment, patch.comment),
      Override(base.createdAt, patch.createdAt))
  }

  /** Spreading `{}` changes nothing. */
  lemma MergeNoFields(base: Feedback)
    ensures Merge(base, NoFields) == base
  {
  }

  /** Spreading the same object twice is spreading it once. */
  lemma MergeIdempotent(base: Feedback, patch: Feedback)
    ensures Merge(Merge(base, patch), patch) == Merge(base, patch)
  {
  }

  /** Two successive spreads are one spread of the merged patches. */
  lemma MergeAssociative(base: Feedback, p: Feedback, q: Feedback)
    ensures Merge(Merge(base, p), q) == Merge(base, Merge(p, q))
  {
  }

  /** JavaScript truthiness of `fb.acknowledged`. */
  predicate IsAcknowledged(fb: Feedback) {
    fb.acknowledged == Some(true)
  }

  /** `fb.id === id`. */
  function HasId(id: Option<Id>): Feedback -> bool {
    (fb: Feedback) => fb.id == id
  }

  /** `fb.id !== id`. */
  function LacksId(id: Option<Id>): Feedback -> bool {
    (fb: Feedback) => fb.id != id
  }

  /** `fb.manager_id === m`. */
  function ManagedBy(m: Option<string>): Feedback -> bool {
    (fb: Feedback) => fb.manager_id == m
  }

  /** `fb.manager_id !== m`. */
  function NotManagedBy(m: Option<string>): Feedback -> bool {
    (fb: Feedback) => fb.manager_id != m
  }

  /** `fb.employee_id === e`. */
  function ReceivedBy(e: Option<string>): Feedback -> bool {
    (fb: Feedback) => fb.employee_id == e
  }

  /** `fb.employee_id !== e`. */
  function NotReceivedBy(e: Option<string>): Feedback -> bool {
    (fb: Feedback) => fb.employee_id != e
  }

  /** `s.map(fb => fb.id === id ? f(fb) : fb)`: the shape of every in-place writer. */
  function MapWhere(s: seq<Feedback>, id: Option<Id>, f: Feedback -> Feedback): (r: seq<Feedback>)
    ensures |r| == |s|
    ensures forall i :: 0 <= i < |s| ==> r[i] == if s[i].id == id then f(s[i]) else s[i]
  {
    Seqs.Map((fb: Feedback) => if fb.id == id then f(fb) else fb, s)
  }

  /** Shallow-merge `patch` into every record with the id. */
  function UpdateWhere(s: seq<Feedback>, id: Option<Id>, patch: Feedback): seq<Feedback> {
    MapWhere(s, id, (fb: Feedback) => Merge(fb, patch))
  }

  /** `{...fb, acknowledged: !fb.acknowledged}`. */
  function Toggled(fb: Feedback): Feedback {
    fb.(acknowledged := Some(!IsAcknowledged(fb)))
  }

  function ToggleWhere(s: seq<Feedback>, id: Option<Id>): seq<Feedback> {
    MapWhere(s, id, Toggled)
  }

  /** `{...fb, comments: [...(fb.comments || []), c]}`. */
  function WithComment(fb: Feedback, c: Comment): Feedback {
    fb.(comments := Some(OrElse(fb.comments, []) + [c]))
  }

  function AppendCommentWhere(s: seq<Feedback>, id: Option<Id>, c: Comment): seq<Feedback> {
    MapWhere(s, id, (fb: Feedback) => WithComment(fb, c))
  }

  /** `s.filter(fb => fb.id !== id)`. */
  function DeleteWhere(s: seq<Feedback>, id: Option<Id>): seq<Feedback> {
    Seqs.Filter(LacksId(id), s)
  }

  /** `s.find(fb => fb.id === id)`: the first record with the id, if any. */
  function FindById(s: seq<Feedback>, id: Option<Id>): (r: Option<Feedback>)
    ensures r.None? <==> forall i :: 0 <= i < |s| ==> s[i].id != id
    ensures r.Some? ==> r.value.id == id && r.value in s
  {
    if s == [] then None
    else if s[0].id == id then Some(s[0])
    else FindById(s[1..], id)
  }

  /** Among several records with the id, `find` returns the first one. */
  lemma {:induction false} FindByIdFirst(s: seq<Feedback>, id: Option<Id>, i: int)
    requires 0 <= i < |s| && s[i].id == id
    requires forall j :: 0 <= j < i ==> s[j].id != id
    ensures FindById(s, id) == Some(s[i])
  {
    if i > 0 {
      FindByIdFirst(s[1..], id, i - 1);
    }
  }

  /**
   * What a writer returns after `map` then `find`: the first record with the id, transformed,
   * or nothing when no record has the id.
   */
  lemma {:induction false} FindAfterMapWhere(s: seq<Feedback>, id: Option<Id>, f: Feedback -> Feedback)
    requires forall fb: Feedback :: fb.id == id ==> f(fb).id == id
    ensures FindById(MapWhere(s, id, f), id) ==
              match FindById(s, id)
              case None => None
              case Some(fb) => Some(f(fb))
  {
    if s != [] {
      var r := MapWhere(s, id, f);
      assert r[1..] == MapWhere(s[1..], id, f);
      FindAfterMapWhere(s[1..], id, f);
    }
  }

  /**
   * A writer that touches only the records with `id` leaves every record selected by `p`
   * unchanged and in order, provided none of them carries `id` and the rewrite does not move
   * a record into the selection.
   */
  lemma {:induction false} MapWhereKeepsOthers(
    s: seq<Feedback>, id: Option<Id>, f: Feedback -> Feedback, p: Feedback -> bool)
    requires forall i :: 0 <= i < |s| && p(s[i]) ==> s[i].id != id
    requires forall i :: 0 <= i < |s| && s[i].id == id ==> !p(f(s[i]))
    ensures Seqs.Filter(p, MapWhere(s, id, f)) == Seqs.Filter(p, s)
  {
    if s != [] {
      var r := MapWhere(s, id, f);
      assert r[1..] == MapWhere(s[1..], id, f);
      MapWhereKeepsOthers(s[1..], id, f, p);
    }
  }

  /**
   * Selecting by a property the rewrite keeps commutes with the rewrite: the selection of the
   * rewritten collection is the rewritten selection, whatever else carries the id.
   */
  lemma {:induction false} FilterMapWhere(
    s: seq<Feedback>, id: Option<Id>, f: Feedback -> Feedback, p: Feedback -> bool)
    requires forall fb: Feedback :: p(f(fb)) == p(fb)
    ensures Seqs.Filter(p, MapWhere(s, id, f)) == MapWhere(Seqs.Filter(p, s), id, f)
  {
    if s != [] {
      var r := MapWhere(s, id, f);
      assert r[1..] == MapWhere(s[1..], id, f);
      FilterMapWhere(s[1..], id, f, p);
      var kept := Seqs.Filter(p, s);
      if p(s[0]) {
        assert kept[1..] == Seqs.Filter(p, s[1..]);
        assert MapWhere(kept, id, f)[1..] == MapWhere(kept[1..], id, f);
      }
    }
  }

  /** Toggling twice restores every record whose `acknowledged` key is present. */
  lemma ToggleTwice(s: seq<Feedback>, id: Option<Id>)
    requires forall i :: 0 <= i < |s| && s[i].id == id ==> s[i].acknowledged.Some?
    ensures ToggleWhere(ToggleWhere(s, id), id) == s
  {
    var t := ToggleWhere(s, id);
    var r := ToggleWhere(t, id);
    forall i | 0 <= i < |s|
      ensures r[i] == s[i]
    {
      if s[i].id == id {
        assert t[i] == Toggled(s[i]) && t[i].id == id;
        assert t[i].acknowledged == Some(!IsAcknowledged(s[i]));
        assert s[i].acknowledged.Some?;
        assert s[i].acknowledged.value == IsAcknowledged(s[i]);
        assert s[i].acknowledged == Some(IsAcknowledged(s[i]));
        assert IsAcknowledged(t[i]) == !IsAcknowledged(s[i]);
        assert Toggled(t[i]).acknowledged == Some(IsAcknowledged(s[i]));
        assert r[i] == Toggled(t[i]);
      }
    }
  }

  /** Whatever the records hold, toggling twice restores whether each one counts as acknowledged. */
  lemma ToggleTwiceTruthiness(s: seq<Feedback>, id: Option<Id>)
    ensures |ToggleWhere(ToggleWhere(s, id), id)| == |s|
    ensures forall i :: 0 <= i < |s| ==>
              IsAcknowledged(ToggleWhere(ToggleWhere(s, id), id)[i]) == IsAcknowledged(s[i])
  {
  }

  /** After a removal no record carries the id; the rest keep their order and are all kept. */
  lemma DeleteWhereSpec(s: seq<Feedback>, id: Option<Id>)
    ensures forall i :: 0 <= i < |DeleteWhere(s, id)| ==> DeleteWhere(s, id)[i].id != id
    ensures Seqs.IsSubsequence(DeleteWhere(s, id), s)
    ensures |DeleteWhere(s, id)| == |s| - Seqs.Count(HasId(id), s)
  {
    Seqs.FilterIsSubsequence(LacksId(id), s);
    Seqs.FilterLength(LacksId(id), s);
    CountComplement(s, id);
  }

  lemma {:induction false} CountComplement(s: seq<Feedback>, id: Option<Id>)
    ensures Seqs.Count(LacksId(id), s) + Seqs.Count(HasId(id), s) == |s|
  {
    if s != [] {
      CountComplement(s[1..], id);
    }
  }

  /** `{ name, value: feedbacks.filter(f => f.sentiment === name).length }` for the three names. */
  datatype SentimentData = SentimentData(positive: nat, neutral: nat, negative: nat)

  function HasSentiment(name: string): Feedback -> bool {
    (fb: Feedback) => fb.sentiment == Some(name)
  }

  function SentimentCounts(s: seq<Feedback>): SentimentData {
    SentimentData(
      |Seqs.Filter(HasSentiment("positive"), s)|,
      |Seqs.Filter(HasSentiment("neutral"), s)|,
      |Seqs.Filter(HasSentiment("negative"), s)|)
  }

  predicate KnownSentiment(fb: Feedback) {
    fb.sentiment in {Some("positive"), Some("neutral"), Some("negative")}
  }

  /**
   * The three counts never exceed the number of records, and they add up to it exactly when
   * every record carries one of the three sentiments.
   */
  lemma SentimentCountsTotal(s: seq<Feedback>)
    ensures var d := SentimentCounts(s);
            d.positive + d.neutral + d.negative <= |s| &&
            (d.positive + d.neutral + d.negative == |s| <==>
               forall i :: 0 <= i < |s| ==> KnownSentiment(s[i]))
  {
    Seqs.FilterLength(HasSentiment("positive"), s);
    Seqs.FilterLength(HasSentiment("neutral"), s);
    Seqs.FilterLength(HasSentiment("negative"), s);
    CountSentiments(s);
  }

  lemma {:induction false} CountSentiments(s: seq<Feedback>)
    ensures var total := Seqs.Count(HasSentiment("positive"), s) +
                         Seqs.Count(HasSentiment("neutral"), s) +
                         Seqs.Count(HasSentiment("negative"), s);
            total <= |s| &&
            (total == |s| <==> forall i :: 0 <= i < |s| ==> KnownSentiment(s[i]))
  {
    if s != [] {
      CountSentiments(s[1..]);
      assert forall i :: 1 <= i < |s| ==> s[i] == s[1..][i - 1];
    }
  }
}
