/** Events name tags by id in a list that no foreign key guards: deleting a tag detaches it, and automatic tagging only
    ever adds the owner's own. */
module TagReferences {
  import opened Wrappers

  type Id = string

  datatype Tag = Tag(user: Id, name: string)
  datatype Event = Event(owner: Id, title: Option<string>, description: Option<string>, tagIds: seq<Id>)
  datatype Rows = Rows(tags: map<Id, Tag>, events: map<Id, Event>)

  const LIST_LIMIT: nat := 10_000

  // --- lists of ids --------------------------------------------------------------------------

  /** The list comprehension that drops one id. */
  function Without(ids: seq<Id>, gone: Id): seq<Id> {
    if ids == [] then []
    else Without(ids[..|ids| - 1], gone) + if ids[|ids| - 1] == gone then [] else [ids[|ids| - 1]]
  }

  /** It drops every occurrence of that id and nothing else, and keeps the order: it works on the parts of a list
      independently, and keeps or drops single ids. */
  lemma {:induction false} WithoutParts(a: seq<Id>, b: seq<Id>, gone: Id)
    ensures Without(a + b, gone) == Without(a, gone) + Without(b, gone)
    decreases |b|
  {
    if b == [] {
      assert a + b == a;
    } else {
      var n := |b| - 1;
      assert (a + b)[..|a + b| - 1] == a + b[..n];
      WithoutParts(a, b[..n], gone);
    }
  }

  lemma {:induction false} WithoutNone(ids: seq<Id>, gone: Id)
    requires gone !in ids
    ensures Without(ids, gone) == ids
    decreases |ids|
  {
    if ids != [] {
      var n := |ids| - 1;
      WithoutNone(ids[..n], gone);
      assert ids == ids[..n] + [ids[n]];
    }
  }

  lemma OneMoreId(ids: seq<Id>, last: Id, id: Id)
    ensures multiset(ids + [last])[id] == multiset(ids)[id] + if last == id then 1 else 0
  {
  }

  lemma {:induction false} WithoutCounts(ids: seq<Id>, gone: Id, id: Id)
    ensures multiset(Without(ids, gone))[id] == if id == gone then 0 else multiset(ids)[id]
    decreases |ids|
  {
    if ids != [] {
      var n := |ids| - 1;
      WithoutCounts(ids[..n], gone, id);
      assert ids == ids[..n] + [ids[n]];
      OneMoreId(ids[..n], ids[n], id);
      OneMoreId(Without(ids[..n], gone), ids[n], id);
    }
  }

  /** `dict.fromkeys`: each id where it first occurs. */
  function Deduped(ids: seq<Id>): seq<Id> {
    if ids == [] then []
    else
      var before := Deduped(ids[..|ids| - 1]);
      before + if ids[|ids| - 1] in before then [] else [ids[|ids| - 1]]
  }

  /** Where an id first occurs. */
  function First(ids: seq<Id>, id: Id): (k: nat)
    requires id in ids
    ensures k < |ids| && ids[k] == id && id !in ids[..k]
  {
    if ids[0] == id then 0 else First(ids[1..], id) + 1
  }

  lemma {:induction false} FirstIs(ids: seq<Id>, id: Id, k: nat)
    requires k < |ids| && ids[k] == id && id !in ids[..k]
    ensures First(ids, id) == k
    decreases |ids|
  {
  }

  lemma FirstStays(ids: seq<Id>, more: seq<Id>, id: Id)
    requires id in ids
    ensures First(ids + more, id) == First(ids, id)
  {
    var k := First(ids, id);
    assert (ids + more)[..k] == ids[..k];
    FirstIs(ids + more, id, k);
  }

  /** The result has the same ids, each once, in the order of their first occurrence. */
  lemma {:induction false} DedupedRight(ids: seq<Id>)
    ensures Distinct(Deduped(ids)) && forall id :: id in Deduped(ids) <==> id in ids
    ensures forall i, j | 0 <= i < j < |Deduped(ids)| :: First(ids, Deduped(ids)[i]) < First(ids, Deduped(ids)[j])
    decreases |ids|
  {
    if ids != [] {
      var n := |ids| - 1;
      var before, id := Deduped(ids[..n]), ids[n];
      DedupedRight(ids[..n]);
      assert ids == ids[..n] + [id];
      forall k | 0 <= k < |before| ensures First(ids, before[k]) == First(ids[..n], before[k]) < n {
        assert before[k] in before;
        FirstStays(ids[..n], [id], before[k]);
      }
      if id !in before {
        assert First(ids, id) == n;
      }
    }
  }

  /** Not more ids than were offered. */
  lemma AllOffered(tagIds: seq<Id>, ids: seq<Id>, offered: seq<Id>)
    requires tagIds == Deduped(ids) && forall id | id in ids :: id in offered
    ensures |tagIds| <= |offered|
  {
    DedupedRight(ids);
    var all := set id | id in offered;
    AllIn(tagIds, all);
    Fits(offered, all);
  }

  // --- the operations ------------------------------------------------------------------------

  /** How asking the model ends. */
  datatype Suggestion = Suggested(ids: seq<Id>) | Busy(retryAfter: Option<nat>) | Unavailable | BadResponse

  datatype Outcome = Noop | Tagged | GivenUp | Retry(after: Option<nat>)

  predicate IsSpace(c: char) {
    c in " \t\n\r"
  }

  predicate Blank(s: string) {
    forall c | c in s :: IsSpace(c)
  }

  function Part(text: Option<string>): seq<string> {
    if text.Some? && text.value != "" then [text.value] else []
  }

  /** `"\n".join`. */
  function Lines(parts: seq<string>): string {
    if parts == [] then "" else if |parts| == 1 then parts[0] else parts[0] + "\n" + Lines(parts[1..])
  }

  /** What the model is asked about: title and description, the empty ones left out, on separate lines. */
  function Text(e: Event): (text: string)
    ensures e.description == None || e.description == Some("") ==>
              e.title == Some(text) || (e.title == None && text == "")
    ensures e.title == None || e.title == Some("") ==>
              e.description == Some(text) || (e.description == None && text == "")
    ensures forall t, d | e.title == Some(t) && e.description == Some(d) && t != "" && d != "" ::
              text == t + "\n" + d
  {
    var parts := Part(e.title) + Part(e.description);
    assert |parts| == 2 ==> Lines(parts[1..]) == parts[1];
    Lines(parts)
  }

  /** Neither title nor description has anything but white space. */
  predicate Wordless(e: Event) {
    && (e.title.Some? ==> forall c | c in e.title.value :: c == ' ' || c == '\t' || c == '\n' || c == '\r')
    && (e.description.Some? ==> forall c | c in e.description.value :: c == ' ' || c == '\t' || c == '\n' || c == '\r')
  }

  lemma BlankIsWordless(e: Event)
    ensures Blank(Text(e)) <==> Wordless(e)
  {
    if e.title.Some? && e.description.Some? && e.title.value != "" && e.description.value != "" {
      var t, d := e.title.value, e.description.value;
      assert Text(e) == t + "\n" + d;
      assert forall c :: c in t || c in d ==> c in Text(e);
    }
  }

  function Deleted(rows: Rows, tagId: Id): Rows
    requires tagId in rows.tags
  {
    var user := rows.tags[tagId].user;
    Rows(rows.tags - {tagId},
         map e | e in rows.events :: Detached(rows.events[e], user, tagId))
  }

  function Detached(e: Event, user: Id, gone: Id): Event {
    if e.owner == user then e.(tagIds := Without(e.tagIds, gone)) else e
  }

  predicate OwnTag(rows: Rows, user: Id, id: Id) {
    id in rows.tags && rows.tags[id].user == user
  }

  /** The event has no tags yet and the ids are all its owner's. */
  predicate MayTag(rows: Rows, eventId: Id, ids: seq<Id>) {
    && eventId in rows.events && rows.events[eventId].tagIds == []
    && forall id | id in ids :: OwnTag(rows, rows.events[eventId].owner, id)
  }

  function TaggedWith(rows: Rows, eventId: Id, ids: seq<Id>): Rows
    requires eventId in rows.events
  {
    var e := rows.events[eventId];
    Rows(rows.tags, rows.events[eventId := Event(e.owner, e.title, e.description, Deduped(ids))])
  }

  /** How tagging ends, given what asking the model came to. With more than 10 000 tags not all are offered. */
  predicate Follows(rows: Rows, eventId: Id, suggestion: Suggestion, outcome: Outcome)
    requires eventId in rows.events
  {
    match suggestion
    case Busy(after) => outcome == Retry(after)
    case Unavailable => outcome == Retry(None)
    case BadResponse => outcome == GivenUp
    case Suggested(ids) =>
      && (outcome == Tagged || outcome == GivenUp)
      && (outcome == Tagged ==>
            |Deduped(ids)| <= 10_000 && forall id | id in ids :: OwnTag(rows, rows.events[eventId].owner, id))
      && (outcome == GivenUp ==> |TagsOf(rows, rows.events[eventId].owner)| > 10_000 ||
                                 exists id :: id in ids && !OwnTag(rows, rows.events[eventId].owner, id))
  }

  function TagsOf(rows: Rows, user: Id): set<Id> {
    set id | id in rows.tags && rows.tags[id].user == user
  }

  class Store {
    var rows: Rows

    constructor (rows: Rows)
      ensures this.rows == rows
    {
      this.rows := rows;
    }

    /** The first `limit` tags of a user. */
    method ListTags(user: Id, limit: nat) returns (page: seq<Id>)
      ensures Distinct(page) && forall id | id in page :: OwnTag(rows, user, id)
      ensures |TagsOf(rows, user)| <= limit ==> forall id | OwnTag(rows, user, id) :: id in page
      ensures |page| == if |TagsOf(rows, user)| <= limit then |TagsOf(rows, user)| else limit
    {
      page := [];
      var rest := TagsOf(rows, user);
      while rest != {} && |page| < limit
        invariant rest <= TagsOf(rows, user) && |page| + |rest| == |TagsOf(rows, user)| && |page| <= limit
        invariant Distinct(page) && forall id | id in page :: id in TagsOf(rows, user) && id !in rest
        invariant forall id | id in TagsOf(rows, user) :: id in page || id in rest
        decreases rest
      {
        var id :| id in rest;
        page, rest := page + [id], rest - {id};
      }
    }

    /** Detach the tag from all of its owner's events and delete it, in one transaction. */
    method DeleteTag(tagId: Id)
      requires tagId in rows.tags
      modifies this
      ensures rows == Deleted(old(rows), tagId)
      ensures rows.tags == old(rows).tags - {tagId} && rows.events.Keys == old(rows).events.Keys
      ensures forall e | e in rows.events ::
                var was, own := old(rows).events[e], old(rows).events[e].owner == old(rows).tags[tagId].user;
                rows.events[e] ==
                  Event(was.owner, was.title, was.description, if own then Without(was.tagIds, tagId) else was.tagIds)
    {
      var user := rows.tags[tagId].user;
      var events := rows.events;
      var rest := set e | e in events && events[e].owner == user;
      while rest != {}
        invariant rows == old(rows) && events.Keys == rows.events.Keys && rest <= events.Keys
        invariant forall e | e in rest :: rows.events[e].owner == user && events[e] == rows.events[e]
        invariant forall e | e in events && e !in rest ::
                    events[e] == Detached(rows.events[e], user, tagId)
        decreases rest
      {
        var e :| e in rest;
        if tagId in events[e].tagIds {
          events := events[e := events[e].(tagIds := Without(events[e].tagIds, tagId))];
        } else {
          WithoutNone(events[e].tagIds, tagId);
        }
        rest := rest - {e};
      }
      assert events == Deleted(rows, tagId).events;
      rows := Rows(rows.tags - {tagId}, events);
    }

    /** Fill the empty tag list of an event with what the model answers to its text, if all of it was offered to the
        model; `suggest` is the model, or how asking it fails. */
    method RunTagging(eventId: Id, suggest: string -> Suggestion) returns (outcome: Outcome)
      modifies this
      ensures outcome.Noop? <==>
                eventId !in old(rows).events || old(rows).events[eventId].tagIds != [] || Wordless(old(rows).events[eventId])
      ensures !outcome.Noop? ==> Follows(old(rows), eventId, suggest(Text(old(rows).events[eventId])), outcome)
      ensures outcome.Tagged? ==>
                && MayTag(old(rows), eventId, suggest(Text(old(rows).events[eventId])).ids)
                && rows == TaggedWith(old(rows), eventId, suggest(Text(old(rows).events[eventId])).ids)
      ensures !outcome.Tagged? ==> rows == old(rows)
    {
      if eventId !in rows.events {
        return Noop;
      }
      var event := rows.events[eventId];
      BlankIsWordless(event);
      if event.tagIds != [] || Blank(Text(event)) {
        return Noop;
      }
      var offered := ListTags(event.owner, LIST_LIMIT);
      match suggest(Text(event))
      case Busy(after) => return Retry(after);
      case Unavailable => return Retry(None);
      case BadResponse => return GivenUp;
      case Suggested(ids) =>
        if id :| id in ids && id !in offered {
          assert |TagsOf(rows, event.owner)| <= LIST_LIMIT ==> !OwnTag(rows, event.owner, id);
          return GivenUp;
        }
        var tagIds: seq<Id> := [];
        for k := 0 to |ids|
          invariant tagIds == Deduped(ids[..k])
        {
          assert ids[..k + 1][..k] == ids[..k];
          if ids[k] !in tagIds {
            tagIds := tagIds + [ids[k]];
          }
        }
        assert ids[..|ids|] == ids;
        AllOffered(tagIds, ids, offered);
        rows := rows.(events := rows.events[eventId := event.(tagIds := tagIds)]);
        return Tagged;
    }
  }

  // --- soundness over any sequence of them ---------------------------------------------------

  /** The user's events name only the user's existing tags. */
  predicate Sound(rows: Rows, user: Id) {
    forall e | e in rows.events && rows.events[e].owner == user ::
      forall id | id in rows.events[e].tagIds :: OwnTag(rows, user, id)
  }

  /** One finished operation that changed something. */
  datatype Op = Delete(tagId: Id) | TagEvent(eventId: Id, ids: seq<Id>)

  predicate Can(rows: Rows, op: Op) {
    match op
    case Delete(tagId) => tagId in rows.tags
    case TagEvent(eventId, ids) => MayTag(rows, eventId, ids)
  }

  function Do(rows: Rows, op: Op): Rows
    requires Can(rows, op)
  {
    match op
    case Delete(tagId) => Deleted(rows, tagId)
    case TagEvent(eventId, ids) => TaggedWith(rows, eventId, ids)
  }

  predicate Legal(rows: Rows, ops: seq<Op>)
    decreases |ops|
  {
    ops == [] || (Can(rows, ops[0]) && Legal(Do(rows, ops[0]), ops[1..]))
  }

  function After(rows: Rows, ops: seq<Op>): Rows
    requires Legal(rows, ops)
    decreases |ops|
  {
    if ops == [] then rows else After(Do(rows, ops[0]), ops[1..])
  }

  lemma DeleteKeepsSound(rows: Rows, tagId: Id, user: Id)
    requires Sound(rows, user) && tagId in rows.tags
    ensures Sound(Deleted(rows, tagId), user)
    ensures forall e | e in rows.events && rows.events[e].owner == user :: tagId !in Deleted(rows, tagId).events[e].tagIds
  {
    forall e | e in rows.events && rows.events[e].owner == user
      ensures tagId !in Deleted(rows, tagId).events[e].tagIds
      ensures forall id | id in Deleted(rows, tagId).events[e].tagIds :: OwnTag(Deleted(rows, tagId), user, id)
    {
      var ids := rows.events[e].tagIds;
      WithoutCounts(ids, tagId, tagId);
      assert tagId !in multiset(Without(ids, tagId));
      forall id | id in Without(ids, tagId) ensures id in ids {
        WithoutCounts(ids, tagId, id);
        assert id in multiset(Without(ids, tagId));
      }
    }
  }

  lemma TaggingKeepsSound(rows: Rows, eventId: Id, ids: seq<Id>, user: Id)
    requires Sound(rows, user) && MayTag(rows, eventId, ids)
    ensures Sound(TaggedWith(rows, eventId, ids), user)
    ensures Distinct(TaggedWith(rows, eventId, ids).events[eventId].tagIds)
  {
    DedupedRight(ids);
  }

  /** Whoever's tags are deleted and whichever events are tagged, references stay sound, user by user. */
  lemma {:induction false} OpsKeepSound(rows: Rows, ops: seq<Op>, user: Id)
    requires Sound(rows, user) && Legal(rows, ops)
    ensures Sound(After(rows, ops), user)
    decreases |ops|
  {
    if ops != [] {
      if ops[0].Delete? {
        DeleteKeepsSound(rows, ops[0].tagId, user);
      } else {
        TaggingKeepsSound(rows, ops[0].eventId, ops[0].ids, user);
      }
      OpsKeepSound(Do(rows, ops[0]), ops[1..], user);
    }
  }

  lemma {:induction false} TagsOnlyGo(rows: Rows, ops: seq<Op>, id: Id)
    requires Legal(rows, ops) && id !in rows.tags
    ensures id !in After(rows, ops).tags
    decreases |ops|
  {
    if ops != [] {
      TagsOnlyGo(Do(rows, ops[0]), ops[1..], id);
    }
  }

  /** A deleted tag is never named again. */
  lemma ForgottenForGood(rows: Rows, tagId: Id, ops: seq<Op>, user: Id, e: Id)
    requires Sound(rows, user) && tagId in rows.tags && Legal(Deleted(rows, tagId), ops)
    requires e in After(Deleted(rows, tagId), ops).events
    requires After(Deleted(rows, tagId), ops).events[e].owner == user
    ensures tagId !in After(Deleted(rows, tagId), ops).events[e].tagIds
  {
    var start := Deleted(rows, tagId);
    DeleteKeepsSound(rows, tagId, user);
    OpsKeepSound(start, ops, user);
    TagsOnlyGo(start, ops, tagId);
    assert forall id | id in After(start, ops).events[e].tagIds :: OwnTag(After(start, ops), user, id);
  }
}
