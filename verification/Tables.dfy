/** The account tables: users, recordings and events, as far as keys and ownership go. */
module Tables {
  import opened Wrappers
  import opened AudioKeys

  type Id = string

  datatype RecordingRow = RecordingRow(owner: Id, storageKey: string)
  datatype EventRow = EventRow(owner: Id, recordingId: Option<Id>, clientEventId: Option<Id>)

  /** `minted` remembers for whom each recording was ever created; no code reads it. */
  datatype Tables = Tables(
    users: set<Id>, recordings: map<Id, RecordingRow>, events: map<Id, EventRow>, minted: map<Id, Id>)

  const NO_ROWS := Tables({}, map[], map[], map[])

  /** The event is the one the user made under this idempotency key. */
  predicate Claimed(t: Tables, user: Id, clientEventId: Option<Id>, e: Id) {
    clientEventId.Some? && e in t.events && t.events[e].owner == user && t.events[e].clientEventId == clientEventId
  }

  /** `events.client_event_id` is unique over all users. */
  predicate Taken(t: Tables, clientEventId: Option<Id>) {
    clientEventId.Some? && exists e :: e in t.events && t.events[e].clientEventId == clientEventId
  }

  /** A fresh uuid: never minted before, and neither empty nor with a slash in it. */
  predicate FreshRecord(t: Tables, recordId: Id) {
    recordId !in t.minted && recordId != "" && Plain(recordId)
  }

  function AddAudio(t: Tables, user: Id, eventId: Id, recordId: Id, clientEventId: Option<Id>): Tables {
    t.(recordings := t.recordings[recordId := RecordingRow(user, AudioObjectKey(user, recordId))],
       events := t.events[eventId := EventRow(user, Some(recordId), clientEventId)],
       minted := t.minted[recordId := user])
  }

  function AddText(t: Tables, user: Id, eventId: Id, clientEventId: Option<Id>): Tables {
    t.(events := t.events[eventId := EventRow(user, None, clientEventId)])
  }

  /** `ON DELETE CASCADE` from the users row. */
  function DropUser(t: Tables, user: Id): Tables {
    t.(users := t.users - {user},
       recordings := map r | r in t.recordings && t.recordings[r].owner != user :: t.recordings[r],
       events := map e | e in t.events && t.events[e].owner != user :: t.events[e])
  }

  /** The committed transactions that insert or delete rows. */
  datatype Change =
    | NewUser(user: Id)
    | NewAudio(user: Id, eventId: Id, recordId: Id, clientEventId: Option<Id>)
    | NewText(user: Id, eventId: Id, clientEventId: Option<Id>)
    | EventGone(eventId: Id)
    | UserGone(user: Id)

  predicate CanChange(t: Tables, c: Change) {
    match c
    case NewAudio(user, eventId, recordId, clientEventId) =>
      user in t.users && eventId !in t.events && FreshRecord(t, recordId) && !Taken(t, clientEventId)
    case NewText(user, eventId, clientEventId) =>
      user in t.users && eventId !in t.events && !Taken(t, clientEventId)
    case _ => true
  }

  function Changed(t: Tables, c: Change): Tables {
    match c
    case NewUser(user) => t.(users := t.users + {user})
    case NewAudio(user, eventId, recordId, clientEventId) => AddAudio(t, user, eventId, recordId, clientEventId)
    case NewText(user, eventId, clientEventId) => AddText(t, user, eventId, clientEventId)
    case EventGone(eventId) => t.(events := t.events - {eventId})
    case UserGone(user) => DropUser(t, user)
  }

  predicate History(t: Tables, changes: seq<Change>)
    decreases |changes|
  {
    changes == [] || (CanChange(t, changes[0]) && History(Changed(t, changes[0]), changes[1..]))
  }

  function After(t: Tables, changes: seq<Change>): Tables
    decreases |changes|
  {
    if changes == [] then t else After(Changed(t, changes[0]), changes[1..])
  }

  /** Keys name their owner and recording, recordings are linked at most once and by their owner, idempotency keys
      are used at most once, and no row outlives its user. */
  predicate Sound(t: Tables) {
    && (forall r | r in t.minted :: r != "" && Plain(r))
    && (forall r | r in t.recordings ::
          && r in t.minted && t.recordings[r] == RecordingRow(t.minted[r], AudioObjectKey(t.minted[r], r))
          && t.minted[r] in t.users)
    && (forall e | e in t.events ::
          && t.events[e].owner in t.users
          && (t.events[e].recordingId.Some? ==> Linked(t, e, t.events[e].recordingId.value)))
    && (forall e, f | e in t.events && f in t.events && e != f ::
          && (t.events[e].recordingId.Some? ==> t.events[e].recordingId != t.events[f].recordingId)
          && (t.events[e].clientEventId.Some? ==> t.events[e].clientEventId != t.events[f].clientEventId))
  }

  predicate Linked(t: Tables, e: Id, r: Id)
    requires e in t.events
  {
    r in t.recordings && t.recordings[r].owner == t.events[e].owner
  }

  lemma AudioKeepsSound(t: Tables, user: Id, eventId: Id, recordId: Id, clientEventId: Option<Id>)
    requires Sound(t) && CanChange(t, NewAudio(user, eventId, recordId, clientEventId))
    ensures Sound(AddAudio(t, user, eventId, recordId, clientEventId))
  {
  }

  lemma DropKeepsSound(t: Tables, user: Id)
    requires Sound(t)
    ensures Sound(DropUser(t, user))
  {
  }

  lemma ChangeKeepsSound(t: Tables, c: Change)
    requires Sound(t) && CanChange(t, c)
    ensures Sound(Changed(t, c))
    ensures forall r | r in t.minted :: r in Changed(t, c).minted && Changed(t, c).minted[r] == t.minted[r]
  {
    match c
    case NewAudio(user, eventId, recordId, clientEventId) => AudioKeepsSound(t, user, eventId, recordId, clientEventId);
    case UserGone(user) => DropKeepsSound(t, user);
    case _ =>
  }

  lemma {:induction false} HistoryIsSound(t: Tables, changes: seq<Change>)
    requires Sound(t) && History(t, changes)
    ensures Sound(After(t, changes))
    ensures forall r | r in t.minted :: r in After(t, changes).minted && After(t, changes).minted[r] == t.minted[r]
    decreases |changes|
  {
    if changes != [] {
      ChangeKeepsSound(t, changes[0]);
      HistoryIsSound(Changed(t, changes[0]), changes[1..]);
    }
  }
}
