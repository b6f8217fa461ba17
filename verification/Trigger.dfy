/** Creating an event with its upload key, and what happens when the upload is reported. */
module Trigger {
  import opened Wrappers
  import opened AudioKeys
  import opened Tables
  import opened Bucket
  import opened Queue

  // --- creating an event -------------------------------------------------------------------

  /** How a create ends: the event and its upload target, or an exception, after which nothing is committed. */
  datatype Created = Replied(eventId: Id, signedUrl: Option<string>) | SigningFailed | IntegrityFailed

  ghost predicate Repeats(t: Tables, user: Id, clientEventId: Option<Id>) {
    exists e :: Claimed(t, user, clientEventId, e)
  }

  /** The answer to a request for an event that is there: the event, with an upload target under its recording's key as
      long as the recording has its row. */
  predicate Retried(t: Tables, e: Id, signing: bool, reply: Created) {
    && e in t.events
    && match t.events[e].recordingId
       case Some(r) =>
         if r in t.recordings
         then if signing then reply == Replied(e, Some(t.recordings[r].storageKey)) else reply == SigningFailed
         else reply == Replied(e, None)
       case None => reply == Replied(e, None)
  }

  class Events {
    var tables: Tables

    constructor ()
      ensures tables == NO_ROWS
    {
      tables := NO_ROWS;
    }

    /** A fresh upload target for an existing event: its recording's key. */
    method MintSignedUrl(eventId: Id, signing: bool) returns (reply: Created)
      requires eventId in tables.events
      ensures Retried(tables, eventId, signing, reply)
    {
      var link := tables.events[eventId].recordingId;
      if link.None? || link.value !in tables.recordings {
        return Replied(eventId, None);
      }
      reply := if signing then Replied(eventId, Some(tables.recordings[link.value].storageKey)) else SigningFailed;
    }

    /** `eventId` and `recordId` are the uuids this call would use. A repeated idempotency key answers with the event
        it made the first time; recording and event are inserted in one transaction or not at all. */
    method CreateEvent(audio: bool, clientEventId: Option<Id>, user: Id, eventId: Id, recordId: Id, signing: bool)
      returns (reply: Created)
      requires FreshRecord(tables, recordId) && eventId !in tables.events
      modifies this
      ensures Repeats(old(tables), user, clientEventId) ==>
                && tables == old(tables)
                && exists e :: Claimed(tables, user, clientEventId, e) && Retried(tables, e, signing, reply)
      ensures !Repeats(old(tables), user, clientEventId) ==>
                var change := if audio then NewAudio(user, eventId, recordId, clientEventId)
                              else NewText(user, eventId, clientEventId);
                && (reply.Replied? <==> CanChange(old(tables), change) && (audio ==> signing))
                && tables == (if reply.Replied? then Changed(old(tables), change) else old(tables))
                && (reply.Replied? ==>
                      reply == Replied(eventId, if audio then Some("v0/" + user + "/" + recordId + ".m4a") else None))
                && (reply.SigningFailed? <==> audio && !signing)
    {
      Printed(user, recordId);
      if clientEventId.Some? {
        if e :| e in tables.events && tables.events[e].owner == user && tables.events[e].clientEventId == clientEventId {
          assert Claimed(tables, user, clientEventId, e);
          reply := MintSignedUrl(e, signing);
          return;
        }
      }
      var taken := clientEventId.Some? && exists e :: e in tables.events && tables.events[e].clientEventId == clientEventId;
      if audio {
        var storageKey := AudioObjectKey(user, recordId);
        if !signing {
          return SigningFailed;
        }
        var recordings := tables.recordings[recordId := RecordingRow(user, storageKey)];
        if user !in tables.users || taken {
          return IntegrityFailed;
        }
        tables := tables.(recordings := recordings,
                          events := tables.events[eventId := EventRow(user, Some(recordId), clientEventId)],
                          minted := tables.minted[recordId := user]);
        return Replied(eventId, Some(storageKey));
      }
      if user !in tables.users || taken {
        return IntegrityFailed;
      }
      tables := tables.(events := tables.events[eventId := EventRow(user, None, clientEventId)]);
      reply := Replied(eventId, None);
    }
  }

  // --- the finalize notification ---------------------------------------------------------------

  /** The base64 payload of the message: missing, not JSON, or JSON with a name that is a non-empty string or not. */
  datatype Payload = Absent | Undecodable | Object(name: Option<string>)

  datatype Notice = Notice(eventType: Option<string>, objectId: Option<string>, data: Payload)

  predicate NoAttribute(notice: Notice) {
    notice.objectId == None || notice.objectId == Some("")
  }

  /** The name of the finalized object: the attribute, or else the payload, as long as it is not empty. */
  function ObjectName(notice: Notice): (name: Option<string>)
    ensures match name
            case Some(n) => n != "" && (notice.objectId == Some(n) || (NoAttribute(notice) && notice.data == Object(Some(n))))
            case None => NoAttribute(notice) && forall n :: notice.data == Object(Some(n)) ==> n == ""
  {
    if notice.objectId.Some? && notice.objectId.value != "" then notice.objectId
    else if notice.data.Object? && notice.data.name.Some? && notice.data.name.value != "" then notice.data.name
    else None
  }

  /** What a finalize notification for an object asks for. `Refuse` is the cleanup error that escapes as a 500. */
  datatype Routing = Ignore | Enqueue(recordId: Id) | Remove(key: string) | Refuse

  function Route(recordings: map<Id, RecordingRow>, name: string): Routing {
    match RecordIdFromAudioKey(name)
    case None => Ignore
    case Some(r) =>
      if r in recordings && recordings[r].storageKey == name then Enqueue(r)
      else if UserIdFromAudioKey(name).Some? && ValidOwner(UserIdFromAudioKey(name).value) then Remove(name)
      else Refuse
  }

  // --- the handler -----------------------------------------------------------------------------

  /** How the outside behaves while one notification is handled. */
  datatype Errands = Errands(bucketConfigured: bool, listing: Call, removal: Call, queueUp: bool)

  /** Removes exactly the named object; False is a cleanup error. */
  method DeleteAudio(bucket: Bucket, key: string, env: Errands) returns (ok: bool)
    modifies bucket
    ensures bucket.names == if env.bucketConfigured && env.listing.Fine? && !env.removal.Failed?
                            then old(bucket.names) - {key} else old(bucket.names)
    ensures ok <==> env.bucketConfigured ==> env.listing.Fine? && (key in old(bucket.names) ==> env.removal.Fine?)
  {
    if !env.bucketConfigured {
      return true;
    }
    if !env.listing.Fine? {
      return false;
    }
    var listing := bucket.ListBlobs(key);
    for k := 0 to |listing|
      invariant bucket.names == if key in listing[..k] then old(bucket.names) - {key} else old(bucket.names)
      invariant key in listing[..k] ==> env.removal.Fine?
    {
      if listing[k] == key {
        ok := bucket.Delete(key, env.removal);
        if !ok {
          return;
        }
      }
    }
    assert key !in listing ==> old(bucket.names) - {key} == old(bucket.names);
    ok := true;
  }

  /** The name is that of an audio object of somebody `_audio_prefix` accepts. */
  ghost predicate IsSomebodys(name: string) {
    exists owner :: IsOwnerId(owner) && IsAudioOf(name, owner)
  }

  lemma Somebodys(name: string)
    ensures IsSomebodys(name) <==> UserIdFromAudioKey(name).Some? && ValidOwner(UserIdFromAudioKey(name).value)
  {
    if IsSomebodys(name) {
      var owner :| IsOwnerId(owner) && IsAudioOf(name, owner);
      Layout(owner, "", name);
    }
    if UserIdFromAudioKey(name).Some? {
      Layout(UserIdFromAudioKey(name).value, "", name);
    }
  }

  /** Only an audio object of somebody is removed; any other name is refused. */
  method DeleteOrphan(bucket: Bucket, key: string, env: Errands) returns (ok: bool)
    modifies bucket
    ensures bucket.names == if IsSomebodys(key) && env.bucketConfigured && env.listing.Fine? && !env.removal.Failed?
                            then old(bucket.names) - {key} else old(bucket.names)
    ensures ok <==>
              && IsSomebodys(key)
              && (env.bucketConfigured ==> env.listing.Fine? && (key in old(bucket.names) ==> env.removal.Fine?))
  {
    Somebodys(key);
    var owner := UserIdFromAudioKey(key);
    if owner.None? || !ValidOwner(owner.value) {
      return false;
    }
    UnderPrefix(owner.value, key);
    if !(AudioPrefix(owner.value) <= key) {
      return false;
    }
    ok := DeleteAudio(bucket, key, env);
  }

  /** The finalize handler. `acked` is the 204 that stops redelivery; otherwise an error escapes and the message comes
      again. Whatever fails, nothing but what `Route` asks for is touched. */
  method Uploaded(recordings: map<Id, RecordingRow>, bucket: Bucket, queue: TaskQueue, notice: Notice, env: Errands)
    returns (acked: bool)
    modifies bucket, queue
    ensures var name := ObjectName(notice);
            var routing := if notice.eventType == Some("OBJECT_FINALIZE") && name.Some?
                           then Route(recordings, name.value) else Ignore;
            && queue.tasks == old(queue.tasks) + (if routing.Enqueue? && env.queueUp then [routing.recordId] else [])
            && bucket.names == (if routing.Remove? && env.bucketConfigured && env.listing.Fine? && !env.removal.Failed?
                                then old(bucket.names) - {routing.key} else old(bucket.names))
            && (acked <==> match routing
                           case Ignore => true
                           case Refuse => false
                           case Enqueue(_) => env.queueUp
                           case Remove(key) =>
                             env.bucketConfigured ==>
                               env.listing.Fine? && (key in old(bucket.names) ==> env.removal.Fine?))
  {
    var name := ObjectName(notice);
    if notice.eventType != Some("OBJECT_FINALIZE") || name.None? {
      return true;
    }
    var recordId := RecordIdFromAudioKey(name.value);
    if recordId.None? {
      return true;
    }
    Somebodys(name.value);
    if !(recordId.value in recordings && recordings[recordId.value].storageKey == name.value) {
      acked := DeleteOrphan(bucket, name.value, env);
      return;
    }
    acked := queue.Enqueue(recordId.value, env.queueUp);
  }

  // --- what the routing comes to ---------------------------------------------------------------

  /** The key `create_event` minted for a recording. */
  function MintedKey(t: Tables, r: Id): string
    requires r in t.minted
  {
    AudioObjectKey(t.minted[r], r)
  }

  /** In every reachable database, the upload for a recording queues exactly that recording while its row exists and
      asks for the removal of exactly that object once the row is gone. */
  lemma MintedKeyIsRouted(changes: seq<Change>, r: Id)
    requires History(NO_ROWS, changes) && r in After(NO_ROWS, changes).minted
    requires ValidOwner(After(NO_ROWS, changes).minted[r])
    ensures var t := After(NO_ROWS, changes);
            Route(t.recordings, MintedKey(t, r)) == if r in t.recordings then Enqueue(r) else Remove(MintedKey(t, r))
  {
    HistoryIsSound(NO_ROWS, changes);
    ParsePlain(After(NO_ROWS, changes).minted[r], r);
  }

  /** In every reachable database the upload target an event answers with, the first time and on every retry, is the key
      of its own owner and recording; and for an acceptable owner the upload reported under it queues that recording. */
  lemma UploadTargetIsOwn(changes: seq<Change>, e: Id)
    requires History(NO_ROWS, changes)
    requires var t := After(NO_ROWS, changes); e in t.events && t.events[e].recordingId.Some?
    ensures var t := After(NO_ROWS, changes);
            var r, owner := t.events[e].recordingId.value, t.events[e].owner;
            && r in t.recordings && t.recordings[r].storageKey == "v0/" + owner + "/" + r + ".m4a"
            && (Plain(owner) ==> Route(t.recordings, t.recordings[r].storageKey) == Enqueue(r))
  {
    var t := After(NO_ROWS, changes);
    HistoryIsSound(NO_ROWS, changes);
    var r := t.events[e].recordingId.value;
    assert Linked(t, e, r);
    Printed(t.events[e].owner, r);
    if Plain(t.events[e].owner) {
      ParsePlain(t.events[e].owner, r);
    }
  }

  /** A retry is answered as the first request was, as long as the event is there, whatever happened in between: with
      that event, and for audio with the key of its owner and recording. */
  lemma RetryIsAnsweredAlike(before: seq<Change>, more: seq<Change>, user: Id, e: Id, r: Id, clientEventId: Option<Id>,
                             signing: bool, reply: Created)
    requires clientEventId.Some? && History(NO_ROWS, before)
    requires CanChange(After(NO_ROWS, before), NewAudio(user, e, r, clientEventId))
    requires var made := Changed(After(NO_ROWS, before), NewAudio(user, e, r, clientEventId));
             && History(made, more) && e in After(made, more).events
             && After(made, more).events[e].recordingId == Some(r)
             && exists f :: Claimed(After(made, more), user, clientEventId, f) && Retried(After(made, more), f, signing, reply)
    ensures reply == if signing then Replied(e, Some("v0/" + user + "/" + r + ".m4a")) else SigningFailed
  {
    var t, change := After(NO_ROWS, before), NewAudio(user, e, r, clientEventId);
    HistoryIsSound(NO_ROWS, before);
    ChangeKeepsSound(t, change);
    HistoryIsSound(Changed(t, change), more);
    LinkStays(Changed(t, change), more, user, e, r, clientEventId);
    Printed(user, r);
    var t' := After(Changed(t, change), more);
    assert Linked(t', e, r);
    assert Claimed(t', user, clientEventId, e);
  }

  /** The only event that ever carries the recording, unchanged. */
  predicate OnlyLink(t: Tables, user: Id, e: Id, r: Id, clientEventId: Option<Id>) {
    && r in t.minted && t.minted[r] == user
    && forall f | f in t.events && t.events[f].recordingId == Some(r) ::
         f == e && t.events[f] == EventRow(user, Some(r), clientEventId)
  }

  lemma {:induction false} LinkStays(t: Tables, more: seq<Change>, user: Id, e: Id, r: Id, clientEventId: Option<Id>)
    requires History(t, more) && OnlyLink(t, user, e, r, clientEventId)
    ensures OnlyLink(After(t, more), user, e, r, clientEventId)
    decreases |more|
  {
    if more != [] {
      LinkStays(Changed(t, more[0]), more[1..], user, e, r, clientEventId);
    }
  }

  /** For other owner ids the two halves fail separately: queueing needs an owner without a slash, removal one that
      `_audio_prefix` accepts. */
  lemma MintedKeyIsRoutedOnlyIf(changes: seq<Change>, r: Id)
    requires History(NO_ROWS, changes) && r in After(NO_ROWS, changes).minted
    ensures var t := After(NO_ROWS, changes);
            && (r in t.recordings ==> (Route(t.recordings, MintedKey(t, r)) == Enqueue(r) <==> Plain(t.minted[r])))
            && (r !in t.recordings ==>
                  (Route(t.recordings, MintedKey(t, r)) == Remove(MintedKey(t, r)) <==> ValidOwner(t.minted[r])))
  {
    var t := After(NO_ROWS, changes);
    HistoryIsSound(NO_ROWS, changes);
    var key := MintedKey(t, r);
    if Plain(t.minted[r]) {
      ParsePlain(t.minted[r], r);
    } else if RecordIdFromAudioKey(key).Some? {
      var parts := Split(key);
      SplitThree(key);
      ParsedStem(parts[2], RecordIdFromAudioKey(key).value);
      ThreeParts(t.minted[r], r, parts[1], parts[2]);
    }
  }

  /** A key with a slash in its owner has more than three parts. */
  lemma ThreeParts(owner: string, r: Id, part: string, stem: string)
    requires Plain(r) && Plain(part) && Plain(stem)
    requires AudioObjectKey(owner, r) == PREFIX + "/" + part + "/" + stem
    ensures Plain(owner)
  {
    SplitKey(part, stem);
    var tail := r + SUFFIX;
    assert AudioObjectKey(owner, r) == PREFIX + "/" + (owner + "/" + tail);
    assert PREFIX + "/" + part + "/" + stem == PREFIX + "/" + (part + "/" + stem);
    SameFirst(PREFIX, PREFIX, owner + "/" + tail, part + "/" + stem);
    LastSlash(owner, tail, part, stem);
  }

  /** The last slash starts the last part. */
  lemma LastSlash(a: string, x: string, b: string, y: string)
    requires Plain(x) && Plain(y) && a + "/" + x == b + "/" + y
    ensures a == b
  {
    var s := a + "/" + x;
    assert s[|a|] == '/' && s[|b|] == '/';
    assert forall k | |a| < k < |s| :: s[k] == x[k - |a| - 1];
    assert forall k | |b| < k < |s| :: s[k] == y[k - |b| - 1];
    assert s[..|a|] == a && s[..|b|] == b;
  }

  /** A notification never asks for the removal of an object that a row still names, and what it queues is the
      recording whose object it is; a name that is not an audio key does neither. */
  lemma RoutesAreSafe(changes: seq<Change>, name: string)
    requires History(NO_ROWS, changes)
    ensures var t := After(NO_ROWS, changes);
            match Route(t.recordings, name)
            case Remove(key) => key == name && forall r | r in t.recordings :: t.recordings[r].storageKey != name
            case Enqueue(r) => r in t.recordings && t.recordings[r].storageKey == name
            case Ignore => RecordIdFromAudioKey(name) == None
            case Refuse => RecordIdFromAudioKey(name).Some?
  {
    var t := After(NO_ROWS, changes);
    HistoryIsSound(NO_ROWS, changes);
    if Route(t.recordings, name).Remove? {
      PrintParsed(name);
      var owner, id := UserIdFromAudioKey(name).value, RecordIdFromAudioKey(name).value;
      forall r | r in t.recordings ensures t.recordings[r].storageKey != name {
        if t.recordings[r].storageKey == name {
          assert name == AudioObjectKey(t.minted[r], r);
          SameStem(t.minted[r], r, owner, id);
        }
      }
    }
  }

  lemma SameStem(owner: string, r: Id, other: string, id: Id)
    requires Plain(r) && Plain(id) && AudioObjectKey(owner, r) == AudioObjectKey(other, id)
    ensures owner == other && r == id
  {
    var x, y := r + SUFFIX, id + SUFFIX;
    assert AudioObjectKey(owner, r) == (PREFIX + "/" + owner) + "/" + x;
    assert AudioObjectKey(other, id) == (PREFIX + "/" + other) + "/" + y;
    LastSlash(PREFIX + "/" + owner, x, PREFIX + "/" + other, y);
    assert (PREFIX + "/" + owner)[3..] == owner && (PREFIX + "/" + other)[3..] == other;
    assert x == AudioObjectKey(owner, r)[|PREFIX + "/" + owner| + 1..];
    assert y == AudioObjectKey(other, id)[|PREFIX + "/" + other| + 1..];
    assert x[..|x| - |SUFFIX|] == r && y[..|y| - |SUFFIX|] == id;
  }
}
