/** Deleting an account: queued tasks, then audio, then the identity, then the rows. Any stage may fail or the process
    die; what is left is for a retry. */
module AccountDeletion {
  import opened Wrappers
  import opened AudioKeys
  import opened Tables
  import opened Bucket

  /** The ids a task's body names; a body that is not a JSON object, or names something other than strings, names
      nothing. */
  datatype Body = Body(eventId: Option<Id>, recordId: Option<Id>)

  datatype Backend = NotSet | NoServiceKey | Ready

  /** Which services are configured at all. */
  datatype Setup = Setup(queue: bool, bucket: bool, supabase: Backend)

  /** How the remote calls of one attempt go. */
  datatype Mishaps = Mishaps(listTasks: Call, cancel: string -> Call, listBlobs: Call, remove: string -> Call,
                             auth: Call, commit: Call)

  predicate IsOwnedTask(body: Body, eventIds: set<Id>, recordingIds: set<Id>) {
    (body.eventId.Some? && body.eventId.value in eventIds) || (body.recordId.Some? && body.recordId.value in recordingIds)
  }

  class TaskList {
    var tasks: map<string, Body>

    constructor ()
      ensures tasks == map[]
    {
      tasks := map[];
    }

    /** Every task in the queue, in some order. */
    method ListTasks() returns (listing: seq<string>)
      ensures forall name :: name in listing <==> name in tasks
    {
      listing := [];
      var rest := tasks.Keys;
      while rest != {}
        invariant forall name :: name in tasks <==> name in listing || name in rest
        decreases rest
      {
        var name :| name in rest;
        listing, rest := listing + [name], rest - {name};
      }
    }

    method DeleteTask(name: string, call: Call) returns (ok: bool)
      modifies this
      ensures ok == call.Fine? && tasks == if call.Failed? then old(tasks) else old(tasks) - {name}
    {
      if !call.Failed? {
        tasks := tasks - {name};
      }
      ok := call.Fine?;
    }
  }

  class Accounts {
    var tables: Tables
    var identities: set<Id>

    constructor ()
      ensures tables == NO_ROWS && identities == {}
    {
      tables, identities := NO_ROWS, {};
    }

    /** Remove the identity; one that is gone already is a success, and without Supabase there is nothing to do. */
    method DeleteAuthUser(user: Id, supabase: Backend, call: Call) returns (ok: bool)
      modifies this`identities
      ensures ok <==> supabase.NotSet? || (supabase.Ready? && call.Fine?)
      ensures identities == if supabase.Ready? && !call.Failed? then old(identities) - {user} else old(identities)
    {
      if supabase.NotSet? {
        return true;
      }
      if supabase.NoServiceKey? {
        return false;
      }
      if !call.Failed? {
        identities := identities - {user};
      }
      ok := call.Fine?;
    }

    /** Delete the users row, and with it everything that references it. */
    method DeleteUser(user: Id, call: Call) returns (ok: bool)
      modifies this`tables
      ensures ok == call.Fine? && tables == if call.Failed? then old(tables) else DropUser(old(tables), user)
    {
      if !call.Failed? {
        tables := DropUser(tables, user);
      }
      ok := call.Fine?;
    }
  }

  function EventsOf(t: Tables, user: Id): set<Id> {
    set e | e in t.events && t.events[e].owner == user
  }

  function RecordingsOf(t: Tables, user: Id): set<Id> {
    set r | r in t.recordings && t.recordings[r].owner == user
  }

  function KeysOf(t: Tables, user: Id): set<string> {
    set r | r in RecordingsOf(t, user) :: t.recordings[r].storageKey
  }

  // --- the stages ------------------------------------------------------------------------------

  /** The task is about one of these events or recordings. */
  predicate Concerns(body: Body, eventIds: set<Id>, recordingIds: set<Id>) {
    (exists e :: e in eventIds && body.eventId == Some(e)) || (exists r :: r in recordingIds && body.recordId == Some(r))
  }

  /** Cancels the tasks that name one of the ids, as far as it gets; it gets through exactly if every call it needs
      works. */
  method CancelAccountTasks(queue: TaskList, configured: bool, eventIds: set<Id>, recordingIds: set<Id>, env: Mishaps)
    returns (ok: bool)
    modifies queue
    ensures forall name | name in queue.tasks :: name in old(queue.tasks) && queue.tasks[name] == old(queue.tasks)[name]
    ensures forall name | name in old(queue.tasks) && name !in queue.tasks ::
              configured && Concerns(old(queue.tasks)[name], eventIds, recordingIds)
    ensures ok && configured ==> forall name | name in queue.tasks :: !Concerns(queue.tasks[name], eventIds, recordingIds)
    ensures ok <==> configured ==>
              && env.listTasks.Fine?
              && forall name | name in old(queue.tasks) && Concerns(old(queue.tasks)[name], eventIds, recordingIds) ::
                   env.cancel(name).Fine?
  {
    if !configured {
      return true;
    }
    if !env.listTasks.Fine? {
      return false;
    }
    var listing := queue.ListTasks();
    for k := 0 to |listing|
      invariant forall name | name in queue.tasks :: name in old(queue.tasks) && queue.tasks[name] == old(queue.tasks)[name]
      invariant forall name | name in old(queue.tasks) && name !in queue.tasks ::
                  Concerns(old(queue.tasks)[name], eventIds, recordingIds) && env.cancel(name).Fine?
      invariant forall j | 0 <= j < k ::
                  listing[j] in queue.tasks ==> !Concerns(queue.tasks[listing[j]], eventIds, recordingIds)
    {
      var name := listing[k];
      if name in queue.tasks && IsOwnedTask(queue.tasks[name], eventIds, recordingIds) {
        var deleted := queue.DeleteTask(name, env.cancel(name));
        if !deleted {
          return false;
        }
      }
    }
    ok := true;
  }

  /** The object is an audio object of the user. */
  predicate OwnedBy(name: string, user: Id) {
    UserIdFromAudioKey(name) == Some(user)
  }

  /** The checks that come before any object is touched. */
  predicate Confirmed(user: Id, knownKeys: set<string>) {
    ValidOwner(user) && forall key | key in knownKeys :: OwnedBy(key, user)
  }

  /** What the code asks of names, in plain terms. */
  lemma PlainTerms(user: Id)
    ensures ValidOwner(user) <==> IsOwnerId(user)
    ensures forall name :: OwnedBy(name, user) <==> IsAudioOf(name, user)
    ensures forall name :: AudioPrefix(user) <= name <==> IsUnder(name, user)
  {
    forall name ensures OwnedBy(name, user) <==> IsAudioOf(name, user) {
      Layout(user, "", name);
    }
    Layout(user, "", "");
  }

  /** Every object in the user's folder is an audio object of the user. */
  ghost predicate OnlyAudio(names: set<string>, user: Id) {
    forall name | name in names && IsUnder(name, user) :: IsAudioOf(name, user)
  }

  /** Deletes every object under the user's prefix; a listed object that is not the user's audio stops it, and so does
      a stored key that is not. */
  method DeleteUserAudio(bucket: Bucket, configured: bool, user: Id, knownKeys: set<string>, env: Mishaps)
    returns (ok: bool)
    modifies bucket
    ensures bucket.names <= old(bucket.names)
    ensures forall name | name in old(bucket.names) - bucket.names ::
              configured && IsOwnerId(user) && IsUnder(name, user) && IsAudioOf(name, user)
    ensures ok && configured ==> forall name | name in bucket.names :: !IsUnder(name, user)
    ensures ok <==>
              && IsOwnerId(user) && (forall key | key in knownKeys :: IsAudioOf(key, user))
              && (configured ==>
                    && env.listBlobs.Fine? && OnlyAudio(old(bucket.names), user)
                    && forall name | name in old(bucket.names) && IsUnder(name, user) :: env.remove(name).Fine?)
  {
    PlainTerms(user);
    if !Confirmed(user, knownKeys) {
      return false;
    }
    if !configured {
      return true;
    }
    if !env.listBlobs.Fine? {
      return false;
    }
    var listing := bucket.ListBlobs(AudioPrefix(user));
    for k := 0 to |listing|
      invariant bucket.names <= old(bucket.names)
      invariant forall name | name in old(bucket.names) - bucket.names :: name in listing && OwnedBy(name, user)
      invariant forall j | 0 <= j < k ::
                  listing[j] !in bucket.names && OwnedBy(listing[j], user) && env.remove(listing[j]).Fine?
    {
      assert listing[k] in listing;
      if !OwnedBy(listing[k], user) {
        return false;
      }
      var removed := bucket.Delete(listing[k], env.remove(listing[k]));
      if !removed {
        return false;
      }
    }
    ok := true;
  }

  // --- one attempt -----------------------------------------------------------------------------

  /** Everything the service controls, in one value. */
  datatype Estate = Estate(tables: Tables, identities: set<Id>, tasks: map<string, Body>, names: set<string>)

  ghost function Held(accounts: Accounts, queue: TaskList, bucket: Bucket): Estate
    reads accounts, queue, bucket
  {
    Estate(accounts.tables, accounts.identities, queue.tasks, bucket.names)
  }

  predicate OwnsEvent(t: Tables, user: Id, e: Id) {
    e in t.events && t.events[e].owner == user
  }

  predicate OwnsRecording(t: Tables, user: Id, r: Id) {
    r in t.recordings && t.recordings[r].owner == user
  }

  /** The task is about an event or a recording of the user. */
  predicate OwnsTask(t: Tables, user: Id, body: Body) {
    || (body.eventId.Some? && OwnsEvent(t, user, body.eventId.value))
    || (body.recordId.Some? && OwnsRecording(t, user, body.recordId.value))
  }

  predicate NoTasks(s: Estate, t: Tables, user: Id) {
    forall name | name in s.tasks :: !OwnsTask(t, user, s.tasks[name])
  }

  predicate NoAudio(s: Estate, user: Id) {
    forall name | name in s.names :: !IsUnder(name, user)
  }

  /** The user's row and all rows that belong to it are gone, and no others. */
  ghost predicate RowsGone(t: Tables, t': Tables, user: Id) {
    && t'.users == t.users - {user} && t'.minted == t.minted
    && (forall r :: r in t'.recordings <==> r in t.recordings && t.recordings[r].owner != user)
    && (forall r | r in t'.recordings :: t'.recordings[r] == t.recordings[r])
    && (forall e :: e in t'.events <==> e in t.events && t.events[e].owner != user)
    && (forall e | e in t'.events :: t'.events[e] == t.events[e])
  }

  /** What an attempt may do, however it ends: only the user's own things go, the audio only after the tasks, the
      identity only after both, and the rows only after the identity. */
  ghost predicate Attempt(setup: Setup, user: Id, s: Estate, s': Estate) {
    && (forall name | name in s'.tasks :: name in s.tasks && s'.tasks[name] == s.tasks[name])
    && (forall name | name in s.tasks && name !in s'.tasks :: setup.queue && OwnsTask(s.tables, user, s.tasks[name]))
    && s'.names <= s.names && (forall name | name in s.names - s'.names :: setup.bucket && IsAudioOf(name, user))
    && (s'.identities == s.identities || s'.identities == s.identities - {user})
    && (s'.tables == s.tables || RowsGone(s.tables, s'.tables, user))
    && (user !in s.tables.users ==> s' == s)
    && (s'.names != s.names ==> setup.queue ==> NoTasks(s', s.tables, user))
    && (s'.identities != s.identities || s'.tables != s.tables ==>
          && (setup.queue ==> NoTasks(s', s.tables, user)) && (setup.bucket ==> NoAudio(s', user)))
    && (s'.tables != s.tables && setup.supabase.Ready? ==> user !in s'.identities)
  }

  /** Nothing of the user is left. */
  ghost predicate Erased(setup: Setup, user: Id, s: Estate, s': Estate) {
    && RowsGone(s.tables, s'.tables, user)
    && (setup.queue ==> NoTasks(s', s.tables, user)) && (setup.bucket ==> NoAudio(s', user))
    && (setup.supabase.Ready? ==> user !in s'.identities)
  }

  /** The stored keys of the user's recordings are those of the user's audio. */
  ghost predicate KeysAreOwn(t: Tables, user: Id) {
    forall r | OwnsRecording(t, user, r) :: IsAudioOf(t.recordings[r].storageKey, user)
  }

  /** What stands in the way of an attempt that every service serves, if anything does. */
  ghost predicate Deletable(setup: Setup, user: Id, s: Estate) {
    && IsOwnerId(user) && KeysAreOwn(s.tables, user)
    && (setup.bucket ==> OnlyAudio(s.names, user))
    && !setup.supabase.NoServiceKey?
  }

  /** The calls an attempt needs all work: a cancellation for each of the user's tasks, a removal for each object in
      the user's folder, and one each for the rest. */
  ghost predicate Served(setup: Setup, user: Id, s: Estate, env: Mishaps) {
    && (setup.queue ==>
          && env.listTasks.Fine?
          && forall name | name in s.tasks && OwnsTask(s.tables, user, s.tasks[name]) :: env.cancel(name).Fine?)
    && (setup.bucket ==>
          && env.listBlobs.Fine?
          && forall name | name in s.names && IsUnder(name, user) :: env.remove(name).Fine?)
    && (setup.supabase.Ready? ==> env.auth.Fine?)
    && env.commit.Fine?
  }

  lemma OwnIds(t: Tables, user: Id)
    ensures forall body :: Concerns(body, EventsOf(t, user), RecordingsOf(t, user)) <==> OwnsTask(t, user, body)
    ensures (forall key | key in KeysOf(t, user) :: IsAudioOf(key, user)) <==> KeysAreOwn(t, user)
    ensures RowsGone(t, DropUser(t, user), user)
  {
    forall r | OwnsRecording(t, user, r) ensures t.recordings[r].storageKey in KeysOf(t, user) {
      assert r in RecordingsOf(t, user);
    }
  }

  /** It succeeds exactly when the account is gone already, or is `Deletable` and every service does its part; and then
      nothing is left. */
  method DeleteAccount(accounts: Accounts, queue: TaskList, bucket: Bucket, setup: Setup, user: Id, env: Mishaps)
    returns (ok: bool)
    modifies accounts, queue, bucket
    ensures Attempt(setup, user, old(Held(accounts, queue, bucket)), Held(accounts, queue, bucket))
    ensures ok && user in old(accounts.tables).users ==>
              Erased(setup, user, old(Held(accounts, queue, bucket)), Held(accounts, queue, bucket))
    ensures ok <==> user in old(accounts.tables).users ==>
              && Deletable(setup, user, old(Held(accounts, queue, bucket)))
              && Served(setup, user, old(Held(accounts, queue, bucket)), env)
  {
    if user !in accounts.tables.users {
      return true;
    }
    OwnIds(accounts.tables, user);
    var eventIds, recordingIds := EventsOf(accounts.tables, user), RecordingsOf(accounts.tables, user);
    var storageKeys := KeysOf(accounts.tables, user);
    ok := CancelAccountTasks(queue, setup.queue, eventIds, recordingIds, env);
    if !ok {
      return;
    }
    ok := DeleteUserAudio(bucket, setup.bucket, user, storageKeys, env);
    if !ok {
      return;
    }
    ok := accounts.DeleteAuthUser(user, setup.supabase, env.auth);
    if !ok {
      return;
    }
    ok := accounts.DeleteUser(user, env.commit);
  }

  // --- any number of attempts ------------------------------------------------------------------

  /** One attempt of a run: whose, and what it left. */
  datatype Try = Try(user: Id, left: Estate)

  ghost predicate Attempts(setup: Setup, s: Estate, tries: seq<Try>)
    decreases |tries|
  {
    tries == [] ||
    var n := |tries| - 1;
    Attempts(setup, s, tries[..n]) && Attempt(setup, tries[n].user, Final(s, tries[..n]), tries[n].left)
  }

  function Final(s: Estate, tries: seq<Try>): Estate {
    if tries == [] then s else tries[|tries| - 1].left
  }

  /** Both tables hold the same rows of the user. */
  ghost predicate SameRows(t: Tables, t': Tables, user: Id) {
    && (user in t.users <==> user in t'.users)
    && (forall r :: OwnsRecording(t, user, r) <==> OwnsRecording(t', user, r))
    && (forall r | OwnsRecording(t, user, r) :: t'.recordings[r] == t.recordings[r])
    && (forall e :: OwnsEvent(t, user, e) <==> OwnsEvent(t', user, e))
    && (forall e | OwnsEvent(t, user, e) :: t'.events[e] == t.events[e])
  }

  lemma DropsOnlyOwn(t: Tables, t': Tables, user: Id, other: Id)
    requires RowsGone(t, t', user) && other != user
    ensures SameRows(t, t', other)
  {
  }

  /** What attempts leave of a user: all of the rows or nothing, no identity without its tasks and audio gone first,
      no missing row with its identity still there. */
  ghost predicate InOrder(setup: Setup, user: Id, s: Estate, s': Estate) {
    && (forall name | name in s'.tasks :: name in s.tasks && s'.tasks[name] == s.tasks[name])
    && s'.names <= s.names && s'.identities <= s.identities
    && (user in s.tables.users && user !in s'.tables.users ==>
          && (setup.queue ==> NoTasks(s', s.tables, user)) && (setup.bucket ==> NoAudio(s', user))
          && (setup.supabase.Ready? ==> user !in s'.identities))
    && (user in s'.tables.users || user !in s.tables.users ==> SameRows(s.tables, s'.tables, user))
    && (user in s.identities && user !in s'.identities ==>
          && (setup.queue ==> NoTasks(s', s.tables, user)) && (setup.bucket ==> NoAudio(s', user)))
    && (forall name | name in s.names - s'.names && IsAudioOf(name, user) :: setup.queue ==> NoTasks(s', s.tables, user))
  }

  /** No audio object has two owners. */
  lemma OneOwner(name: string, user: Id, other: Id)
    requires IsAudioOf(name, user) && IsAudioOf(name, other)
    ensures user == other
  {
    Layout(user, "", name);
    Layout(other, "", name);
  }

  lemma AttemptInOrder(setup: Setup, actor: Id, user: Id, s: Estate, mid: Estate, s': Estate)
    requires InOrder(setup, user, s, mid) && Attempt(setup, actor, mid, s')
    ensures InOrder(setup, user, s, s')
  {
    forall name | name in s.names - s'.names && IsAudioOf(name, user) && setup.queue ensures NoTasks(s', s.tables, user) {
      if name in mid.names {
        OneOwner(name, user, actor);
      } else {
        assert name in s.names - mid.names;
      }
    }
  }

  /** For every user, after any attempts by anyone, failing or dying anywhere: the identity is gone only if the tasks and
      the audio are, and the row only if the identity is too. */
  lemma {:induction false} AttemptsInOrder(setup: Setup, user: Id, s: Estate, tries: seq<Try>)
    requires Attempts(setup, s, tries)
    ensures InOrder(setup, user, s, Final(s, tries))
    decreases |tries|
  {
    if tries != [] {
      var n := |tries| - 1;
      AttemptsInOrder(setup, user, s, tries[..n]);
      AttemptInOrder(setup, tries[n].user, user, s, Final(s, tries[..n]), tries[n].left);
    }
  }

  /** A body that names one thing. */
  predicate NamesOne(body: Body) {
    body.eventId.None? || body.recordId.None?
  }

  /** Everything of the user is as it was. */
  ghost predicate Untouched(user: Id, s: Estate, s': Estate) {
    && SameRows(s.tables, s'.tables, user) && (user in s.identities <==> user in s'.identities)
    && (forall name | name in s.tasks && OwnsTask(s.tables, user, s.tasks[name]) && NamesOne(s.tasks[name]) ::
          name in s'.tasks && s'.tasks[name] == s.tasks[name])
    && (forall name | name in s.names && IsAudioOf(name, user) :: name in s'.names)
  }

  /** Nobody's attempt touches anything of anybody else. */
  lemma {:induction false} OthersUntouched(setup: Setup, user: Id, s: Estate, tries: seq<Try>)
    requires Attempts(setup, s, tries) && forall k | 0 <= k < |tries| :: tries[k].user != user
    ensures Untouched(user, s, Final(s, tries))
    decreases |tries|
  {
    if tries != [] {
      var n := |tries| - 1;
      OthersUntouched(setup, user, s, tries[..n]);
      var before, after := Final(s, tries[..n]), tries[n].left;
      if after.tables != before.tables {
        DropsOnlyOwn(before.tables, after.tables, tries[n].user, user);
      }
      forall name | name in before.names && IsAudioOf(name, user) ensures name in after.names {
        if name !in after.names {
          OneOwner(name, user, tries[n].user);
        }
      }
    }
  }

  /** In every database the code can reach, the stored keys stand in the way of nobody whose id is not empty and has no
      slash in it, so that of the user's id only what `_audio_prefix` refuses does. */
  lemma KeysConfirm(changes: seq<Change>, user: Id)
    requires History(NO_ROWS, changes)
    ensures var t := After(NO_ROWS, changes);
            && (KeysAreOwn(t, user) <==> (exists r :: OwnsRecording(t, user, r)) ==> user != "" && '/' !in user)
            && (IsOwnerId(user) ==> KeysAreOwn(t, user))
  {
    var t := After(NO_ROWS, changes);
    HistoryIsSound(NO_ROWS, changes);
    forall r | OwnsRecording(t, user, r) && user != "" && '/' !in user
      ensures IsAudioOf(t.recordings[r].storageKey, user)
    {
      Printed(user, r);
      assert IsAudio(t.recordings[r].storageKey, user, r);
    }
  }

  /** A stray object in the folder belongs to no user at all. */
  lemma StraysAreNobodys(user: Id, other: Id, name: string)
    requires IsOwnerId(user) && IsUnder(name, user) && !IsAudioOf(name, user)
    ensures !IsAudioOf(name, other)
  {
    PlainTerms(user);
    PlainTerms(other);
    if OwnedBy(name, other) {
      UnderPrefix(user, name);
    }
  }

  /** A name under the prefix without the suffix. */
  lemma WrongSuffix(user: Id, name: string)
    requires Plain(user) && Plain(name) && !EndsWith(name, SUFFIX)
    ensures UserIdFromAudioKey(AudioPrefix(user) + name) == None
  {
    SplitKey(user, name);
    assert AudioPrefix(user) + name == PREFIX + "/" + user + "/" + name;
  }

  /** A name under the prefix in a folder of its own. */
  lemma TooDeep(user: Id, folder: string, name: string)
    requires Plain(user) && Plain(folder)
    ensures UserIdFromAudioKey(AudioPrefix(user) + (folder + "/" + name)) == None
  {
    var rest := folder + "/" + name;
    SplitPlain(folder, name);
    SplitPlain(user, rest);
    SplitPlain(PREFIX, user + "/" + rest);
    assert AudioPrefix(user) + rest == PREFIX + "/" + (user + "/" + rest);
  }

  /** For instance `x.txt` or `a/b.m4a` in the folder: neither is anybody's audio, so the account is not deletable
      while it is there. */
  lemma StraysExist(setup: Setup, user: Id, s: Estate, name: string)
    requires IsOwnerId(user) && setup.bucket && "v0/" + user + "/" + name in s.names
    requires name == "x.txt" || name == "a/b.m4a"
    ensures !Deletable(setup, user, s)
  {
    PlainTerms(user);
    Layout(user, "", "");
    if name == "x.txt" {
      assert name[|name| - |SUFFIX|..] == ".txt";
      WrongSuffix(user, name);
    } else {
      assert "a" + "/" + "b.m4a" == name;
      TooDeep(user, "a", "b.m4a");
    }
    assert AudioPrefix(user) <= AudioPrefix(user) + name;
  }

  lemma AttemptKeepsDeletable(setup: Setup, actor: Id, user: Id, s: Estate, s': Estate)
    requires Attempt(setup, actor, s, s') && SameRows(s.tables, s'.tables, user)
    ensures Deletable(setup, user, s) <==> Deletable(setup, user, s')
  {
    if IsOwnerId(user) {
      forall name | name in s.names && IsUnder(name, user) && !IsAudioOf(name, user) ensures name in s'.names {
        StraysAreNobodys(user, actor, name);
      }
    }
  }

  /** No attempt, however it went, makes an account deletable or stops it from being so: as long as its row is there, a
      well served retry completes exactly if a well served first attempt would have; once the row is gone, everything
      is. */
  lemma {:induction false} RetryCompletes(setup: Setup, user: Id, s: Estate, tries: seq<Try>)
    requires Attempts(setup, s, tries) && user in s.tables.users
    ensures var s' := Final(s, tries);
            if user in s'.tables.users then Deletable(setup, user, s) <==> Deletable(setup, user, s')
            else && (setup.queue ==> NoTasks(s', s.tables, user)) && (setup.bucket ==> NoAudio(s', user))
                 && (setup.supabase.Ready? ==> user !in s'.identities)
    decreases |tries|
  {
    AttemptsInOrder(setup, user, s, tries);
    if tries != [] && user in Final(s, tries).tables.users {
      var n := |tries| - 1;
      AttemptsInOrder(setup, user, s, tries[..n]);
      RetryCompletes(setup, user, s, tries[..n]);
      AttemptKeepsDeletable(setup, tries[n].user, user, Final(s, tries[..n]), tries[n].left);
    }
  }
}
