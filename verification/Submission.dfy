/** One submission attempt, from task to outcome. */
module Submission {
  import opened Wrappers
  import opened Core
  import opened Protocol
  import opened Paths
  import opened Transcriber
  import opened Session

  /** The result of one attempt. No path of the code answers `done`. */
  datatype Outcome = Noop | Submitted | GivenUp | Retry(after: Option<nat>)

  /** What reading the audio from the bucket does. */
  datatype Fetch = Serving | NotConfigured | Broken

  /** How the outside behaves during one attempt. */
  datatype Weather = Weather(fetch: Fetch, first: Wire, drop: Wire, second: Wire)

  predicate HonestConflicts(env: Weather) {
    env.first != Turned(Conflict) && env.second != Turned(Conflict)
  }

  // --- handing the audio over ----------------------------------------------------------------

  /** The box's table and next serial, and how the call that left them so ended. */
  datatype Handed = Handed(jobs: map<Id, Job>, serial: nat, reply: Reply<()>)

  function Post(jobs: map<Id, Job>, serial: nat, id: Id, audio: Bytes, wire: Wire): Handed {
    var reply := if !wire.Answered? then Raised(ErrorOf(wire))
                 else if Conflicts(jobs, id, audio) then Raised(Status(Conflict)) else Ok(());
    if wire.TakesEffect() && id !in jobs then Handed(jobs[id := Job(serial, audio, Queued)], serial + 1, reply)
    else Handed(jobs, serial, reply)
  }

  /** Submit; on a conflict discard and submit once more; anything else that goes wrong ends it. */
  function HandOver(jobs: map<Id, Job>, serial: nat, id: Id, audio: Bytes, env: Weather): Handed {
    var first := Post(jobs, serial, id, audio, env.first);
    if first.reply != Raised(Status(Conflict)) then first else
    var left := if env.drop.TakesEffect() then jobs - {id} else jobs;
    if !env.drop.Answered? then Handed(left, serial, Raised(ErrorOf(env.drop)))
    else Post(left, serial, id, audio, env.second)
  }

  /** An accepted hand-over leaves the box with this id and these bytes; none touches another job. */
  lemma HandedOverRight(jobs: map<Id, Job>, serial: nat, id: Id, audio: Bytes, env: Weather)
    ensures var h := HandOver(jobs, serial, id, audio, env);
            && (h.reply.Ok? ==> id in h.jobs && h.jobs[id].audio == audio)
            && h.jobs - {id} == jobs - {id}
  {
  }

  method SubmitWithConflictRecovery(box: Box, id: Id, audio: Bytes, env: Weather) returns (reply: Reply<()>)
    requires HonestConflicts(env)
    modifies box
    ensures Handed(box.jobs, box.serial, reply) == HandOver(old(box.jobs), old(box.serial), id, audio, env)
    ensures box.submits <= old(box.submits) + 2 && box.discards <= old(box.discards) + 1
  {
    reply := box.Submit(id, audio, env.first);
    if reply != Raised(Status(Conflict)) {
      return;
    }
    reply := box.Discard(id, env.drop);
    if reply.Raised? {
      return;
    }
    reply := box.Submit(id, audio, env.second);
  }

  // --- the legs of an attempt as runs of the protocol ------------------------------------------

  function Handler(error: BoxError): Pc {
    if error.Status? && Hard(error.why) then Failing(ErrorName(error.why)) else Reverting
  }

  lemma SubmitLeg(w: World, p: Pid, id: Id, pc: Pc, wire: Wire)
    requires p in w.procs && w.procs[p] == Worker(id, pc) && (pc.Holding? || pc.Cleared?) && wire != Turned(Conflict)
    ensures var h := Post(w.box, w.serial, id, pc.audio, wire);
            Leads(w, w.(box := h.jobs, serial := h.serial,
                        procs := if h.reply.Ok? then w.procs - {p}
                                 else if h.reply == Raised(Status(Conflict)) && pc.Holding?
                                 then w.procs[p := Worker(id, Conflicted(pc.audio))]
                                 else w.procs[p := Worker(id, Handler(h.reply.error))]), p, AsWorker(id))
  {
    LeadsNowhere(w, p, AsWorker(id));
    LeadsOn(w, w, Work(p, Submit(wire)), p, AsWorker(id));
  }

  lemma DiscardLeg(w: World, p: Pid, id: Id, audio: Bytes, wire: Wire)
    requires p in w.procs && w.procs[p] == Worker(id, Conflicted(audio))
    ensures Leads(w, w.(box := if wire.TakesEffect() then w.box - {id} else w.box,
                        procs := w.procs[p := Worker(id, if wire.Answered? then Cleared(audio)
                                                         else Handler(ErrorOf(wire)))]), p, AsWorker(id))
  {
    LeadsNowhere(w, p, AsWorker(id));
    LeadsOn(w, w, Work(p, Discard(wire)), p, AsWorker(id));
  }

  function AfterHandOver(w: World, p: Pid, id: Id, h: Handed): World {
    w.(box := h.jobs, serial := h.serial,
       procs := if h.reply.Ok? then w.procs - {p} else w.procs[p := Worker(id, Handler(h.reply.error))])
  }

  lemma HandOverLeg(w: World, p: Pid, id: Id, audio: Bytes, env: Weather)
    requires p in w.procs && w.procs[p] == Worker(id, Holding(audio)) && HonestConflicts(env)
    ensures Leads(w, AfterHandOver(w, p, id, HandOver(w.box, w.serial, id, audio, env)), p, AsWorker(id))
  {
    SubmitLeg(w, p, id, Holding(audio), env.first);
    var first := Post(w.box, w.serial, id, audio, env.first);
    if first.reply == Raised(Status(Conflict)) {
      var w1 := SetProc(w, p, Worker(id, Conflicted(audio)));
      DiscardLeg(w1, p, id, audio, env.drop);
      var w2 := w1.(box := if env.drop.TakesEffect() then w.box - {id} else w.box,
                    procs := w.procs[p := Worker(id, if env.drop.Answered? then Cleared(audio)
                                                     else Handler(ErrorOf(env.drop)))]);
      LeadsThen(w, w1, w2, p, AsWorker(id));
      if env.drop.Answered? {
        SubmitLeg(w2, p, id, Cleared(audio), env.second);
        var w3 := AfterHandOver(w, p, id, HandOver(w.box, w.serial, id, audio, env));
        LeadsThen(w, w2, w3, p, AsWorker(id));
      }
    }
  }

  /** The claim: a task is delivered and its worker stamps the row at time `t`. */
  function Claimed(w: World, p: Pid, id: Id, t: int): World
    requires Claimable(w.db, id)
  {
    w.(now := t, db := ClaimRow(w.db, id, t), log := w.log + [ClaimWon(id)],
       procs := w.procs[p := Worker(id, Owned(w.db.recs[id]))])
  }

  /** A task for the recording is created, delivered and retired. */
  lemma DeliverLeg(w: World, p: Pid, id: Id)
    requires p !in w.procs && id in w.db.recs && w.db.recs[id].state != Done
    ensures Leads(w, SetProc(w, p, Worker(id, Found(w.db.recs[id]))), p, AsWorker(id))
  {
    LeadsNowhere(w, p, AsWorker(id));
    LeadsOn(w, w, Outside(Enqueue(id)), p, AsWorker(id));
    var w1 := WithTask(w, id, true);
    LeadsOn(w, w1, Work(p, Deliver(id)), p, AsWorker(id));
    var w2 := SetProc(w1, p, Worker(id, Found(w.db.recs[id])));
    LeadsOn(w, w2, Outside(Retire(id)), p, AsWorker(id));
    assert w1.queue - multiset{id} == w.queue;
  }

  lemma ClaimLeg(w: World, p: Pid, id: Id, t: int)
    requires p !in w.procs && Claimable(w.db, id) && w.now <= t
    ensures Leads(w, Claimed(w, p, id, t), p, AsWorker(id))
  {
    DeliverLeg(w, p, id);
    var w1 := SetProc(w, p, Worker(id, Found(w.db.recs[id])));
    LeadsOn(w, w1, Outside(Tick(t)), p, AsWorker(id));
    LeadsOn(w, w1.(now := t), Work(p, Claim), p, AsWorker(id));
  }

  lemma ClaimLostLeg(w: World, p: Pid, id: Id, t: int)
    requires p !in w.procs && id in w.db.recs && w.db.recs[id].state == Transcribing && w.now <= t
    ensures Leads(w, w.(now := t, log := w.log + [ClaimLost(id)]), p, AsWorker(id))
  {
    DeliverLeg(w, p, id);
    var w1 := SetProc(w, p, Worker(id, Found(w.db.recs[id])));
    LeadsOn(w, w1, Outside(Tick(t)), p, AsWorker(id));
    LeadsOn(w, w1.(now := t), Work(p, Claim), p, AsWorker(id));
    assert w1.procs - {p} == w.procs;
  }

  /** What the worker establishes between its claim and the upload. */
  function Prepared(w: World, id: Id, rec: Recording, fetch: Fetch): Pc {
    var looked := AfterLookUp(w, id, rec);
    if looked.Linked? then AfterDownload(w, rec.storageKey, fetch.Serving?) else looked
  }

  lemma PrepareLeg(w: World, p: Pid, id: Id, rec: Recording, fetch: Fetch)
    requires p in w.procs && w.procs[p] == Worker(id, Owned(rec))
    ensures Leads(w, SetProc(w, p, Worker(id, Prepared(w, id, rec, fetch))), p, AsWorker(id))
  {
    LeadsNowhere(w, p, AsWorker(id));
    LeadsOn(w, w, Work(p, LookUp), p, AsWorker(id));
    var w1 := SetProc(w, p, Worker(id, AfterLookUp(w, id, rec)));
    if w1.procs[p].pc.Linked? {
      LeadsOn(w, w1, Work(p, Download(fetch.Serving?)), p, AsWorker(id));
      assert w1.procs[p := Worker(id, Prepared(w, id, rec, fetch))] == w.procs[p := Worker(id, Prepared(w, id, rec, fetch))];
    }
  }

  /** The write that ends an attempt that was not accepted, at time `t`. */
  function Ended(db: Db, id: Id, pc: Pc, t: int): Db
    requires pc.Failing? || pc.Reverting?
  {
    if pc.Failing? then MarkFailed(db, id, pc.reason, t) else RevertPending(db, id, t)
  }

  lemma EndLeg(w: World, p: Pid, id: Id, pc: Pc, t: int)
    requires p in w.procs && w.procs[p] == Worker(id, pc) && (pc.Failing? || pc.Reverting?) && w.now <= t
    ensures Leads(w, w.(now := t, db := Ended(w.db, id, pc, t), log := w.log + BackEntry(w.db, id),
                        procs := w.procs - {p}), p, AsWorker(id))
  {
    LeadsNowhere(w, p, AsWorker(id));
    LeadsOn(w, w, Outside(Tick(t)), p, AsWorker(id));
    LeadsOn(w, w.(now := t), Work(p, if pc.Failing? then Fail else Revert), p, AsWorker(id));
  }

  // --- the attempt ---------------------------------------------------------------------------

  /** The outcome of the handler that catches `error`. */
  function OutcomeOf(error: BoxError): Outcome {
    if error.Status? && Hard(error.why) then GivenUp
    else Retry(if error.Status? && error.why.Busy? then error.why.retryAfter else None)
  }

  /** The outcomes whose handlers write the row. */
  predicate GaveBack(outcome: Option<Outcome>) {
    outcome.Some? && (outcome.value.GivenUp? || outcome.value.Retry?)
  }

  /** Where the worker stands once it has the audio, or knows that it will not have it. */
  function Readied(db: Db, objects: map<string, Bytes>, cfg: Settings, id: Id, rec: Recording, fetch: Fetch): (pc: Pc)
    ensures pc.Holding? || pc.Failing? || pc.Reverting?
  {
    if id !in db.events then Failing(NO_EVENT)
    else if rec.durationSec.Some? && rec.durationSec.value > cfg.maxDurationS then Failing(TOO_LONG)
    else if !fetch.Serving? then Reverting
    else if rec.storageKey !in objects then Failing(NO_AUDIO)
    else if |objects[rec.storageKey]| > cfg.maxUploadBytes then Failing(TOO_LARGE)
    else Holding(objects[rec.storageKey])
  }

  /** Nothing stops a broken bucket from being read. */
  predicate Escapes(db: Db, cfg: Settings, id: Id, rec: Recording, fetch: Fetch) {
    fetch.Broken? && id in db.events && !(rec.durationSec.Some? && rec.durationSec.value > cfg.maxDurationS)
  }

  /** The tables and the box after an attempt, and its outcome; `None` is an exception that escapes. */
  datatype Ending = Ending(db: Db, jobs: map<Id, Job>, serial: nat, outcome: Option<Outcome>)

  /** What an attempt that owns its row and had read it as `rec` comes to, its closing write being stamped `t`. */
  function Tried(db: Db, jobs: map<Id, Job>, serial: nat, objects: map<string, Bytes>, cfg: Settings,
                 id: Id, rec: Recording, env: Weather, t: int): Ending {
    var pc := Readied(db, objects, cfg, id, rec, env.fetch);
    if Escapes(db, cfg, id, rec, env.fetch) then Ending(db, jobs, serial, None)
    else if !pc.Holding? then
      Ending(Ended(db, id, pc, t), jobs, serial, Some(if pc.Failing? then GivenUp else Retry(None)))
    else
      var h := HandOver(jobs, serial, id, pc.audio, env);
      if h.reply.Ok? then Ending(db, h.jobs, h.serial, Some(Submitted))
      else Ending(Ended(db, id, Handler(h.reply.error), t), h.jobs, h.serial, Some(OutcomeOf(h.reply.error)))
  }

  /** The recording still has its event, and the pre-flight checks would let its audio through. */
  predicate Acceptable(db: Db, objects: map<string, Bytes>, cfg: Settings, id: Id) {
    && id in db.recs && id in db.events
    && (db.recs[id].durationSec.Some? ==> db.recs[id].durationSec.value <= cfg.maxDurationS)
    && db.recs[id].storageKey in objects && |objects[db.recs[id].storageKey]| <= cfg.maxUploadBytes
  }

  /** The row and the box say what the outcome says. */
  predicate Agrees(db: Db, jobs: map<Id, Job>, objects: map<string, Bytes>, id: Id, outcome: Option<Outcome>)
    requires id in db.recs
  {
    match outcome
    case None => db.recs[id].state == Transcribing
    case Some(Submitted) =>
      db.recs[id].state == Transcribing && db.recs[id].storageKey in objects &&
      id in jobs && jobs[id].audio == objects[db.recs[id].storageKey]
    case Some(GivenUp) =>
      db.recs[id].state == Failed && db.recs[id].error.Some? && |db.recs[id].error.value| <= MAX_TEXT
    case Some(Retry(_)) => db.recs[id].state == Pending
    case Some(Noop) => true
  }

  /** Audio goes out only of an acceptable recording; if the bucket serves, any other is given up on and the box is not
      asked for anything. */
  predicate OnlyAcceptable(db: Db, jobs: map<Id, Job>, objects: map<string, Bytes>, cfg: Settings, id: Id, env: Weather,
                           e: Ending)
  {
    && (e.outcome == Some(Submitted) || e.jobs != jobs ==> Acceptable(db, objects, cfg, id))
    && (env.fetch.Serving? && !Acceptable(db, objects, cfg, id) ==> e.outcome == Some(GivenUp))
    && (e.outcome.None? ==> env.fetch.Broken?)
  }

  /** The closing write of an attempt touches one row, and leaves it as the way to it says. */
  lemma EndedRight(db: Db, id: Id, pc: Pc, t: int)
    requires id in db.recs && (pc.Failing? || pc.Reverting?)
    ensures var db' := Ended(db, id, pc, t);
            && db'.events == db.events && db'.recs - {id} == db.recs - {id} && id in db'.recs
            && db'.recs[id].storageKey == db.recs[id].storageKey
            && (pc.Failing? ==>
                  db'.recs[id].state == Failed && db'.recs[id].error.Some? && |db'.recs[id].error.value| <= MAX_TEXT)
            && (pc.Reverting? ==> db'.recs[id].state == Pending)
  {
  }

  /** For an attempt that owns its row and ends at `t`: outcome, row and box agree, and nothing else is touched. */
  lemma OwnedAgrees(db: Db, jobs: map<Id, Job>, serial: nat, objects: map<string, Bytes>, cfg: Settings,
                    id: Id, env: Weather, t: int)
    requires id in db.recs && db.recs[id].state == Transcribing
    ensures var e := Tried(db, jobs, serial, objects, cfg, id, db.recs[id], env, t);
            && e.outcome != Some(Noop) && id in e.db.recs && Agrees(e.db, e.jobs, objects, id, e.outcome)
            && e.db.events == db.events && e.db.recs - {id} == db.recs - {id} && e.jobs - {id} == jobs - {id}
            && OnlyAcceptable(db, jobs, objects, cfg, id, env, e)
  {
    var pc := Readied(db, objects, cfg, id, db.recs[id], env.fetch);
    if pc.Holding? {
      HandedOverRight(jobs, serial, id, pc.audio, env);
      var h := HandOver(jobs, serial, id, pc.audio, env);
      if h.reply.Raised? {
        EndedRight(db, id, Handler(h.reply.error), t);
      }
    } else {
      EndedRight(db, id, pc, t);
    }
  }

  /** What the attempt does depends on the row as it was read, not on the claim. */
  lemma ClaimAside(db: Db, jobs: map<Id, Job>, serial: nat, objects: map<string, Bytes>, cfg: Settings,
                   id: Id, env: Weather, t0: int, t: int)
    requires Claimable(db, id)
    ensures var claimed := ClaimRow(db, id, t0);
            && Tried(claimed, jobs, serial, objects, cfg, id, claimed.recs[id], env, t)
               == Tried(claimed, jobs, serial, objects, cfg, id, db.recs[id], env, t)
            && (Acceptable(claimed, objects, cfg, id) <==> Acceptable(db, objects, cfg, id))
            && claimed.recs - {id} == db.recs - {id} && claimed.events == db.events
            && id in claimed.recs && claimed.recs[id].state == Transcribing
  {
  }

  /** The same for an attempt that claims its row at `t0`. */
  lemma OutcomeAgrees(db: Db, jobs: map<Id, Job>, serial: nat, objects: map<string, Bytes>, cfg: Settings,
                      id: Id, env: Weather, t0: int, t: int)
    requires Claimable(db, id)
    ensures var e := Tried(ClaimRow(db, id, t0), jobs, serial, objects, cfg, id, db.recs[id], env, t);
            && e.outcome != Some(Noop) && id in e.db.recs && Agrees(e.db, e.jobs, objects, id, e.outcome)
            && e.db.events == db.events && e.db.recs - {id} == db.recs - {id} && e.jobs - {id} == jobs - {id}
            && OnlyAcceptable(db, jobs, objects, cfg, id, env, e)
  {
    ClaimAside(db, jobs, serial, objects, cfg, id, env, t0, t);
    OwnedAgrees(ClaimRow(db, id, t0), jobs, serial, objects, cfg, id, env, t);
  }

  // --- outcome by outcome --------------------------------------------------------------------------

  /** What the call to the box that ends an attempt makes of it: the outcome, and the error on the row if it failed. */
  predicate Ends(wire: Wire, outcome: Option<Outcome>, error: Option<string>) {
    match wire
    case Answered => outcome == Some(Submitted)
    case Turned(Busy(after)) => outcome == Some(Retry(after))
    case Turned(Rejected) => outcome == Some(GivenUp) && error == Some("AudioRejectedError")
    case Turned(TooLarge) => outcome == Some(GivenUp) && error == Some("AudioTooLargeError")
    case Turned(Conflict) => outcome == Some(GivenUp) && error == Some("JobConflictError")
    case _ => outcome == Some(Retry(None))
  }

  /** The call that ends the hand-over: the first submit, or on a conflict the discard if it fails, or else the second. */
  predicate IsLast(jobs: map<Id, Job>, id: Id, audio: Bytes, env: Weather, wire: Wire) {
    if !(env.first.Answered? && id in jobs && jobs[id].audio != audio) then wire == env.first
    else if env.drop.Answered? then wire == env.second else wire == env.drop
  }

  /** The outcome of an attempt that claimed its row, and the row, by what it met on its way: `db` and `jobs` are as before
      the attempt, `db'` is as after it. */
  ghost predicate Spelled(db: Db, jobs: map<Id, Job>, db': Db, objects: map<string, Bytes>, cfg: Settings, id: Id,
                          env: Weather, outcome: Option<Outcome>)
    requires id in db.recs && id in db'.recs
  {
    var rec, rec' := db.recs[id], db'.recs[id];
    && rec' == Recording(rec.owner, rec.storageKey, rec.durationSec, rec'.state, rec'.error, rec'.updatedAt)
    && (outcome != Some(GivenUp) ==> rec'.error == rec.error)
    && if id !in db.events then outcome == Some(GivenUp) && rec'.error == Some("No event linked to recording")
       else if rec.durationSec.Some? && rec.durationSec.value > cfg.maxDurationS then
         outcome == Some(GivenUp) && rec'.error == Some("Recording is longer than the transcriber allows")
       else if env.fetch.Broken? then outcome == None
       else if env.fetch.NotConfigured? then outcome == Some(Retry(None))
       else if rec.storageKey !in objects then outcome == Some(GivenUp) && rec'.error == Some("Audio object not found")
       else if |objects[rec.storageKey]| > cfg.maxUploadBytes then
         outcome == Some(GivenUp) && rec'.error == Some("Audio is larger than the transcriber allows")
       else exists wire :: IsLast(jobs, id, objects[rec.storageKey], env, wire) && Ends(wire, outcome, rec'.error)
  }

  lemma LastCall(jobs: map<Id, Job>, serial: nat, id: Id, audio: Bytes, env: Weather) returns (wire: Wire)
    requires HonestConflicts(env)
    ensures IsLast(jobs, id, audio, env, wire)
    ensures HandOver(jobs, serial, id, audio, env).reply == if wire.Answered? then Ok(()) else Raised(ErrorOf(wire))
  {
    wire := if !(env.first.Answered? && id in jobs && jobs[id].audio != audio) then env.first
            else if env.drop.Answered? then env.second else env.drop;
  }

  lemma CallIsSpelled(db: Db, id: Id, wire: Wire, t: int)
    requires id in db.recs && !wire.Answered?
    ensures var db' := Ended(db, id, Handler(ErrorOf(wire)), t);
            && id in db'.recs && Ends(wire, Some(OutcomeOf(ErrorOf(wire))), db'.recs[id].error)
            && (OutcomeOf(ErrorOf(wire)) != GivenUp ==> db'.recs[id].error == db.recs[id].error)
  {
  }

  lemma OutcomeIsSpelled(db: Db, jobs: map<Id, Job>, serial: nat, objects: map<string, Bytes>, cfg: Settings,
                         id: Id, env: Weather, t0: int, t: int)
    requires Claimable(db, id) && HonestConflicts(env)
    ensures var e := Tried(ClaimRow(db, id, t0), jobs, serial, objects, cfg, id, db.recs[id], env, t);
            id in e.db.recs && Spelled(db, jobs, e.db, objects, cfg, id, env, e.outcome)
  {
    var rec := db.recs[id];
    if Readied(db, objects, cfg, id, rec, env.fetch).Holding? {
      var wire := LastCall(jobs, serial, id, objects[rec.storageKey], env);
      if !wire.Answered? {
        CallIsSpelled(ClaimRow(db, id, t0), id, wire, t);
      }
    }
  }

  // --- the code --------------------------------------------------------------------------------

  /** How the exception handlers of an attempt end it. */
  method End(session: Session, id: Id, pc: Pc)
    requires pc.Failing? || pc.Reverting?
    modifies session
    ensures old(session.now) <= session.now && session.db == Ended(old(session.db), id, pc, session.now)
  {
    if pc.Failing? {
      session.MarkFailed(id, pc.reason);
    } else {
      session.RevertPending(id);
    }
  }

  /** Submit the audio and end the attempt as the box's reply demands. */
  method Upload(session: Session, box: Box, id: Id, audio: Bytes, env: Weather) returns (reply: Reply<()>)
    requires HonestConflicts(env)
    modifies session, box
    ensures Handed(box.jobs, box.serial, reply) == HandOver(old(box.jobs), old(box.serial), id, audio, env)
    ensures old(session.now) <= session.now
    ensures session.db == if reply.Ok? then old(session.db)
                          else Ended(old(session.db), id, Handler(reply.error), session.now)
    ensures box.submits <= old(box.submits) + 2 && box.discards <= old(box.discards) + 1
  {
    reply := SubmitWithConflictRecovery(box, id, audio, env);
    if reply.Raised? {
      End(session, id, Handler(reply.error));
    }
  }

  /** The event lookup, the two pre-flight checks and the download: audio in hand, or the handler to go to. */
  method Prepare(db: Db, objects: map<string, Bytes>, cfg: Settings, id: Id, recording: Recording, fetch: Fetch)
    returns (ready: Option<Pc>)
    ensures ready == if Escapes(db, cfg, id, recording, fetch) then None
                     else Some(Readied(db, objects, cfg, id, recording, fetch))
  {
    if id !in db.events {
      return Some(Failing(NO_EVENT));
    }
    if recording.durationSec.Some? && recording.durationSec.value > cfg.maxDurationS {
      return Some(Failing(TOO_LONG));
    }
    if fetch.Broken? {
      return None;
    }
    if fetch.NotConfigured? {
      return Some(Reverting);
    }
    if recording.storageKey !in objects {
      return Some(Failing(NO_AUDIO));
    }
    var audio := objects[recording.storageKey];
    ready := Some(if |audio| > cfg.maxUploadBytes then Failing(TOO_LARGE) else Holding(audio));
  }

  /** The attempt of the worker that owns the row. */
  method Attempt(session: Session, box: Box, objects: map<string, Bytes>, cfg: Settings, id: Id, recording: Recording,
                 env: Weather)
    returns (outcome: Option<Outcome>)
    requires HonestConflicts(env)
    modifies session, box
    ensures old(session.now) <= session.now
    ensures Ending(session.db, box.jobs, box.serial, outcome)
            == Tried(old(session.db), old(box.jobs), old(box.serial), objects, cfg, id, recording, env, session.now)
    ensures box.submits <= old(box.submits) + 2 && box.discards <= old(box.discards) + 1
  {
    var ready := Prepare(session.db, objects, cfg, id, recording, env.fetch);
    if ready.None? {
      return None;
    }
    if ready.value.Holding? {
      var reply := Upload(session, box, id, ready.value.audio, env);
      outcome := Some(if reply.Ok? then Submitted else OutcomeOf(reply.error));
    } else {
      End(session, id, ready.value);
      outcome := Some(if ready.value.Failing? then GivenUp else Retry(None));
    }
  }

  /** Claim a recording and hand its audio to the box. The out-parameter is empty when reading the audio raised
      something unexpected, which escapes with the row still claimed. `t0` is the stamp of the claim. */
  method RunTranscription(session: Session, box: Box, objects: map<string, Bytes>, cfg: Settings, id: Id, env: Weather)
    returns (outcome: Option<Outcome>, ghost t0: int)
    requires HonestConflicts(env)
    modifies session, box
    ensures outcome == Some(Noop) <==> !Claimable(old(session.db), id)
    ensures outcome == Some(Noop) ==>
              session.db == old(session.db) && box.jobs == old(box.jobs) && box.serial == old(box.serial)
    ensures (id in old(session.db).recs ==> old(session.db).recs[id].state == Done) ==> session.now == old(session.now)
    ensures outcome != Some(Noop) ==>
              && id in session.db.recs && Agrees(session.db, box.jobs, objects, id, outcome)
              && Spelled(old(session.db), old(box.jobs), session.db, objects, cfg, id, env, outcome)
              && Ending(session.db, box.jobs, box.serial, outcome)
                 == Tried(ClaimRow(old(session.db), id, t0), old(box.jobs), old(box.serial), objects, cfg, id,
                          old(session.db).recs[id], env, session.now)
    ensures session.db.events == old(session.db.events) && session.db.recs - {id} == old(session.db.recs) - {id}
    ensures box.jobs - {id} == old(box.jobs) - {id}
    ensures box.submits <= old(box.submits) + 2 && box.discards <= old(box.discards) + 1
    ensures old(session.now) <= t0 <= session.now
  {
    t0 := session.now;
    if id !in session.db.recs {
      return Some(Noop), t0;
    }
    var recording := session.db.recs[id];
    if recording.state == Done {
      return Some(Noop), t0;
    }
    var won := session.Claim(id);
    t0 := session.now;
    if !won {
      return Some(Noop), t0;
    }
    outcome := Attempt(session, box, objects, cfg, id, recording, env);
    OutcomeAgrees(old(session.db), old(box.jobs), old(box.serial), objects, cfg, id, env, t0, session.now);
    OutcomeIsSpelled(old(session.db), old(box.jobs), old(box.serial), objects, cfg, id, env, t0, session.now);
  }

  // --- the attempt as a run of the protocol ----------------------------------------------------

  /** What an attempt adds to the history. */
  function AttemptLog(db: Db, id: Id, outcome: Option<Outcome>): seq<Entry> {
    if id !in db.recs || db.recs[id].state == Done then []
    else if !Claimable(db, id) then [ClaimLost(id)]
    else [ClaimWon(id)] + if GaveBack(outcome) then [SentBack(id)] else []
  }

  /** The world after an attempt that claims its row at `t0` and ends at `t`, or that finds it cannot be claimed. */
  function Attempted(w: World, id: Id, env: Weather, t0: int, t: int): World {
    if !Claimable(w.db, id) then w.(now := t, log := w.log + AttemptLog(w.db, id, Some(Noop)))
    else
      var e := Tried(ClaimRow(w.db, id, t0), w.box, w.serial, w.objects, w.cfg, id, w.db.recs[id], env, t);
      w.(now := t, db := e.db, box := e.jobs, serial := e.serial, log := w.log + AttemptLog(w.db, id, e.outcome))
  }

  /** The rest of an attempt whose worker has its audio. */
  lemma UploadLeg(w: World, p: Pid, id: Id, audio: Bytes, env: Weather, t: int) returns (w': World)
    requires p in w.procs && w.procs[p] == Worker(id, Holding(audio)) && HonestConflicts(env) && w.now <= t
    requires id in w.db.recs
    ensures Leads(w, w', p, AsWorker(id))
    ensures var h := HandOver(w.box, w.serial, id, audio, env);
            w' == w.(now := t, box := h.jobs, serial := h.serial, procs := w.procs - {p},
                     db := if h.reply.Ok? then w.db else Ended(w.db, id, Handler(h.reply.error), t),
                     log := w.log + if h.reply.Ok? then [] else [SentBack(id)])
  {
    HandOverLeg(w, p, id, audio, env);
    var h := HandOver(w.box, w.serial, id, audio, env);
    var mid := AfterHandOver(w, p, id, h);
    if h.reply.Ok? {
      w' := mid.(now := t);
      LeadsOn(w, mid, Outside(Tick(t)), p, AsWorker(id));
      assert w.log + [] == w.log;
    } else {
      EndLeg(mid, p, id, Handler(h.reply.error), t);
      w' := w.(now := t, box := h.jobs, serial := h.serial, procs := w.procs - {p},
               db := Ended(w.db, id, Handler(h.reply.error), t), log := w.log + [SentBack(id)]);
      assert mid.procs - {p} == w'.procs;
      LeadsThen(w, mid, w', p, AsWorker(id));
    }
  }

  lemma OwnedLeg(w: World, p: Pid, id: Id, rec: Recording, env: Weather, t: int) returns (w': World)
    requires p in w.procs && w.procs[p] == Worker(id, Owned(rec)) && HonestConflicts(env) && w.now <= t
    requires id in w.db.recs
    ensures Leads(w, w', p, AsWorker(id))
    ensures var e := Tried(w.db, w.box, w.serial, w.objects, w.cfg, id, rec, env, t);
            w' == w.(now := t, db := e.db, box := e.jobs, serial := e.serial, procs := w.procs - {p},
                     log := w.log + if GaveBack(e.outcome) then [SentBack(id)] else [])
  {
    PrepareLeg(w, p, id, rec, env.fetch);
    var pc := Prepared(w, id, rec, env.fetch);
    var w1 := SetProc(w, p, Worker(id, pc));
    if Escapes(w.db, w.cfg, id, rec, env.fetch) {
      LeadsOn(w, w1, Exit(p), p, AsWorker(id));
      LeadsOn(w, Gone(w1, p), Outside(Tick(t)), p, AsWorker(id));
      w' := Gone(w1, p).(now := t);
      assert w.log + [] == w.log;
    } else if pc.Holding? {
      w' := UploadLeg(w1, p, id, pc.audio, env, t);
      LeadsThen(w, w1, w', p, AsWorker(id));
    } else {
      EndLeg(w1, p, id, pc, t);
      w' := w1.(now := t, db := Ended(w.db, id, pc, t), log := w.log + [SentBack(id)], procs := w1.procs - {p});
      LeadsThen(w, w1, w', p, AsWorker(id));
    }
    assert w'.procs == w.procs - {p};
  }

  /** A whole attempt is a run of one worker. */
  lemma AttemptIsRun(w: World, p: Pid, id: Id, env: Weather, t0: int, t: int)
    requires p !in w.procs && HonestConflicts(env) && w.now <= t0 <= t
    ensures Leads(w, Attempted(w, id, env, t0, t), p, AsWorker(id))
  {
    if Claimable(w.db, id) {
      ClaimLeg(w, p, id, t0);
      var w1 := Claimed(w, p, id, t0);
      var w2 := OwnedLeg(w1, p, id, w.db.recs[id], env, t);
      LeadsThen(w, w1, w2, p, AsWorker(id));
      assert w2 == Attempted(w, id, env, t0, t) by {
        assert w2.procs == w.procs;
        Appended(w.log, id, Tried(w1.db, w.box, w.serial, w.objects, w.cfg, id, w.db.recs[id], env, t).outcome);
      }
    } else if id in w.db.recs && w.db.recs[id].state == Transcribing {
      ClaimLostLeg(w, p, id, t);
    } else {
      LeadsNowhere(w, p, AsWorker(id));
      LeadsOn(w, w, Outside(Tick(t)), p, AsWorker(id));
      assert w.log + [] == w.log;
    }
  }

  lemma Appended(log: seq<Entry>, id: Id, outcome: Option<Outcome>)
    ensures (log + [ClaimWon(id)]) + (if GaveBack(outcome) then [SentBack(id)] else [])
            == log + ([ClaimWon(id)] + if GaveBack(outcome) then [SentBack(id)] else [])
  {
  }

  // --- the route -----------------------------------------------------------------------------

  /** An HTTP answer: its status, and what its Retry-After header says. */
  datatype Response = Response(code: int, retryAfter: Option<nat>)

  /** `POST /internal/transcribe`. Exactly the attempts to be retried are answered 503, their row being pending again;
      an escaped exception is the framework's 500. */
  method Transcribe(session: Session, box: Box, objects: map<string, Bytes>, cfg: Settings, id: Id, env: Weather)
    returns (response: Response, ghost outcome: Option<Outcome>)
    requires HonestConflicts(env)
    modifies session, box
    ensures response.code == 503 <==> outcome.Some? && outcome.value.Retry?
    ensures response.code == 503 ==> id in session.db.recs && session.db.recs[id].state == Pending
    ensures response.code == 500 <==> outcome.None?
    ensures response.code == 200 <==> outcome.Some? && !outcome.value.Retry?
    ensures outcome == Some(Noop) <==> !Claimable(old(session.db), id)
    ensures Claimable(old(session.db), id) ==>
              id in session.db.recs && Agrees(session.db, box.jobs, objects, id, outcome)
              && Spelled(old(session.db), old(box.jobs), session.db, objects, cfg, id, env, outcome)
    ensures response.code == 200 && Claimable(old(session.db), id) ==>
              id in session.db.recs && (session.db.recs[id].state == Transcribing || session.db.recs[id].state == Failed)
    ensures response.retryAfter == if outcome.Some? && outcome.value.Retry? then outcome.value.after else None
  {
    var result;
    ghost var t0;
    result, t0 := RunTranscription(session, box, objects, cfg, id, env);
    outcome := result;
    match result
    case None => response := Response(500, None);
    case Some(Retry(after)) => response := Response(503, after);
    case Some(_) => response := Response(200, None);
  }
}
