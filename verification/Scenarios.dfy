/** One small concrete run, from which the counterexamples of the other modules continue. */
module Scenarios {
  import opened Wrappers
  import opened Core
  import opened Protocol
  import opened Paths

  const ID: Id := "r"
  const KEY := "v0/u/r.m4a"
  const CFG := Settings(600, 26214400, 21600, 1800, 25)
  const REC := Recording("u", KEY, None, Pending, None, 0)
  const EVENT := Event("u", None, [])

  /** A client has created one recording, its audio has arrived, and its task is queued. */
  function Uploaded(cfg: Settings): World {
    World(cfg, 0, {ID}, Db(map[ID := REC], map[ID := EVENT]), map[KEY := []], multiset{ID}, map[], 0, map[], [])
  }

  lemma UploadedIsReachable(cfg: Settings)
    ensures Reachable(Uploaded(cfg))
  {
    var w := Init(cfg, 0);
    assert Initial(w) && Legal(w, []) && Run(w, []) == w;
    var w1 := DoOutside(w, Create(ID, REC, EVENT));
    ReachableNext(w, Outside(Create(ID, REC, EVENT)));
    var w2 := DoOutside(w1, Upload(KEY, []));
    ReachableNext(w1, Outside(Upload(KEY, [])));
    ReachableNext(w2, Outside(Enqueue(ID)));
    assert DoOutside(w2, Enqueue(ID)) == Uploaded(cfg);
  }

  /** `job` is the only job on the box. */
  function Boxed(job: Job): map<Id, Job> {
    map[ID := job]
  }

  /** The task has been delivered: the row is claimed, the box has the audio. */
  function Submitted(cfg: Settings): World {
    Uploaded(cfg).(db := ClaimRow(Uploaded(cfg).db, ID, 0), box := Boxed(Job(0, [], Status.Queued)), serial := 1,
                log := [ClaimWon(ID)])
  }

  lemma SubmittedIsReachable(cfg: Settings)
    ensures Reachable(Submitted(cfg))
  {
    UploadedIsReachable(cfg);
    var p: Pid := 0;
    var w := Uploaded(cfg);
    var w1 := SetProc(w, p, Worker(ID, Found(REC)));
    ReachableNext(w, Work(p, Deliver(ID)));
    var w2 := DoWork(w1, p, Claim);
    ReachableNext(w1, Work(p, Claim));
    SubmitFrom(w2, p);
    assert w2.procs - {p} == map[];
  }

  lemma SubmitFrom(w: World, p: Pid)
    requires Reachable(w) && p in w.procs && w.procs[p] == Worker(ID, Owned(REC))
    requires ID in w.db.events && w.objects == map[KEY := []] && ID !in w.box
    ensures Reachable(w.(procs := w.procs - {p}, serial := w.serial + 1,
                         box := w.box[ID := Job(w.serial, [], Status.Queued)]))
  {
    var w1 := SetProc(w, p, Worker(ID, Linked(REC)));
    ReachableNext(w, Work(p, LookUp));
    var w2 := SetProc(w1, p, Worker(ID, Holding([])));
    ReachableNext(w1, Work(p, Download(true)));
    ReachableNext(w2, Work(p, Submit(Answered)));
    assert DoSubmit(w2, p, Answered).procs == w.procs - {p};
  }

  /** A collector drains the only job on the box. */
  lemma Drains(w: World, p: Pid, job: Job)
    requires Reachable(w) && p !in w.procs && w.box == Boxed(job) && job.status.Finished?
    ensures Reachable(SetProc(w, p, Collector([Item(ID, job.serial, job.status)], [])))
  {
    var it := Item(ID, job.serial, job.status);
    var w1 := SetProc(w, p, Collector([], []));
    ReachableNext(w, Gather(p, Open));
    assert Terminal(w1.box) == {ID};
    ReachableNext(w1, Gather(p, Drain([it])));
    assert w1.procs[p := Collector([it], [])] == w.procs[p := Collector([it], [])];
  }

  /** It persists it, and has not acknowledged it yet. */
  lemma Gathers(w: World, p: Pid, job: Job) returns (w': World)
    requires Reachable(w) && p !in w.procs && w.box == Boxed(job) && job.status.Finished?
    requires Commits(Judge(w.db, ID, job.status), Clean)
    ensures var it, v := Item(ID, job.serial, job.status), Judge(w.db, ID, job.status);
            && Reachable(w')
            && w' == SetProc(w, p, Collector([], [it])).(db := Commit(w.db, ID, v, w.now), log := w'.log)
            && w'.log == w.log + (if v.GaveUp? || v.Requeued? then BackEntry(w.db, ID) else []) + [Decided(p, it, v)]
  {
    var it := Item(ID, job.serial, job.status);
    Drains(w, p, job);
    var w1 := SetProc(w, p, Collector([it], []));
    ReachableNext(w1, Gather(p, Persist(Clean)));
    w' := DoPersist(w1, p, Clean);
    assert [it][1..] == [] && [] + [it] == [it];
  }

  /** One more recording has been created and uploaded, its task has been delivered, and the box has worked it off. */
  function Served(w: World, id: Id, key: string, result: Result): World {
    w.(born := w.born + {id}, objects := w.objects[key := []], queue := w.queue + multiset{id},
       db := Db(w.db.recs[id := Recording("u", key, None, Transcribing, None, w.now)], w.db.events[id := EVENT]),
       box := w.box[id := Job(w.serial, [], Finished(result))], serial := w.serial + 1, log := w.log + [ClaimWon(id)])
  }

  lemma ServedIsReachable(w: World, id: Id, key: string, result: Result)
    requires Reachable(w) && w.procs == map[] && id !in w.born && id !in w.box
    ensures Reachable(Served(w, id, key, result))
  {
    var w1 := Arrives(w, id, key);
    var w2 := Delivered(w1, id, key);
    BoxWorkIsRun(w2, id, result);
    WorkedOffOnce(w.box, id, Job(w.serial, [], Status.Queued), Job(w.serial, [], Finished(result)));
  }

  lemma WorkedOffOnce(jobs: map<Id, Job>, id: Id, queued: Job, finished: Job)
    ensures jobs[id := queued][id := finished] == jobs[id := finished]
  {
  }

  lemma Arrives(w: World, id: Id, key: string) returns (w': World)
    requires Reachable(w) && id !in w.born
    ensures Reachable(w')
    ensures w' == w.(born := w.born + {id}, objects := w.objects[key := []], queue := w.queue + multiset{id},
                     db := Db(w.db.recs[id := Recording("u", key, None, Pending, None, w.now)], w.db.events[id := EVENT]))
  {
    var rec := Recording("u", key, None, Pending, None, w.now);
    ReachableNext(w, Outside(Create(id, rec, EVENT)));
    var w1 := DoOutside(w, Create(id, rec, EVENT));
    ReachableNext(w1, Outside(Upload(key, [])));
    var w2 := DoOutside(w1, Upload(key, []));
    ReachableNext(w2, Outside(Enqueue(id)));
    w' := DoOutside(w2, Enqueue(id));
  }

  lemma Delivered(w: World, id: Id, key: string) returns (w': World)
    requires Reachable(w) && w.procs == map[] && id in w.queue && id !in w.box && id in w.db.events
    requires id in w.db.recs && w.db.recs[id] == Recording("u", key, None, Pending, None, w.now)
    requires key in w.objects && w.objects[key] == []
    ensures Reachable(w')
    ensures w' == w.(db := ClaimRow(w.db, id, w.now), log := w.log + [ClaimWon(id)],
                     box := w.box[id := Job(w.serial, [], Status.Queued)], serial := w.serial + 1)
  {
    var rec := w.db.recs[id];
    ReachableNext(w, Work(0, Deliver(id)));
    var w1 := SetProc(w, 0, Worker(id, Found(rec)));
    ReachableNext(w1, Work(0, Claim));
    var w2 := SetProc(w, 0, Worker(id, Owned(rec))).(db := ClaimRow(w.db, id, w.now), log := w.log + [ClaimWon(id)]);
    assert DoWork(w1, 0, Claim).procs == w2.procs;
    ReachableNext(w2, Work(0, LookUp));
    var w3 := SetProc(w2, 0, Worker(id, Linked(rec)));
    ReachableNext(w3, Work(0, Download(true)));
    var w4 := SetProc(w3, 0, Worker(id, Holding([])));
    ReachableNext(w4, Work(0, Submit(Answered)));
    w' := DoSubmit(w4, 0, Answered);
    assert w'.procs == w.procs;
  }
}
