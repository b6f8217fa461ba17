/** Why the hypothesis of `DecisionPrecedesAck` is needed: a page has no lease. */
module LateAck {
  import opened Wrappers
  import opened Core
  import opened Protocol
  import opened Paths
  import opened Scenarios
  import opened PersistThenAck

  const MISSING := Finished(Failure(Some(AUDIO_MISSING)))
  const FIRST := Item(ID, 0, MISSING)

  /** Two collectors have the same job on their pages and have both decided it: the row is pending again. */
  lemma BothHold() returns (w: World)
    ensures Reachable(w) && w.box == Boxed(Job(0, [], MISSING)) && w.serial == 1
    ensures w.procs == map[1 := Collector([], [FIRST]), 2 := Collector([], [FIRST])]
    ensures w.cfg == CFG && w.objects == map[KEY := []] && ID in w.queue && ID in w.db.events
    ensures ID in w.db.recs && w.db.recs[ID] == REC
    ensures forall e | e in w.log :: e.Decided? ==> e.job == FIRST
  {
    SubmittedIsReachable(CFG);
    BoxWorkIsRun(Submitted(CFG), ID, Failure(Some(AUDIO_MISSING)));
    var w1 := WorkedOff(Submitted(CFG), ID, Failure(Some(AUDIO_MISSING)));
    var w2 := Gathers(w1, 1, Job(0, [], MISSING));
    w := Gathers(w2, 2, Job(0, [], MISSING));
  }

  /** The second of them acknowledges it. */
  lemma OneAcks() returns (w: World)
    ensures Reachable(w) && w.box == map[] && w.serial == 1 && w.procs == map[1 := Collector([], [FIRST])]
    ensures w.cfg == CFG && w.objects == map[KEY := []] && ID in w.queue && ID in w.db.events
    ensures ID in w.db.recs && w.db.recs[ID] == REC
    ensures forall e | e in w.log :: e.Decided? ==> e.job == FIRST
  {
    var w1 := BothHold();
    ReachableNext(w1, Gather(2, Ack(AnswerLost)));
    w := DoGather(w1, 2, Ack(AnswerLost));
    assert FIRST in [FIRST];
  }

  /** A redelivered task submits the recording again, under a new serial. */
  lemma Again() returns (w: World)
    ensures Reachable(w) && CollectorAt(w, 1) && w.procs[1] == Collector([], [FIRST])
    ensures w.box == Boxed(Job(1, [], Status.Queued))
    ensures forall e | e in w.log :: e.Decided? ==> e.job == FIRST
  {
    var w1 := OneAcks();
    var w2 := SetProc(w1, 3, Worker(ID, Found(REC)));
    ReachableNext(w1, Work(3, Deliver(ID)));
    var w3 := DoWork(w2, 3, Claim);
    ReachableNext(w2, Work(3, Claim));
    SubmitFrom(w3, 3);
    w := w3.(procs := w3.procs - {3}, serial := 2, box := w3.box[ID := Job(1, [], Status.Queued)]);
  }

  /** It is transcribed. */
  lemma Resubmitted() returns (w: World)
    ensures Reachable(w) && CollectorAt(w, 1) && w.procs[1] == Collector([], [FIRST])
    ensures w.box == Boxed(Job(1, [], Finished(Transcript(Some("x")))))
    ensures forall e | e in w.log :: e.Decided? ==> e.job == FIRST
  {
    var w1 := Again();
    BoxWorkIsRun(w1, ID, Transcript(Some("x")));
    w := WorkedOff(w1, ID, Transcript(Some("x")));
  }

  /** Then the first collector acknowledges its old page, and the new transcript, which nobody has stored, is gone. */
  lemma LateAckLosesResult() returns (w: World, p: Pid)
    ensures Reachable(w) && CanGather(w, p, Ack(Answered))
    ensures !RemovesOnlyDecided(w, DoGather(w, p, Ack(Answered)))
  {
    w := Resubmitted();
    p := 1;
    assert FIRST in w.procs[p].ackable;
    assert ID in w.box && ID !in DoGather(w, p, Ack(Answered)).box;
    assert ItemOf(w.box, ID).serial == 1;
  }
}
