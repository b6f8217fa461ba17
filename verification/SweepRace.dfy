/** Why `DoneStays` needs its entry points serialised: a sweep that overlaps a collection. */
module SweepRace {
  import opened Wrappers
  import opened Core
  import opened Protocol
  import opened Paths
  import opened Scenarios
  import opened DoneIsFinal

  const TEXT := Finished(Transcript(Some("x")))
  const LATE: int := 21601

  /** A sweep has selected the row as stuck; then the box finishes its job. */
  function Selected(): World {
    Submitted(CFG).(now := LATE, box := Boxed(Job(0, [], TEXT)),
                 procs := map[1 := Sweeper(LATE, Scanning, [ID], 0, [])])
  }

  /** The sweep, at the moment its first query answers. */
  function Picking(): World {
    Submitted(CFG).(now := LATE, procs := map[1 := Sweeper(LATE, Starting, [], 0, [])])
  }

  lemma PickingIsReachable()
    ensures Reachable(Picking())
  {
    SubmittedIsReachable(CFG);
    var w := Submitted(CFG);
    ReachableNext(w, Outside(Tick(LATE)));
    ReachableNext(w.(now := LATE), Sweep(1, Begin));
  }

  lemma SelectedIsReachable()
    ensures Reachable(Selected())
  {
    PickingIsReachable();
    var w := Picking();
    assert Stale(w.db.recs, Transcribing, LATE - 21600) == {ID};
    ReachableNext(w, Sweep(1, Pick([ID])));
    var w1 := w.(procs := map[1 := Sweeper(LATE, Scanning, [ID], 0, [])]);
    BoxWorkIsRun(w1, ID, Transcript(Some("x")));
    assert WorkedOff(w1, ID, Transcript(Some("x"))) == Selected();
  }

  /** Another instance collects it meanwhile: the row is done, the box is empty. */
  lemma Collected() returns (w: World)
    ensures Reachable(w) && Complete(w, ID) && w.box == map[]
    ensures SweeperAt(w, 1) && w.procs[1] == Sweeper(LATE, Scanning, [ID], 0, [])
  {
    SelectedIsReachable();
    var w0 := Selected();
    var w3 := Gathers(w0, 2, Job(0, [], TEXT));
    w := DoGather(w3, 2, Ack(Answered));
    ReachableNext(w3, Gather(2, Ack(Answered)));
  }

  /** The sweep finds no job and reverts the finished recording. */
  lemma SweepUndoesDone() returns (w: World)
    ensures Reachable(w) && Complete(w, ID)
    ensures CanSweep(w, 1, TakeBack) && DoSweep(w, 1, TakeBack).db.recs[ID].state == Pending
  {
    var w0 := Collected();
    w := DoSweep(w0, 1, Check(Answered));
    ReachableNext(w0, Sweep(1, Check(Answered)));
  }
}
