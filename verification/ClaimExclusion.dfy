/** The conditional UPDATE as a lock: between two claims of one recording something gave it back. */
module ClaimExclusion {
  import opened Wrappers
  import opened Core
  import opened Protocol
  import opened Paths
  import opened PersistThenAck

  ghost predicate BackAfter(log: seq<Entry>, i: nat, id: Id) {
    exists k :: i < k < |log| && log[k] == SentBack(id)
  }

  /** A row whose last claim nobody gave back is being worked on, or done, or deleted. */
  ghost predicate ClaimedIsBusy(w: World) {
    forall i | 0 <= i < |w.log| && w.log[i].ClaimWon? && !BackAfter(w.log, i, w.log[i].id) ::
      w.log[i].id in w.born &&
      (w.log[i].id in w.db.recs ==> w.db.recs[w.log[i].id].state == Transcribing || w.db.recs[w.log[i].id].state == Done)
  }

  ghost predicate ClaimsAreSeparated(log: seq<Entry>) {
    forall i, j | 0 <= i < j < |log| && log[i].ClaimWon? && log[j] == log[i] :: BackAfter(log[..j], i, log[i].id)
  }

  ghost predicate Inv(w: World) {
    ClaimedIsBusy(w) && ClaimsAreSeparated(w.log) && forall id | id in w.db.recs :: id in w.born
  }

  predicate AddsBack(w: World, w': World, id: Id) {
    exists k :: |w.log| <= k < |w'.log| && w'.log[k] == SentBack(id)
  }

  predicate AddsWritten(w: World, w': World, id: Id) {
    exists k :: |w.log| <= k < |w'.log| && Writes(w'.log[k], id)
  }

  /** What a step may do to the rows, read off the history entries it adds. */
  ghost predicate RowsFollow(w: World, w': World) {
    && w.log <= w'.log && w.born <= w'.born
    && (forall id | id in w'.db.recs :: id in w'.born)
    && (forall id | id in w'.db.recs && id !in w.db.recs :: id !in w.born)
    && (forall id | id in w'.db.recs && id in w.db.recs && w'.db.recs[id].state != w.db.recs[id].state ::
          || (w'.db.recs[id].state == Transcribing && w'.log == w.log + [ClaimWon(id)])
          || (w'.db.recs[id].state == Done && AddsWritten(w, w', id))
          || AddsBack(w, w', id))
    && (forall k | |w.log| <= k < |w'.log| && (w'.log[k].ClaimWon? || w'.log[k].ClaimLost?) ::
          k == |w.log| == |w'.log| - 1 && (w'.log[k].ClaimWon? <==> Claimable(w.db, w'.log[k].id)) &&
          (w'.log[k].ClaimWon? ==> w'.log[k].id in w'.db.recs && w'.db.recs[w'.log[k].id].state == Transcribing))
  }

  lemma WorkFollows(w: World, p: Pid, x: WorkMove)
    requires CanWork(w, p, x) && forall id | id in w.db.recs :: id in w.born
    ensures RowsFollow(w, DoWork(w, p, x))
  {
    if x.Fail? || x.Revert? {
      var id := w.procs[p].id;
      assert id in w.db.recs ==> DoWork(w, p, x).log[|w.log|] == SentBack(id);
    }
  }

  lemma PersistFollows(w: World, p: Pid, fault: Fault)
    requires CanGather(w, p, Persist(fault)) && forall id | id in w.db.recs :: id in w.born
    ensures RowsFollow(w, DoPersist(w, p, fault))
  {
    var w' := DoPersist(w, p, fault);
    if w'.log != w.log {
      var id := w.procs[p].todo[0].id;
      var last := w'.log[|w'.log| - 1];
      assert last.verdict.Wrote? ==> Writes(last, id);
      assert id in w.db.recs && (last.verdict.GaveUp? || last.verdict.Requeued?) ==> w'.log[|w.log|] == SentBack(id);
    }
  }

  lemma GatherFollows(w: World, p: Pid, g: GatherMove)
    requires CanGather(w, p, g) && forall id | id in w.db.recs :: id in w.born
    ensures RowsFollow(w, DoGather(w, p, g))
  {
    if g.Persist? {
      PersistFollows(w, p, g.fault);
    }
  }

  lemma SweepFollows(w: World, p: Pid, s: SweepMove)
    requires CanSweep(w, p, s) && forall id | id in w.db.recs :: id in w.born
    ensures RowsFollow(w, DoSweep(w, p, s))
  {
    if s.TakeBack? {
      var id := w.procs[p].phase.id;
      assert id in w.db.recs ==> DoSweep(w, p, s).log[|w.log|] == SentBack(id);
    }
  }

  lemma OutsideFollows(w: World, o: OutsideMove)
    requires CanOutside(w, o) && forall id | id in w.db.recs :: id in w.born
    ensures RowsFollow(w, DoOutside(w, o))
  {
  }

  lemma StepFollows(w: World, a: Act)
    requires Enabled(w, a) && forall id | id in w.db.recs :: id in w.born
    ensures RowsFollow(w, Do(w, a))
  {
    match a
    case Outside(o) => OutsideFollows(w, o);
    case Work(p, x) => WorkFollows(w, p, x);
    case Gather(p, g) => GatherFollows(w, p, g);
    case Sweep(p, s) => SweepFollows(w, p, s);
    case _ =>
  }

  lemma BackStays(log: seq<Entry>, more: seq<Entry>, i: nat, id: Id)
    requires log <= more && BackAfter(log, i, id)
    ensures BackAfter(more, i, id)
  {
  }

  lemma BusyStep(w: World, w': World)
    requires Inv(w) && RowsFollow(w, w')
    ensures ClaimedIsBusy(w')
  {
  }

  lemma SeparatedStep(w: World, w': World)
    requires Inv(w) && RowsFollow(w, w')
    ensures ClaimsAreSeparated(w'.log)
  {
    forall i, j | 0 <= i < j < |w'.log| && w'.log[i].ClaimWon? && w'.log[j] == w'.log[i]
      ensures BackAfter(w'.log[..j], i, w'.log[i].id)
    {
      if j < |w.log| {
        assert w'.log[..j] == w.log[..j];
      } else {
        assert BackAfter(w.log, i, w.log[i].id);
        BackStays(w.log, w'.log[..j], i, w.log[i].id);
      }
    }
  }

  lemma Step(w: World, a: Act)
    requires Inv(w) && Enabled(w, a)
    ensures Inv(Do(w, a)) && RowsFollow(w, Do(w, a))
  {
    StepFollows(w, a);
    BusyStep(w, Do(w, a));
    SeparatedStep(w, Do(w, a));
  }

  lemma {:induction false} RunKeeps(w: World, acts: seq<Act>)
    requires Inv(w) && Legal(w, acts)
    ensures Inv(Run(w, acts)) && w.log <= Run(w, acts).log
    decreases |acts|
  {
    if acts != [] {
      Step(w, acts[0]);
      RunKeeps(Do(w, acts[0]), acts[1..]);
    }
  }

  /** In every run, any two successful claims of one recording have between them a committed write that took
      its row back to `pending` or `failed`. */
  lemma ClaimsExclude(start: World, acts: seq<Act>, i: nat, j: nat, id: Id)
    requires Initial(start) && Legal(start, acts)
    requires i < j < |Run(start, acts).log|
    requires Run(start, acts).log[i] == ClaimWon(id) == Run(start, acts).log[j]
    ensures exists k :: i < k < j && Run(start, acts).log[k] == SentBack(id)
  {
    RunKeeps(start, acts);
    var log := Run(start, acts).log;
    assert BackAfter(log[..j], i, id);
    var k :| i < k < |log[..j]| && log[..j][k] == SentBack(id);
    assert log[k] == SentBack(id);
  }

  // --- duplicate tasks ---------------------------------------------------------------------

  function Count(log: seq<Entry>, e: Entry): nat {
    if log == [] then 0 else Count(log[..|log| - 1], e) + (if log[|log| - 1] == e then 1 else 0)
  }

  /** The history from length `n` on. */
  function Since(w: World, n: nat): seq<Entry>
    requires n <= |w.log|
  {
    w.log[n..]
  }

  /** Since length `n`, nothing but claims has touched this row. */
  ghost predicate Undisturbed(w: World, n: nat, id: Id)
    requires n <= |w.log|
  {
    id in w.db.recs && forall e | e in Since(w, n) :: e != SentBack(id) && !Writes(e, id)
  }

  /** The tally that holds all along: no attempt yet and the row still free, or one success and the row taken. */
  ghost predicate Tally(w: World, n: nat, id: Id)
    requires n <= |w.log|
  {
    var won, lost := Count(Since(w, n), ClaimWon(id)), Count(Since(w, n), ClaimLost(id));
    if won == 0 then lost == 0 && Claimable(w.db, id)
    else won == 1 && w.db.recs.Keys >= {id} && w.db.recs[id].state == Transcribing
  }

  /** A step that adds no claim of `id` leaves a row alone that nothing else may touch. */
  lemma RowStays(w: World, w': World, n: nat, id: Id)
    requires n <= |w.log| && RowsFollow(w, w') && Undisturbed(w', n, id) && id in w.db.recs
    requires w'.log != w.log + [ClaimWon(id)]
    ensures w'.db.recs[id].state == w.db.recs[id].state
  {
    assert forall k | |w.log| <= k < |w'.log| :: w'.log[k] in Since(w', n);
  }

  /** The history grows by one claim of `id`, or by no claim of `id` at all. */
  lemma ClaimsCome(w: World, w': World, n: nat, id: Id)
    requires n <= |w.log| && RowsFollow(w, w')
    ensures var won, lost := w.log + [ClaimWon(id)], w.log + [ClaimLost(id)];
            && (w'.log == won ==> Claimable(w.db, id) && id in w'.db.recs && w'.db.recs[id].state == Transcribing)
            && (w'.log == lost ==> !Claimable(w.db, id))
            && (w'.log != won && w'.log != lost ==>
                  Count(Since(w', n), ClaimWon(id)) == Count(Since(w, n), ClaimWon(id)) &&
                  Count(Since(w', n), ClaimLost(id)) == Count(Since(w, n), ClaimLost(id)))
  {
    var more := Since(w', n)[|w.log| - n..];
    assert forall k | 0 <= k < |more| :: more[k] == w'.log[|w.log| + k];
    if more != [] && (more[0] == ClaimWon(id) || more[0] == ClaimLost(id)) {
      assert w'.log == w.log + [more[0]];
    } else {
      assert ClaimWon(id) !in more && ClaimLost(id) !in more;
    }
    CountMore(Since(w, n), Since(w', n), ClaimWon(id));
    CountMore(Since(w, n), Since(w', n), ClaimLost(id));
  }

  lemma TallyStep(w: World, w': World, n: nat, id: Id)
    requires n <= |w.log| && RowsFollow(w, w') && Undisturbed(w', n, id) && id in w.db.recs
    requires Tally(w, n, id)
    ensures Tally(w', n, id)
  {
    ClaimsCome(w, w', n, id);
    if w'.log == w.log + [ClaimWon(id)] || w'.log == w.log + [ClaimLost(id)] {
      assert Since(w', n) == Since(w, n) + [w'.log[|w.log|]];
    }
    if w'.log != w.log + [ClaimWon(id)] {
      RowStays(w, w', n, id);
    }
  }

  lemma {:induction false} RunTallies(w: World, acts: seq<Act>, n: nat, id: Id)
    requires Inv(w) && Legal(w, acts) && n <= |w.log| && id in w.db.recs && Tally(w, n, id)
    requires n <= |Run(w, acts).log| && Undisturbed(Run(w, acts), n, id)
    ensures Tally(Run(w, acts), n, id)
    decreases |acts|
  {
    if acts != [] {
      var next := Do(w, acts[0]);
      Step(w, acts[0]);
      RunKeeps(next, acts[1..]);
      StillThere(next, acts[1..], id);
      assert forall e | e in Since(next, n) :: e in Since(Run(w, acts), n);
      TallyStep(w, next, n, id);
      RunTallies(next, acts[1..], n, id);
    }
  }

  /** Ids are never reused: a row that is there at the end was there all along. */
  lemma {:induction false} StillThere(w: World, acts: seq<Act>, id: Id)
    requires Inv(w) && Legal(w, acts) && id in Run(w, acts).db.recs && id in w.born
    ensures id in w.db.recs
    decreases |acts|
  {
    if acts != [] {
      Step(w, acts[0]);
      StillThere(Do(w, acts[0]), acts[1..], id);
    }
  }

  lemma DuplicatesFrom(w: World, acts: seq<Act>, id: Id)
    requires Inv(w) && Legal(w, acts) && Claimable(w.db, id)
    requires |w.log| <= |Run(w, acts).log| && Undisturbed(Run(w, acts), |w.log|, id)
    ensures var added := Since(Run(w, acts), |w.log|);
            var won, lost := Count(added, ClaimWon(id)), Count(added, ClaimLost(id));
            won == if won + lost == 0 then 0 else 1
  {
    assert Since(w, |w.log|) == [];
    RunTallies(w, acts, |w.log|, id);
  }

  /** From any world of any run, any number of duplicate tasks for a claimable recording: as long as nothing gives its
      row back or completes it, the attempts that reach the claim make exactly one submitter, and all the others are
      no-ops. */
  lemma DuplicatesAreNoops(w: World, acts: seq<Act>, id: Id)
    requires Reachable(w) && Legal(w, acts) && Claimable(w.db, id)
    requires |w.log| <= |Run(w, acts).log| && Undisturbed(Run(w, acts), |w.log|, id)
    ensures var added := Since(Run(w, acts), |w.log|);
            var won, lost := Count(added, ClaimWon(id)), Count(added, ClaimLost(id));
            won == if won + lost == 0 then 0 else 1
  {
    var start, before :| Initial(start) && Legal(start, before) && Run(start, before) == w;
    RunKeeps(start, before);
    DuplicatesFrom(w, acts, id);
  }

  lemma {:induction false} CountMore(log: seq<Entry>, more: seq<Entry>, e: Entry)
    requires log <= more
    ensures Count(log, e) <= Count(more, e)
    ensures e !in more[|log|..] ==> Count(more, e) == Count(log, e)
    decreases |more|
  {
    if log != more {
      CountMore(log, more[..|more| - 1], e);
      assert more[..|more| - 1][|log|..] == more[|log|..][..|more| - 1 - |log|];
    } else {
      assert more[|log|..] == [];
    }
  }
}
