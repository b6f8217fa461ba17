/** Recovery: from every world of every run, however the pages of the box and the batches of the database come out, the
    service gets a recording done by whole executions of its entry points, unless one of three things is in the way. */
module Recovery {
  import opened Wrappers
  import opened Core
  import opened Protocol
  import opened Paths
  import opened Stamps
  import opened Service
  import opened Effects
  import Collection

  // --- what stands in the way ----------------------------------------------------------------

  /** An attempt would replace the recording's job on the box: the row may be claimed, the audio is acceptable, and the
      box has other bytes. */
  predicate Replaceable(w: World, id: Id) {
    Acceptable(w, id) && w.db.recs[id].state != Transcribing && NotSubmitted(w, id)
  }

  /** And such an attempt comes, without anybody asking for a new task: one is queued, or a sweep will queue it. */
  predicate Releasable(w: World, id: Id) {
    Replaceable(w, id) && (w.db.recs[id].state == Pending || id in w.queue)
  }

  /** The recording's own result cannot be stored, and no attempt will replace it. */
  predicate OwnResultStuck(w: World, id: Id) {
    RefusedFor(w, id) && !Replaceable(w, id)
  }

  /** The rows in front of a stuck row that no sweep takes back and no collection moves: the box holds a result for them
      that cannot be stored. Rows of equal age may come first. */
  function Blockers(w: World, id: Id): set<Id>
    requires id in w.db.recs
  {
    set r | r in w.db.recs && r != id && w.db.recs[r].state == Transcribing
            && w.db.recs[r].updatedAt <= w.db.recs[id].updatedAt && RefusedFor(w, r)
  }

  /** The box lost the job of a stuck row, and the blockers in front of it can fill every batch. */
  predicate Crowded(w: World, id: Id)
    requires id in w.db.recs
  {
    w.db.recs[id].state == Transcribing && id !in w.box && |Blockers(w, id)| >= w.cfg.batchLimit
  }

  /** The other results on the box that cannot be stored and that no attempt will replace. */
  function Clog(w: World, id: Id): set<Id> {
    set r | r in w.box && RefusedFor(w, r) && r != id && !Releasable(w, r)
  }

  /** They can fill every page. */
  predicate Clogged(w: World, id: Id) {
    |Clog(w, id)| >= MAX_LIST_LIMIT
  }

  predicate Hindered(w: World, id: Id)
    requires id in w.db.recs
  {
    OwnResultStuck(w, id) || Crowded(w, id) || Clogged(w, id)
  }

  predicate IsDone(w: World, id: Id) {
    id in w.db.recs && w.db.recs[id].state == Done
  }

  /** Not done, and one of the three is in the way. */
  predicate Blocked(w: World, id: Id)
    requires id in w.db.recs
  {
    !IsDone(w, id) && Hindered(w, id)
  }

  // --- moving onward changes none of it ----------------------------------------------------------

  lemma ReplaceableStays(w: World, w': World, id: Id)
    requires Onward(w, w') && RefusedFor(w, id)
    ensures Replaceable(w', id) <==> Replaceable(w, id)
    ensures Releasable(w', id) <==> Releasable(w, id)
  {
    RefusedStays(w, w', id);
    AcceptableStays(w, w', id);
  }

  lemma ClogStays(w: World, w': World, id: Id)
    requires Onward(w, w')
    ensures Clog(w', id) == Clog(w, id)
  {
    forall r ensures RefusedFor(w', r) <==> RefusedFor(w, r)
      ensures RefusedFor(w, r) ==> (Releasable(w', r) <==> Releasable(w, r))
    {
      RefusedStays(w, w', r);
      if RefusedFor(w, r) {
        ReplaceableStays(w, w', r);
      }
    }
  }

  lemma BlockersStay(w: World, w': World, id: Id)
    requires Onward(w, w') && id in w.db.recs && w'.db.recs[id] == w.db.recs[id]
    ensures Blockers(w', id) == Blockers(w, id)
  {
    forall r ensures r in Blockers(w', id) <==> r in Blockers(w, id) {
      RefusedStays(w, w', r);
    }
  }

  lemma CrowdedStays(w: World, w': World, id: Id)
    requires Onward(w, w') && id in w.db.recs && Crowded(w', id)
    ensures Crowded(w, id)
  {
    assert RowOnward(w, w', id);
    assert id in w.box ==> JobOnward(w, w', id);
    BlockersStay(w, w', id);
  }

  // --- nor does an attempt -------------------------------------------------------------------------

  lemma TriedElsewhere(w: World, w': World, q: Id, r: Id)
    requires Tries(w, w', q) && r != q
    ensures RefusedFor(w', r) <==> RefusedFor(w, r)
    ensures Acceptable(w', r) <==> Acceptable(w, r)
    ensures Replaceable(w', r) <==> Replaceable(w, r)
    ensures Releasable(w', r) <==> Releasable(w, r)
  {
  }

  lemma TriedHere(w: World, w': World, q: Id)
    requires Tries(w, w', q) && Claimable(w.db, q)
    ensures RefusedFor(w', q) <==> RefusedFor(w, q) && !Replaceable(w, q)
    ensures Acceptable(w', q) <==> Acceptable(w, q)
    ensures !Replaceable(w', q)
  {
  }

  lemma ClogTried(w: World, w': World, q: Id, id: Id)
    requires Tries(w, w', q) && Claimable(w.db, q) && q in w.queue
    ensures Clog(w', id) == Clog(w, id) && Refusable(w') <= Refusable(w)
  {
    TriedHere(w, w', q);
    forall r | r != q
      ensures (RefusedFor(w', r) <==> RefusedFor(w, r)) && (Releasable(w', r) <==> Releasable(w, r))
    {
      TriedElsewhere(w, w', q, r);
    }
    forall r ensures r in Clog(w', id) <==> r in Clog(w, id) {
    }
  }

  lemma CrowdedTried(w: World, w': World, q: Id, id: Id)
    requires Tries(w, w', q) && Claimable(w.db, q) && Acceptable(w, id) && Crowded(w', id)
    requires w.db.recs[id].updatedAt < w.now
    ensures Crowded(w, id)
  {
    if q != id {
      forall r | r in Blockers(w', id) ensures r in Blockers(w, id) {
        if r != q {
          TriedElsewhere(w, w', q, r);
        }
      }
      SetSizes(Blockers(w', id), Blockers(w, id));
    }
  }

  // --- what a recovery keeps -----------------------------------------------------------------------

  predicate ReportsFailure(w: World, id: Id) {
    id in w.box && w.box[id].status.Finished? && w.box[id].status.result.Failure? &&
    w.box[id].status.result.code != Some(AUDIO_MISSING)
  }

  /** The row has failed, or will once what the box says about it is stored. */
  predicate Fails(w: World, id: Id) {
    (id in w.db.recs && w.db.recs[id].state == Failed) || ReportsFailure(w, id)
  }

  /** The recording is acceptable and nothing is in the way. */
  predicate Unhindered(w: World, id: Id) {
    && w.cfg.batchLimit > 0 && WellStamped(w) && Acceptable(w, id) && !Hindered(w, id)
  }

  /** Nothing has got worse for the recording. */
  predicate Goes(w: World, w': World, id: Id) {
    && Unhindered(w', id) && w'.cfg == w.cfg && w'.procs == w.procs && w'.objects == w.objects
    && w'.db.events.Keys == w.db.events.Keys && w.now <= w'.now && Refusable(w') <= Refusable(w)
    && (Fails(w', id) ==> Fails(w, id))
  }

  lemma OnwardUnhindered(w: World, w': World, id: Id)
    requires Onward(w, w') && Unhindered(w, id)
    ensures Unhindered(w', id)
  {
    AcceptableStays(w, w', id);
    RefusedStays(w, w', id);
    if RefusedFor(w, id) {
      ReplaceableStays(w, w', id);
    }
    ClogStays(w, w', id);
    if Crowded(w', id) {
      CrowdedStays(w, w', id);
    }
    forall r | r in w'.db.recs ensures w'.db.recs[r].updatedAt <= w'.now {
      assert RowOnward(w, w', r);
    }
  }

  lemma OnwardGoes(w: World, w': World, id: Id)
    requires Onward(w, w') && Unhindered(w, id) && (Fails(w', id) ==> Fails(w, id))
    ensures Goes(w, w', id)
  {
    OnwardUnhindered(w, w', id);
    RefusableStays(w, w');
  }

  lemma TriedUnhindered(w: World, w': World, q: Id, id: Id)
    requires Tries(w, w', q) && Claimable(w.db, q) && q in w.queue && Unhindered(w, id) && w.db.recs[id].updatedAt < w.now
    ensures Unhindered(w', id)
  {
    TriedHere(w, w', q);
    if q != id {
      TriedElsewhere(w, w', q, id);
    }
    ClogTried(w, w', q, id);
    if Crowded(w', id) {
      CrowdedTried(w, w', q, id);
    }
  }

  lemma TriedGoes(w: World, w': World, q: Id, id: Id)
    requires Tries(w, w', q) && Claimable(w.db, q) && q in w.queue && Unhindered(w, id) && w.db.recs[id].updatedAt < w.now
    ensures Goes(w, w', id)
  {
    TriedUnhindered(w, w', q, id);
    ClogTried(w, w', q, id);
  }

  lemma GoesThen(w: World, mid: World, w': World, id: Id)
    requires Goes(w, mid, id) && Goes(mid, w', id)
    ensures Goes(w, w', id)
  {
  }

  // --- single moves --------------------------------------------------------------------------------

  lemma Waiting(w: World, id: Id, d: nat, fate: Fate, rules: Rules) returns (w': World)
    requires Unhindered(w, id) && Orderly(fate, id)
    ensures w' == w.(now := w.now + d) && Reaches(w, w', fate, rules) && Goes(w, w', id) && Onward(w, w')
  {
    w' := fate(w, Wait(w.now + d));
    One(w, Wait(w.now + d), fate, rules);
    Answer(w, Wait(w.now + d), fate, id);
    WaitOnward(w, w.now + d);
    OnwardGoes(w, w', id);
  }

  /** Rows without a job on the box are as they were. */
  predicate Untouched(w: World, w': World) {
    forall r | r in w.db.recs && r !in w.box :: r in w'.db.recs && w'.db.recs[r] == w.db.recs[r]
  }

  lemma CollectionFails(w: World, w': World, acked: set<Id>, id: Id)
    requires Gives(w, w', acked) && Acceptable(w, id) && Fails(w', id)
    ensures Fails(w, id)
  {
  }

  lemma SweepFails(w: World, w': World, began: int, stuck: seq<Id>, pending: seq<Id>, id: Id)
    requires Resent(w, w', began, stuck, pending) && id in w.db.recs && Fails(w', id)
    ensures Fails(w, id)
  {
  }

  /** A whole sweep: its collection, and then its two batches. */
  lemma Sweeping(w: World, id: Id, fate: Fate, rules: Rules)
    returns (w': World, mid: World, began: int, stuck: seq<Id>, pending: seq<Id>)
    requires Unhindered(w, id) && Orderly(fate, id)
    ensures Reaches(w, w', fate, rules) && Goes(w, w', id)
    ensures Onward(w, mid) && Onward(mid, w') && Resent(mid, w', began, stuck, pending) && Untouched(w, mid)
  {
    w' := fate(w, FullSweep);
    One(w, FullSweep, fate, rules);
    Answer(w, FullSweep, fate, id);
    mid :| CollectsWell(w, mid) && RedrivesWell(mid, w');
    var acked :| CollectsSome(w, mid, acked);
    began, stuck, pending :| Onward(mid, w') && Resent(mid, w', began, stuck, pending);
    SweepGoes(w, mid, w', acked, began, stuck, pending, id);
  }

  lemma SweepGoes(w: World, mid: World, w': World, acked: set<Id>, began: int, stuck: seq<Id>, pending: seq<Id>, id: Id)
    requires Unhindered(w, id) && Onward(w, mid) && Gives(w, mid, acked)
    requires Onward(mid, w') && Resent(mid, w', began, stuck, pending)
    ensures Goes(w, w', id)
  {
    OnwardUnhindered(w, mid, id);
    OnwardUnhindered(mid, w', id);
    RefusableStays(w, mid);
    RefusableStays(mid, w');
    if Fails(w', id) {
      SweepFails(mid, w', began, stuck, pending, id);
      CollectionFails(w, mid, acked, id);
    }
  }

  lemma AttemptNow(w: World, q: Id, id: Id, fate: Fate, rules: Rules) returns (w': World)
    requires Unhindered(w, id) && Orderly(fate, id) && q in w.queue && Claimable(w.db, q) && w.db.recs[id].updatedAt < w.now
    ensures Reaches(w, w', fate, rules) && Goes(w, w', id) && Tries(w, w', q)
  {
    w' := fate(w, Attempt(q));
    One(w, Attempt(q), fate, rules);
    Answer(w, Attempt(q), fate, id);
    TriedGoes(w, w', q, id);
  }

  /** A delivered task of any recording, after a moment. */
  lemma Attempting(w: World, q: Id, id: Id, fate: Fate, rules: Rules) returns (w': World)
    requires Unhindered(w, id) && Orderly(fate, id) && q in w.queue && Claimable(w.db, q)
    ensures Reaches(w, w', fate, rules) && Goes(w, w', id) && Tries(w.(now := w.now + 1), w', q)
  {
    var mid := Waiting(w, id, 1, fate, rules);
    w' := AttemptNow(mid, q, id, fate, rules);
    Then(w, mid, w', fate, rules);
    GoesThen(w, mid, w', id);
  }

  /** The box works a job off. */
  lemma Working(w: World, q: Id, id: Id, fate: Fate, rules: Rules) returns (w': World, result: Result)
    requires Unhindered(w, id) && Orderly(fate, id) && q in w.box && !w.box[q].status.Finished?
    ensures Reaches(w, w', fate, rules) && Goes(w, w', id) && Onward(w, w')
    ensures w' == WorkedOff(w, q, result) && Fitting(result, q == id)
  {
    w' := fate(w, BoxWork(q));
    One(w, BoxWork(q), fate, rules);
    Answer(w, BoxWork(q), fate, id);
    result :| Fitting(result, q == id) && w' == WorkedOff(w, q, result);
    BoxWorkOnward(w, q, result);
    OnwardGoes(w, w', id);
  }

  // --- collections until a result is stored --------------------------------------------------------

  function Collections(n: nat): seq<Move> {
    seq(n, _ => Collect)
  }

  /** The result is off the box, and the row as it should be. */
  ghost predicate CollectedFrom(w: World, w': World, q: Id) {
    && Onward(w, w') && Untouched(w, w') && q !in w'.box && q in w.box
    && (q in w.db.recs ==> w'.db.recs[q].state == StateAfter(Judge(w.db, q, w.box[q].status)))
  }

  lemma CollectedNow(w: World, mid: World, acked: set<Id>, q: Id)
    requires Gives(w, mid, acked) && Onward(w, mid) && q in acked
    ensures CollectedFrom(w, mid, q)
  {
  }

  lemma CollectedLater(w: World, mid: World, w': World, acked: set<Id>, q: Id)
    requires Gives(w, mid, acked) && Onward(w, mid) && CollectedFrom(mid, w', q) && q !in acked && q in Ready(w)
    ensures CollectedFrom(w, w', q)
  {
    OnwardThen(w, mid, w');
  }

  lemma CollectOnce(w: World, fate: Fate, own: Id) returns (mid: World, acked: set<Id>)
    requires Orderly(fate, own) && |Refusable(w)| < MAX_LIST_LIMIT && Ready(w) != {}
    ensures mid == fate(w, Collect) && Gives(w, mid, acked) && Onward(w, mid)
    ensures |Refusable(mid)| < MAX_LIST_LIMIT && |Ready(mid)| < |Ready(w)|
  {
    mid := fate(w, Collect);
    Answer(w, Collect, fate, own);
    acked :| CollectsSome(w, mid, acked);
    RefusableStays(w, mid);
    SomethingStored(w, acked);
  }

  /** `n` whole collections lead there. */
  predicate CollectsTo(w: World, n: nat, fate: Fate, w': World) {
    Playable(w, Collections(n), fate) && Play(w, Collections(n), fate) == w'
  }

  lemma OneMore(w: World, m: nat, fate: Fate, w': World)
    requires CollectsTo(fate(w, Collect), m, fate, w')
    ensures CollectsTo(w, m + 1, fate, w')
  {
    assert Collections(m + 1)[1..] == Collections(m);
  }

  lemma NoMore(w: World, fate: Fate)
    ensures CollectsTo(w, 0, fate, w)
  {
    assert Collections(0) == [];
  }

  /** With fewer refused results on the box than a page has places, a result that can be stored is stored within so many
      whole collections as there are such results, whatever the pages show. */
  lemma {:induction false} EnoughCollections(w: World, q: Id, fate: Fate, own: Id) returns (n: nat, w': World)
    requires Orderly(fate, own) && |Refusable(w)| < MAX_LIST_LIMIT && q in Ready(w)
    ensures n <= |Ready(w)| && CollectsTo(w, n, fate, w') && CollectedFrom(w, w', q)
    decreases |Ready(w)|
  {
    var mid, acked := CollectOnce(w, fate, own);
    if q in acked {
      n, w' := 0, mid;
      NoMore(mid, fate);
      CollectedNow(w, mid, acked, q);
    } else {
      n, w' := EnoughCollections(mid, q, fate, own);
      CollectedLater(w, mid, w', acked, q);
    }
    OneMore(w, n, fate, w');
    n := n + 1;
  }

  lemma SomethingStored(w: World, acked: set<Id>)
    requires acked != {} && acked <= Ready(w)
    ensures |Ready(w) - acked| < |Ready(w)|
  {
    SetSizes(Ready(w) - acked, Ready(w));
  }

  lemma CollectsReach(w: World, n: nat, fate: Fate, w': World, rules: Rules)
    requires CollectsTo(w, n, fate, w')
    ensures Reaches(w, w', fate, rules)
  {
    assert forall m | m in Collections(n) :: Allows(rules, m);
  }

  /** The same as part of a recovery. */
  lemma Collecting(w: World, q: Id, id: Id, fate: Fate, rules: Rules) returns (w': World)
    requires Unhindered(w, id) && Orderly(fate, id) && |Refusable(w)| < MAX_LIST_LIMIT && q in Ready(w)
    ensures Reaches(w, w', fate, rules) && CollectedFrom(w, w', q) && Unhindered(w', id) && Refusable(w') == Refusable(w)
  {
    var n;
    n, w' := EnoughCollections(w, q, fate, id);
    CollectsReach(w, n, fate, w', rules);
    OnwardUnhindered(w, w', id);
    RefusableStays(w, w');
  }

  // --- a row left `pending` with no task ------------------------------------------------------

  function Others(w: World, id: Id, state: RowState): set<Id> {
    set r | r in w.db.recs && r != id && w.db.recs[r].state == state
  }

  /** The pending rows as old as this one or older. */
  function Ahead(w: World, id: Id): set<Id> {
    set r | r in Others(w, id, Pending) && id in w.db.recs && w.db.recs[r].updatedAt <= w.db.recs[id].updatedAt
  }

  /** The row is pending, and no result that could be stored is coming for it. */
  predicate Parked(w: World, r: Id) {
    r in w.db.recs && w.db.recs[r].state == Pending && (r in w.box ==> RefusedFor(w, r))
  }

  /** Row and job are the same. */
  predicate Same(w: World, w': World, r: Id) {
    && r in w.db.recs && r in w'.db.recs && w'.db.recs[r] == w.db.recs[r]
    && (r in w.box <==> r in w'.box) && (r in w.box ==> w'.box[r] == w.box[r])
  }

  lemma ParkedStays(w: World, w': World, r: Id)
    requires Parked(w, r) && Onward(w, w')
    ensures Parked(w', r) && Same(w, w', r)
  {
    assert RowOnward(w, w', r);
    RefusedStays(w, w', r);
  }

  lemma ParkedTried(w: World, w': World, q: Id, r: Id)
    requires Parked(w, r) && Tries(w, w', q) && r != q
    ensures Parked(w', r) && Same(w, w', r)
  {
    TriedElsewhere(w, w', q, r);
  }

  /** Moving onward puts nothing in front of an older row. */
  lemma AheadStays(w: World, w': World, r: Id)
    requires Onward(w, w') && Parked(w, r) && w.db.recs[r].updatedAt < w.now
    ensures Ahead(w', r) <= Ahead(w, r)
  {
    ParkedStays(w, w', r);
    forall q | q in Ahead(w', r) ensures q in Ahead(w, r) {
      assert RowOnward(w, w', q);
    }
  }

  /** The row that was sent and claimed is no longer ahead. */
  lemma Overtaken(w: World, w': World, q: Id, r: Id)
    requires Tries(w, w', q) && q in Ahead(w, r)
    ensures Ahead(w', r) < Ahead(w, r)
  {
    assert q !in Ahead(w', r);
  }

  lemma FirstPending(w: World, w': World, began: int, stuck: seq<Id>, pending: seq<Id>, r: Id) returns (q: Id)
    requires Resent(w, w', began, stuck, pending) && w.cfg.batchLimit > 0
    requires r in Stale(w'.db.recs, Pending, began - w.cfg.stalePending)
    ensures q in w'.queue && q in w'.db.recs && w'.db.recs[q].state == Pending && (q == r || q in Ahead(w', r))
  {
    q := pending[0];
    assert pending[0] in pending && pending[0] in Stale(w'.db.recs, Pending, began - w.cfg.stalePending);
  }

  lemma PendingSent(w: World, mid: World, w': World, began: int, stuck: seq<Id>, pending: seq<Id>, r: Id) returns (q: Id)
    requires Onward(w, mid) && Onward(mid, w') && Resent(mid, w', began, stuck, pending)
    requires Parked(w, r) && w.db.recs[r].updatedAt < w.now - w.cfg.stalePending && w.cfg.batchLimit > 0
    ensures Parked(w', r) && Same(w, w', r) && Ahead(w', r) <= Ahead(w, r)
    ensures q in w'.queue && q in w'.db.recs && w'.db.recs[q].state == Pending && (q == r || q in Ahead(w', r))
  {
    OnwardThen(w, mid, w');
    ParkedStays(w, w', r);
    AheadStays(w, w', r);
    q := FirstPending(mid, w', began, stuck, pending, r);
  }

  /** Time alone changes nothing of this. */
  lemma OnlyTime(w: World, d: nat, r: Id)
    requires Parked(w, r)
    ensures var a := w.(now := w.now + d); Parked(a, r) && Same(w, a, r) && Ahead(a, r) == Ahead(w, r)
  {
    var a := w.(now := w.now + d);
    assert Others(a, r, Pending) == Others(w, r, Pending);
  }

  /** A sweep sends the row or one that is ahead of it, and puts nothing in front of it. */
  lemma SweepPending(w: World, r: Id, id: Id, fate: Fate, rules: Rules) returns (w': World, q: Id)
    requires Unhindered(w, id) && Orderly(fate, id) && Parked(w, r)
    ensures Reaches(w, w', fate, rules) && Goes(w, w', id)
    ensures Parked(w', r) && Same(w, w', r) && Ahead(w', r) <= Ahead(w, r)
    ensures q in w'.queue && q in w'.db.recs && w'.db.recs[q].state == Pending && (q == r || q in Ahead(w', r))
  {
    var a := Waiting(w, id, w.cfg.stalePending + 1, fate, rules);
    OnlyTime(w, w.cfg.stalePending + 1, r);
    var mid, began, stuck, pending;
    w', mid, began, stuck, pending := Sweeping(a, id, fate, rules);
    Then(w, a, w', fate, rules);
    GoesThen(w, a, w', id);
    q := PendingSent(a, mid, w', began, stuck, pending, r);
  }

  /** A pending row gets a task, however many rows are ahead of it and in whatever order rows of equal age come; unless
      the recording that recovery is about is done before. */
  lemma {:induction false} Requeue(w: World, r: Id, id: Id, fate: Fate, rules: Rules) returns (w': World)
    requires Unhindered(w, id) && Orderly(fate, id) && Parked(w, r)
    ensures Reaches(w, w', fate, rules) && Goes(w, w', id)
    ensures IsDone(w', id) || (r in w'.queue && Parked(w', r) && Same(w, w', r))
    decreases |Ahead(w, r)|
  {
    var q;
    w', q := SweepPending(w, r, id, fate, rules);
    if !IsDone(w', id) && r !in w'.queue {
      var mid := w';
      SetSizes(Ahead(mid, r), Ahead(w, r));
      var next := Overtaking(mid, q, r, id, fate, rules);
      w' := Requeue(next, r, id, fate, rules);
      Then(mid, next, w', fate, rules);
      Then(w, mid, w', fate, rules);
      GoesThen(mid, next, w', id);
      GoesThen(w, mid, w', id);
    }
  }

  lemma Overtaking(w: World, q: Id, r: Id, id: Id, fate: Fate, rules: Rules) returns (w': World)
    requires Unhindered(w, id) && Orderly(fate, id) && Parked(w, r)
    requires q in w.queue && q in Ahead(w, r)
    ensures Reaches(w, w', fate, rules) && Goes(w, w', id)
    ensures Parked(w', r) && Same(w, w', r) && |Ahead(w', r)| < |Ahead(w, r)|
  {
    w' := Attempting(w, q, id, fate, rules);
    var a := w.(now := w.now + 1);
    OnlyTime(w, 1, r);
    ParkedTried(a, w', q, r);
    Overtaken(a, w', q, r);
    SetSizes(Ahead(w', r), Ahead(w, r));
  }

  // --- refused results that attempts replace ---------------------------------------------------------

  lemma OneToRelease(w: World, id: Id) returns (r: Id)
    requires |Refusable(w) - {id}| >= MAX_LIST_LIMIT && !Clogged(w, id)
    ensures r in w.box && RefusedFor(w, r) && r != id && Releasable(w, r)
  {
    assert (forall r | r in Refusable(w) - {id} :: !Releasable(w, r)) ==> Refusable(w) - {id} == Clog(w, id);
    r :| r in Refusable(w) - {id} && Releasable(w, r);
  }

  lemma StillReplaceable(w: World, w': World, r: Id, id: Id)
    requires Goes(w, w', id) && Same(w, w', r) && Parked(w', r) && Replaceable(w, r) && r in w.box
    ensures RefusedFor(w', r) && Replaceable(w', r)
  {
  }

  /** A queued task of a recording with other bytes takes its refused result off the box. */
  lemma Releasing(w: World, r: Id, id: Id, fate: Fate, rules: Rules) returns (w': World)
    requires Unhindered(w, id) && Orderly(fate, id) && RefusedFor(w, r) && Replaceable(w, r) && r in w.queue
    ensures Reaches(w, w', fate, rules) && Goes(w, w', id) && |Refusable(w')| < |Refusable(w)|
  {
    w' := Attempting(w, r, id, fate, rules);
    var a := w.(now := w.now + 1);
    TriedHere(a, w', r);
    assert RefusedFor(a, r) && Replaceable(a, r);
    assert r in Refusable(w) && r !in Refusable(w');
    SetSizes(Refusable(w'), Refusable(w));
  }

  /** One of them less, with a task from a sweep if none is queued. */
  lemma ReleaseOne(w: World, r: Id, id: Id, fate: Fate, rules: Rules) returns (w': World)
    requires Unhindered(w, id) && Orderly(fate, id) && RefusedFor(w, r) && Releasable(w, r)
    ensures Reaches(w, w', fate, rules) && Goes(w, w', id)
    ensures IsDone(w', id) || |Refusable(w')| < |Refusable(w)|
  {
    if r in w.queue {
      w' := Releasing(w, r, id, fate, rules);
    } else {
      w' := Requeue(w, r, id, fate, rules);
      if !IsDone(w', id) {
        var mid := w';
        StillReplaceable(w, mid, r, id);
        w' := Releasing(mid, r, id, fate, rules);
        Then(w, mid, w', fate, rules);
        GoesThen(w, mid, w', id);
        SetSizes(Refusable(mid), Refusable(w));
      }
    }
  }

  /** Until pages have room again. */
  lemma {:induction false} Unclog(w: World, id: Id, fate: Fate, rules: Rules) returns (w': World)
    requires Unhindered(w, id) && Orderly(fate, id)
    ensures Reaches(w, w', fate, rules) && Goes(w, w', id)
    ensures IsDone(w', id) || |Refusable(w') - {id}| < MAX_LIST_LIMIT
    decreases |Refusable(w)|
  {
    if |Refusable(w) - {id}| < MAX_LIST_LIMIT {
      w' := w;
      Stay(w, fate, rules);
    } else {
      var r := OneToRelease(w, id);
      w' := ReleaseOne(w, r, id, fate, rules);
      if !IsDone(w', id) {
        var mid := w';
        w' := Unclog(mid, id, fate, rules);
        Then(w, mid, w', fate, rules);
        GoesThen(w, mid, w', id);
      }
    }
  }

  // --- a row left `transcribing` whose job the box has lost ----------------------------------------

  /** The row waits for a job that the box does not have. */
  predicate IsLost(w: World, id: Id) {
    id in w.db.recs && w.db.recs[id].state == Transcribing && id !in w.box
  }

  /** One row fewer is stuck beside `id`, or `id` itself has been taken back and sent. */
  predicate Nearer(w: World, w': World, id: Id) {
    || (IsLost(w', id) && |Others(w', id, Transcribing)| < |Others(w, id, Transcribing)|)
    || (Parked(w', id) && id in w'.queue)
  }

  lemma LostStays(w: World, w': World, id: Id)
    requires Onward(w, w') && IsLost(w, id)
    ensures Others(w', id, Transcribing) <= Others(w, id, Transcribing) && id !in w'.box
    ensures IsLost(w', id) ==> w'.db.recs[id] == w.db.recs[id]
  {
    assert RowOnward(w, w', id);
    forall q | q in Others(w', id, Transcribing) ensures q in Others(w, id, Transcribing) {
      assert RowOnward(w, w', q);
    }
  }

  lemma WorkedIsReady(w: World, q: Id, result: Result)
    requires q in w.box && !w.box[q].status.Finished? && Fitting(result, false)
    ensures q in Ready(WorkedOff(w, q, result))
  {
  }

  /** The job of another row, unless it can never be stored, finishes and is collected. */
  lemma ClearHeld(w: World, q: Id, id: Id, fate: Fate, rules: Rules) returns (w': World)
    requires Unhindered(w, id) && Orderly(fate, id) && |Refusable(w)| < MAX_LIST_LIMIT && IsLost(w, id)
    requires q in Others(w, id, Transcribing) && q in w.box && !RefusedFor(w, q)
    ensures Reaches(w, w', fate, rules) && Goes(w, w', id) && Nearer(w, w', id)
  {
    if w.box[q].status.Finished? {
      w' := ClearFinished(w, q, id, fate, rules);
    } else {
      var mid, result := Working(w, q, id, fate, rules);
      WorkedIsReady(w, q, result);
      RefusableStays(w, mid);
      w' := ClearFinished(mid, q, id, fate, rules);
      Then(w, mid, w', fate, rules);
      GoesThen(w, mid, w', id);
      assert Others(mid, id, Transcribing) == Others(w, id, Transcribing);
    }
  }

  lemma ClearFinished(w: World, q: Id, id: Id, fate: Fate, rules: Rules) returns (w': World)
    requires Unhindered(w, id) && Orderly(fate, id) && |Refusable(w)| < MAX_LIST_LIMIT && IsLost(w, id)
    requires q in Others(w, id, Transcribing) && q in Ready(w)
    ensures Reaches(w, w', fate, rules) && Goes(w, w', id) && Nearer(w, w', id)
  {
    w' := Collecting(w, q, id, fate, rules);
    OnwardGoes(w, w', id);
    LostStays(w, w', id);
    assert q !in Others(w', id, Transcribing);
    SetSizes(Others(w', id, Transcribing), Others(w, id, Transcribing));
  }

  /** If the box holds nothing but refused results for the other stuck rows, the batch of a sweep has a lost row in it,
      whichever of equal age come first, unless the blockers fill it. */
  lemma LostInBatch(w: World, cutoff: int, stuck: seq<Id>, id: Id) returns (r: Id)
    requires IsLost(w, id) && |Blockers(w, id)| < w.cfg.batchLimit && w.db.recs[id].updatedAt < cutoff
    requires IsBatch(w.db.recs, Transcribing, cutoff, w.cfg.batchLimit, stuck)
    requires forall q | q in Others(w, id, Transcribing) && q in w.box :: RefusedFor(w, q)
    ensures r in stuck && r !in w.box && r in w.db.recs && w.db.recs[r].state == Transcribing
  {
    BatchRows(w.db.recs, Transcribing, cutoff, w.cfg.batchLimit, stuck);
    if forall r | r in stuck :: r in w.box {
      FullOfBlockers(w, cutoff, stuck, id);
    }
    r :| r in stuck && r !in w.box;
  }

  lemma FullOfBlockers(w: World, cutoff: int, stuck: seq<Id>, id: Id)
    requires IsLost(w, id) && w.db.recs[id].updatedAt < cutoff
    requires IsBatch(w.db.recs, Transcribing, cutoff, w.cfg.batchLimit, stuck)
    requires forall r | r in stuck :: r in w.box
    requires forall q | q in Others(w, id, Transcribing) && q in w.box :: RefusedFor(w, q)
    ensures |Blockers(w, id)| >= w.cfg.batchLimit
  {
    var stale := Stale(w.db.recs, Transcribing, cutoff);
    forall i | 0 <= i < |stuck| ensures stuck[i] in Blockers(w, id) && stuck[i] in stale - {id} {
      assert stuck[i] in stuck && stuck[i] in stale;
      assert i == |stuck| - 1 || w.db.recs[stuck[i]].updatedAt <= w.db.recs[stuck[|stuck| - 1]].updatedAt;
    }
    AllIn(stuck, Blockers(w, id));
    AllIn(stuck, stale - {id});
  }

  lemma TakenBack(w: World, w': World, began: int, stuck: seq<Id>, pending: seq<Id>, id: Id)
    requires Onward(w, w') && Resent(w, w', began, stuck, pending) && IsLost(w, id)
    requires |Blockers(w, id)| < w.cfg.batchLimit && w.db.recs[id].updatedAt < began - w.cfg.staleSubmitted
    requires forall q | q in Others(w, id, Transcribing) && q in w.box :: RefusedFor(w, q)
    ensures Nearer(w, w', id)
  {
    var r := LostInBatch(w, began - w.cfg.staleSubmitted, stuck, id);
    if id !in stuck {
      LostStays(w, w', id);
      assert r in Others(w, id, Transcribing) && r !in Others(w', id, Transcribing);
      SetSizes(Others(w', id, Transcribing), Others(w, id, Transcribing));
    }
  }

  /** Of the other stuck rows the box holds only refused results. */
  predicate OnlyRefusedHeld(w: World, id: Id) {
    forall q | q in Others(w, id, Transcribing) && q in w.box :: RefusedFor(w, q)
  }

  lemma HeldStays(w: World, w': World, id: Id)
    requires Onward(w, w') && IsLost(w, id) && Untouched(w, w') && OnlyRefusedHeld(w, id)
    ensures IsLost(w', id) && OnlyRefusedHeld(w', id) && w'.db.recs[id] == w.db.recs[id]
    ensures Others(w', id, Transcribing) <= Others(w, id, Transcribing) && Blockers(w', id) == Blockers(w, id)
  {
    LostStays(w, w', id);
    BlockersStay(w, w', id);
    forall q | q in Others(w', id, Transcribing) && q in w'.box ensures RefusedFor(w', q) {
      RefusedStays(w, w', q);
    }
  }

  lemma SweepStuck(w: World, id: Id, fate: Fate, rules: Rules) returns (w': World)
    requires Unhindered(w, id) && Orderly(fate, id) && IsLost(w, id) && OnlyRefusedHeld(w, id)
    ensures Reaches(w, w', fate, rules) && Goes(w, w', id) && Nearer(w, w', id)
  {
    var a := Waiting(w, id, w.cfg.staleSubmitted + 1, fate, rules);
    var mid, began, stuck, pending;
    w', mid, began, stuck, pending := Sweeping(a, id, fate, rules);
    Then(w, a, w', fate, rules);
    GoesThen(w, a, w', id);
    HeldStays(w, a, id);
    HeldStays(a, mid, id);
    TakenBack(mid, w', began, stuck, pending, id);
    SetSizes(Others(mid, id, Transcribing), Others(w, id, Transcribing));
  }

  lemma UnstickOnce(w: World, id: Id, fate: Fate, rules: Rules) returns (w': World)
    requires Unhindered(w, id) && Orderly(fate, id) && |Refusable(w)| < MAX_LIST_LIMIT && IsLost(w, id)
    ensures Reaches(w, w', fate, rules) && Goes(w, w', id) && Nearer(w, w', id)
  {
    if OnlyRefusedHeld(w, id) {
      w' := SweepStuck(w, id, fate, rules);
    } else {
      var q :| q in Others(w, id, Transcribing) && q in w.box && !RefusedFor(w, q);
      w' := ClearHeld(w, q, id, fate, rules);
    }
  }

  /** A lost row gets back to pending, with a task. */
  lemma {:induction false} Unstick(w: World, id: Id, fate: Fate, rules: Rules) returns (w': World)
    requires Unhindered(w, id) && Orderly(fate, id) && |Refusable(w)| < MAX_LIST_LIMIT && IsLost(w, id)
    ensures Reaches(w, w', fate, rules) && Goes(w, w', id) && Parked(w', id) && id in w'.queue
    decreases |Others(w, id, Transcribing)|
  {
    w' := UnstickOnce(w, id, fate, rules);
    if !(Parked(w', id) && id in w'.queue) {
      var mid := w';
      SetSizes(Refusable(mid), Refusable(w));
      w' := Unstick(mid, id, fate, rules);
      Then(w, mid, w', fate, rules);
      GoesThen(w, mid, w', id);
    }
  }

  // --- all the way ---------------------------------------------------------------------------------

  /** Pages have room beside the recording's own result. */
  predicate Roomy(w: World, id: Id) {
    |Refusable(w) - {id}| < MAX_LIST_LIMIT
  }

  lemma StaysRoomy(w: World, w': World, id: Id)
    requires Roomy(w, id) && Refusable(w') <= Refusable(w)
    ensures Roomy(w', id)
  {
    SetSizes(Refusable(w') - {id}, Refusable(w) - {id});
  }

  lemma NotRefusedIsRoomy(w: World, id: Id)
    requires Roomy(w, id) && !RefusedFor(w, id)
    ensures |Refusable(w)| < MAX_LIST_LIMIT
  {
    assert Refusable(w) - {id} == Refusable(w);
  }

  /** The result of `id` is there and a transcript that can be stored: collections store it. */
  lemma FromResult(w: World, id: Id, fate: Fate, rules: Rules) returns (w': World)
    requires Unhindered(w, id) && Orderly(fate, id) && Roomy(w, id) && id in Ready(w) && w.box[id].status.result.Transcript?
    ensures Reaches(w, w', fate, rules) && IsDone(w', id)
  {
    NotRefusedIsRoomy(w, id);
    w' := Collecting(w, id, id, fate, rules);
  }

  lemma FromBox(w: World, id: Id, fate: Fate, rules: Rules) returns (w': World)
    requires Unhindered(w, id) && Orderly(fate, id) && Roomy(w, id) && id in w.box
    requires w.box[id].status.Finished? ==> w.box[id].status.result.Transcript? && !RefusedFor(w, id)
    ensures Reaches(w, w', fate, rules) && IsDone(w', id)
  {
    if w.box[id].status.Finished? {
      w' := FromResult(w, id, fate, rules);
    } else {
      var mid, result := Working(w, id, id, fate, rules);
      WorkedIsReady(w, id, result);
      StaysRoomy(w, mid, id);
      w' := FromResult(mid, id, fate, rules);
      Then(w, mid, w', fate, rules);
    }
  }

  /** One delivered task for a row that may be claimed, and then the box's work and collections. */
  lemma SubmitAndFinish(w: World, id: Id, fate: Fate, rules: Rules) returns (w': World)
    requires Unhindered(w, id) && Orderly(fate, id) && Roomy(w, id)
    requires NotSubmitted(w, id) && Claimable(w.db, id) && id in w.queue
    ensures Reaches(w, w', fate, rules) && IsDone(w', id)
  {
    var mid := Attempting(w, id, id, fate, rules);
    StaysRoomy(w, mid, id);
    w' := FromBox(mid, id, fate, rules);
    Then(w, mid, w', fate, rules);
  }

  /** The box has nothing for the recording, or something that a new submission replaces. */
  lemma FromRow(w: World, id: Id, fate: Fate, rules: Rules) returns (w': World)
    requires Unhindered(w, id) && Orderly(fate, id) && Roomy(w, id)
    requires Parked(w, id) || IsLost(w, id)
    ensures Reaches(w, w', fate, rules) && IsDone(w', id)
  {
    var mid;
    if IsLost(w, id) {
      NotRefusedIsRoomy(w, id);
      mid := Unstick(w, id, fate, rules);
    } else {
      mid := Requeue(w, id, id, fate, rules);
    }
    if IsDone(mid, id) {
      w' := mid;
    } else {
      StaysRoomy(w, mid, id);
      w' := SubmitAndFinish(mid, id, fate, rules);
      Then(w, mid, w', fate, rules);
    }
  }

  lemma FailureIsReady(w: World, id: Id)
    requires Acceptable(w, id) && id in Terminal(w.box) && w.box[id].status.result.Failure?
    ensures id in Ready(w) && !RefusedFor(w, id)
    ensures StateAfter(Judge(w.db, id, w.box[id].status)) == if ReportsFailure(w, id) then Failed else Pending
  {
  }

  /** The failure reported for `id` is collected; the row is pending or failed then. */
  lemma Unburden(w: World, id: Id, fate: Fate, rules: Rules) returns (w': World)
    requires Unhindered(w, id) && Orderly(fate, id) && Roomy(w, id)
    requires id in Terminal(w.box) && w.box[id].status.result.Failure?
    ensures Reaches(w, w', fate, rules) && Unhindered(w', id) && Roomy(w', id) && id !in w'.box
    ensures w'.db.recs[id].state == if ReportsFailure(w, id) then Failed else Pending
  {
    FailureIsReady(w, id);
    NotRefusedIsRoomy(w, id);
    w' := Collecting(w, id, id, fate, rules);
    StaysRoomy(w, w', id);
  }

  lemma WithTaskUnhindered(w: World, id: Id)
    requires Unhindered(w, id)
    ensures Unhindered(WithTask(w, id, true), id) && Refusable(WithTask(w, id, true)) == Refusable(w)
  {
    var w' := WithTask(w, id, true);
    assert Clog(w', id) == Clog(w, id) && Blockers(w', id) == Blockers(w, id);
  }

  /** What recovery comes to: by way of `mid`, and with one more task from there on if need be, to a world `w'` in which
      the recording is done; without that task unless its row has failed or the box reports a failure. */
  ghost predicate Recovers(w: World, id: Id, mid: World, w': World, fate: Fate, rules: Rules) {
    && Reaches(w, mid, fate, rules)
    && (IsDone(mid, id) || (Reaches(WithTask(mid, id, true), w', fate, rules) && IsDone(w', id)))
    && (!Fails(w, id) ==> IsDone(mid, id))
  }

  lemma WithOneTask(w: World, id: Id, fate: Fate, rules: Rules) returns (w': World)
    requires Unhindered(w, id) && Orderly(fate, id) && Roomy(w, id) && NotSubmitted(w, id) && Claimable(w.db, id)
    ensures Reaches(WithTask(w, id, true), w', fate, rules) && IsDone(w', id)
  {
    WithTaskUnhindered(w, id);
    w' := SubmitAndFinish(WithTask(w, id, true), id, fate, rules);
  }

  /** Once pages have room: by the result on the box, or by the row. */
  lemma RecoverRoomy(w: World, id: Id, fate: Fate, rules: Rules) returns (mid: World, w': World)
    requires Unhindered(w, id) && Orderly(fate, id) && Roomy(w, id) && !IsDone(w, id)
    ensures Recovers(w, id, mid, w', fate, rules)
  {
    mid, w' := w, w;
    Stay(w, fate, rules);
    if id in w.box && (w.box[id].status.Finished? ==> w.box[id].status.result.Transcript? && !RefusedFor(w, id)) {
      mid := FromBox(w, id, fate, rules);
    } else {
      if id in Terminal(w.box) && w.box[id].status.result.Failure? {
        mid := Unburden(w, id, fate, rules);
      }
      if mid.db.recs[id].state == Failed {
        w' := WithOneTask(mid, id, fate, rules);
      } else {
        var before := mid;
        mid := FromRow(before, id, fate, rules);
        Then(w, before, mid, fate, rules);
      }
    }
  }

  lemma RecoverFrom(w: World, id: Id, fate: Fate, rules: Rules) returns (mid: World, w': World)
    requires Unhindered(w, id) && Orderly(fate, id)
    ensures Recovers(w, id, mid, w', fate, rules)
  {
    mid := Unclog(w, id, fate, rules);
    w' := mid;
    if !IsDone(mid, id) {
      var before := mid;
      mid, w' := RecoverRoomy(before, id, fate, rules);
      Then(w, before, mid, fate, rules);
    }
  }

  // --- with expiry if need be ----------------------------------------------------------------------

  lemma ReachableIsWellStamped(w: World)
    requires Reachable(w)
    ensures WellStamped(w)
  {
    var start, acts :| Initial(start) && Legal(start, acts) && Run(start, acts) == w;
    RunIsWellStamped(start, acts);
  }

  /** The results that cannot be stored expire. */
  lemma {:induction false} LapseRefused(w: World, own: Id, fate: Fate, rules: Rules) returns (w': World)
    requires Orderly(fate, own) && rules.expiry
    ensures Reaches(w, w', fate, rules) && w' == w.(box := w'.box)
    ensures forall id :: id in w'.box <==> id in w.box && !RefusedFor(w, id)
    ensures forall id | id in w'.box :: w'.box[id] == w.box[id]
    decreases |Refusable(w)|
  {
    if id :| id in Refusable(w) {
      var mid := fate(w, Lapse(id));
      Answer(w, Lapse(id), fate, own);
      One(w, Lapse(id), fate, rules);
      assert Refusable(mid) <= Refusable(w) && id !in Refusable(mid);
      SetSizes(Refusable(mid), Refusable(w));
      w' := LapseRefused(mid, own, fate, rules);
      Then(w, mid, w', fate, rules);
    } else {
      w' := w;
      Stay(w, fate, rules);
      assert forall r | r in w.box :: r !in Refusable(w);
    }
  }

  lemma NothingRefusedIsUnhindered(w: World, w': World, id: Id)
    requires WellStamped(w) && Acceptable(w, id) && w.cfg.batchLimit > 0 && w' == w.(box := w'.box)
    requires forall r :: r in w'.box <==> r in w.box && !RefusedFor(w, r)
    requires forall r | r in w'.box :: w'.box[r] == w.box[r]
    ensures Unhindered(w', id) && (Fails(w', id) <==> Fails(w, id))
  {
    assert forall r :: !RefusedFor(w', r);
    assert Blockers(w', id) == {} && Clog(w', id) == {};
  }

  /** From any world of any run, whatever processes died where, and however everything comes out from there, a recording
      with its event and acceptable audio becomes done: by clock and box work, whole collections, whole sweeps and whole
      attempts alone. Unless its row has failed, or the box says it failed, not even a new task is needed; otherwise one
      is. Results have to expire only if the recording is `Blocked`. */
  lemma NoBlackHole(w: World, id: Id, fate: Fate) returns (mid: World, w': World)
    requires Reachable(w) && w.cfg.batchLimit > 0 && Acceptable(w, id) && Honest(fate, id)
    ensures Recovers(w, id, mid, w', fate, Rules({}, Blocked(w, id)))
  {
    HonestIsOrderly(fate, id);
    ReachableIsWellStamped(w);
    var rules := Rules({}, Blocked(w, id));
    if IsDone(w, id) {
      mid, w' := w, w;
      Stay(w, fate, rules);
    } else if Blocked(w, id) {
      var free := LapseRefused(w, id, fate, rules);
      NothingRefusedIsUnhindered(w, free, id);
      mid, w' := RecoverFrom(free, id, fate, rules);
      Then(w, free, mid, fate, rules);
    } else {
      mid, w' := RecoverFrom(w, id, fate, rules);
    }
  }
}
