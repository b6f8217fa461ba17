/** Recovery needs no less than it asks for: once one of the three things is in the way, everything can come out so that
    it stays in the way, whatever the scheduler does. */
module Exactness {
  import opened Wrappers
  import opened Core
  import opened Protocol
  import opened Paths
  import opened Service
  import opened Effects
  import opened Recovery
  import Collection
  import Submission
  import SweepPass

  // --- every move can come out somehow -----------------------------------------------------------

  /** One more page of a collection, listing any of `ids`. */
  function Listing(s: Collection.Progress, page: seq<Item>): Collection.Visit {
    Collection.Visit(page, seq(|page|, _ => s.now))
  }

  ghost predicate Underway(s: Collection.Progress, visits: seq<Collection.Visit>, last: Collection.Turn) {
    && Collection.Stampings(visits)
    && Collection.Stands(s, FAIR, visits, last, Collection.Collected(s, FAIR, visits))
  }

  lemma OnePage(s: Collection.Progress, visits: seq<Collection.Visit>, page: seq<Item>) returns (last: Collection.Turn)
    requires Underway(s, visits, Collection.More) && IsPage(Collection.Collected(s, FAIR, visits).jobs, page)
    ensures var before := Collection.Collected(s, FAIR, visits);
            Underway(s, visits + [Listing(before, page)], last) &&
            last == Collection.TurnAt(before, FAIR, |visits|, Listing(before, page))
  {
    var before := Collection.Collected(s, FAIR, visits);
    var v := Listing(before, page);
    last := Collection.TurnAt(before, FAIR, |visits|, v);
    Collection.OneMoreVisit(s, FAIR, visits, before, v, last, Collection.Turned(before, FAIR, |visits|, v));
  }

  lemma {:induction false} ToTheEnd(s: Collection.Progress, visits: seq<Collection.Visit>)
    returns (whole: seq<Collection.Visit>, last: Collection.Turn)
    requires Underway(s, visits, Collection.More) && |visits| <= MAX_DRAIN_PAGES
    ensures Underway(s, whole, last) && |whole| <= MAX_DRAIN_PAGES && (last.More? ==> |whole| == MAX_DRAIN_PAGES)
    decreases MAX_DRAIN_PAGES - |visits|
  {
    whole, last := visits, Collection.More;
    if |visits| < MAX_DRAIN_PAGES {
      var before := Collection.Collected(s, FAIR, visits);
      var page := APage(before.jobs, Terminal(before.jobs));
      last := OnePage(s, visits, page);
      whole := visits + [Listing(before, page)];
      if last.More? {
        whole, last := ToTheEnd(s, whole);
      }
    }
  }

  lemma SomeCollection(w: World) returns (w': World)
    ensures Collects(w, w')
  {
    var p := FreshPid(w);
    var visits, last := ToTheEnd(Collection.Outset(w), []);
    w' := Collection.Shown(w, p, FAIR, visits);
    assert CollectsBy(w, p, visits, last, Collection.Collected(Collection.Outset(w), FAIR, visits), w');
  }

  /** The tables after a stuck pass that takes no time. */
  function SuddenDb(w: World, stuck: seq<Id>): Db {
    SweepPass.Taken(w.db, w.box, CLEAR.look, stuck, seq(|stuck|, _ => w.now))
  }

  lemma OthersSame(w: World, stuck: seq<Id>, id: Id)
    requires id in w.db.recs && id !in stuck
    ensures id in SuddenDb(w, stuck).recs && SuddenDb(w, stuck).recs[id] == w.db.recs[id]
  {
    SweepPass.TakenAt(w.db, w.box, CLEAR.look, stuck, seq(|stuck|, _ => w.now), w.now, w.now, id);
  }

  function Sudden(w: World, stuck: seq<Id>, pending: seq<Id>): SweepPass.Pass {
    SweepPass.Pass(w.now, stuck, seq(|stuck|, _ => w.now), pending)
  }

  lemma SuddenPass(w: World, stuck: seq<Id>, pending: seq<Id>)
    requires IsBatch(w.db.recs, Transcribing, w.now - w.cfg.staleSubmitted, w.cfg.batchLimit, stuck)
    requires IsBatch(SuddenDb(w, stuck).recs, RowState.Pending, w.now - w.cfg.stalePending, w.cfg.batchLimit, pending)
    ensures SweepPass.Passes(w.db, w.box, w.now, w.cfg, CLEAR, Sudden(w, stuck, pending), SuddenDb(w, stuck))
  {
  }

  lemma SuddenRedrive(w: World, stuck: seq<Id>, pending: seq<Id>) returns (w': World)
    requires SweepPass.Passes(w.db, w.box, w.now, w.cfg, CLEAR, Sudden(w, stuck, pending), SuddenDb(w, stuck))
    ensures Redrives(w, w') && w'.db == SuddenDb(w, stuck)
  {
    w' := SweepPass.Redriven(w, CLEAR, Sudden(w, stuck, pending), SuddenDb(w, stuck));
    RedrivenBy(w, Sudden(w, stuck, pending), w');
  }

  lemma RedrivenBy(w: World, pass: SweepPass.Pass, w': World)
    requires RedrivesBy(w, pass, w')
    ensures Redrives(w, w')
  {
  }

  /** The rest of a sweep whose first query answers with this batch. */
  lemma SomeRedrive(w: World, stuck: seq<Id>) returns (w': World)
    requires IsBatch(w.db.recs, Transcribing, w.now - w.cfg.staleSubmitted, w.cfg.batchLimit, stuck)
    ensures Redrives(w, w') && w'.db == SuddenDb(w, stuck)
  {
    var pending := ABatch(SuddenDb(w, stuck).recs, RowState.Pending, w.now - w.cfg.stalePending, w.cfg.batchLimit);
    SuddenPass(w, stuck, pending);
    w' := SuddenRedrive(w, stuck, pending);
  }

  lemma AnyRedrive(w: World) returns (w': World)
    ensures Redrives(w, w')
  {
    var stuck := ABatch(w.db.recs, Transcribing, w.now - w.cfg.staleSubmitted, w.cfg.batchLimit);
    w' := SomeRedrive(w, stuck);
  }

  lemma SomeSweep(w: World) returns (w': World)
    ensures Sweeps(w, w')
  {
    var mid := SomeCollection(w);
    w' := AnyRedrive(mid);
  }

  lemma SomeAttempt(w: World, id: Id) returns (w': World)
    ensures Attempts(w, id, w')
  {
    w' := Submission.Attempted(w, id, CALM, w.now, w.now);
  }

  lemma SomeWork(w: World, id: Id, own: Id) returns (w': World)
    requires Can(w, BoxWork(id))
    ensures Could(w, BoxWork(id), w', own)
  {
    w' := WorkedOff(w, id, Transcript(Some("")));
    assert Fitting(Transcript(Some("")), id == own);
  }

  lemma SomeAnswer(w: World, m: Move, own: Id) returns (w': World)
    requires Can(w, m)
    ensures Could(w, m, w', own)
  {
    match m
    case Wait(to) => w' := w.(now := to);
    case BoxWork(id) => w' := SomeWork(w, id, own);
    case Collect => w' := SomeCollection(w);
    case FullSweep => w' := SomeSweep(w);
    case Attempt(id) => w' := SomeAttempt(w, id);
    case NewTask(id) => w' := WithTask(w, id, true);
    case Lapse(id) => w' := w.(box := w.box - {id});
  }

  // --- and so that what is in the way stays there -------------------------------------------------

  lemma StallPage(w: World, clog: set<Id>) returns (page: seq<Item>)
    requires clog <= Refusable(w) && |clog| >= MAX_LIST_LIMIT
    ensures IsPage(w.box, page) && forall it | it in page :: Judge(w.db, it.id, it.status) == Refused
  {
    page := APage(w.box, clog);
    forall it | it in page ensures Judge(w.db, it.id, it.status) == Refused {
      assert it.id in Ids(page);
    }
  }

  /** The page that `collect_stalled` reports. */
  lemma Stalls(w: World, clog: set<Id>)
    requires clog <= Refusable(w) && |clog| >= MAX_LIST_LIMIT
    ensures Collects(w, w)
  {
    var s := Collection.Outset(w);
    var page := StallPage(w, clog);
    var p := FreshPid(w);
    var v := Listing(s, page);
    var last := OnePage(s, [], page);
    assert [] + [v] == [v];
    StalledWorld(w, v, p);
    assert CollectsBy(w, p, [v], last, Collection.Collected(s, FAIR, [v]), w);
  }

  lemma StalledWorld(w: World, v: Collection.Visit, p: Pid)
    requires v == Listing(Collection.Outset(w), v.page)
    requires forall it | it in v.page :: Judge(w.db, it.id, it.status) == Refused
    ensures Collection.Shown(w, p, FAIR, [v]) == w && Collection.TurnAt(Collection.Outset(w), FAIR, 0, v).Stop?
  {
    NothingStored(w.db, v.page, FAIR.fault(0), v.ts, p);
    OneVisit(Collection.Outset(w), v, p);
  }

  lemma OneVisit(s: Collection.Progress, v: Collection.Visit, p: Pid)
    requires |v.ts| == |v.page|
    ensures Collection.Collected(s, FAIR, [v]) == Collection.Turned(s, FAIR, 0, v)
    ensures Collection.CollectedLog(s, FAIR, [v], p) == Collection.PageLog(s.db, v.page, FAIR.fault(0), v.ts, p)
  {
    assert [v][..0] == [];
  }

  lemma {:induction false} NothingStored(db: Db, page: seq<Item>, fault: Id -> Fault, ts: seq<int>, p: Pid)
    requires |ts| == |page| && forall it | it in page :: Judge(db, it.id, it.status) == Refused
    ensures Collection.PageDb(db, page, fault, ts) == db && Collection.PageHeld(db, page, fault, ts) == []
    ensures Collection.PageLog(db, page, fault, ts, p) == []
    decreases |page|
  {
    if page != [] {
      NothingStored(db, page[..|page| - 1], fault, ts[..|page| - 1], p);
    }
  }

  // --- one of the three stays in the way -----------------------------------------------------------

  lemma StuckStays(w: World, w': World, id: Id)
    requires Onward(w, w') && OwnResultStuck(w, id)
    ensures OwnResultStuck(w', id) && !IsDone(w', id)
  {
    RefusedStays(w, w', id);
    ReplaceableStays(w, w', id);
  }

  lemma StuckTried(w: World, w': World, q: Id, id: Id)
    requires Tries(w, w', q) && Claimable(w.db, q) && OwnResultStuck(w, id)
    ensures OwnResultStuck(w', id) && !IsDone(w', id)
  {
    if q == id {
      TriedHere(w, w', id);
    } else {
      TriedElsewhere(w, w', q, id);
    }
  }

  /** As long as the row itself is left alone. */
  lemma CrowdStays(w: World, w': World, id: Id)
    requires Onward(w, w') && id in w.db.recs && Crowded(w, id) && w'.db.recs[id] == w.db.recs[id]
    ensures Crowded(w', id)
  {
    BlockersStay(w, w', id);
  }

  lemma CrowdTried(w: World, w': World, q: Id, id: Id)
    requires Tries(w, w', q) && Claimable(w.db, q) && id in w.db.recs && Crowded(w, id)
    ensures Crowded(w', id)
  {
    forall r | r in Blockers(w, id) ensures r in Blockers(w', id) {
      TriedElsewhere(w, w', q, r);
    }
    SetSizes(Blockers(w, id), Blockers(w', id));
  }

  lemma CrowdCollects(w: World, id: Id) returns (w': World)
    requires id in w.db.recs && Crowded(w, id)
    ensures Collects(w, w') && id in w'.db.recs && Crowded(w', id)
  {
    w' := SomeCollection(w);
    var acked := CollectGives(w, w');
    CrowdStays(w, w', id);
  }

  /** A sweep whose batch the blockers fill. */
  lemma CrowdRedrives(w: World, id: Id) returns (w': World)
    requires id in w.db.recs && Crowded(w, id)
    ensures Redrives(w, w') && id in w'.db.recs && Crowded(w', id)
  {
    var stuck := ABatchWithout(w.db.recs, Transcribing, w.now - w.cfg.staleSubmitted, w.cfg.batchLimit, id, Blockers(w, id));
    w' := SomeRedrive(w, stuck);
    OthersSame(w, stuck, id);
    var began, stuck', pending := RedriveGives(w, w');
    CrowdStays(w, w', id);
  }

  lemma ClogRedrives(w: World, id: Id) returns (w': World)
    requires id in w.db.recs && Clogged(w, id) && !IsDone(w, id)
    ensures Redrives(w, w') && Clogged(w', id) && id in w'.db.recs && !IsDone(w', id)
  {
    w' := AnyRedrive(w);
    var began, stuck, pending := RedriveGives(w, w');
    ClogStays(w, w', id);
  }

  lemma ClogTries(w: World, w': World, q: Id, id: Id)
    requires Tries(w, w', q) && Claimable(w.db, q) && q in w.queue && id in w.db.recs && Clogged(w, id) && !IsDone(w, id)
    ensures Clogged(w', id) && id in w'.db.recs && !IsDone(w', id)
  {
    ClogTried(w, w', q, id);
  }

  /** What the scheduler may do without expiry and without new tasks for others. */
  predicate Permitted(m: Move, id: Id) {
    Allows(Rules({id}, false), m)
  }

  lemma WaitBlocks(w: World, to: int, id: Id)
    requires id in w.db.recs && Blocked(w, id) && w.now <= to
    ensures Blocked(w.(now := to), id)
  {
    var w' := w.(now := to);
    WaitOnward(w, to);
    ClogStays(w, w', id);
    BlockersStay(w, w', id);
    if OwnResultStuck(w, id) {
      StuckStays(w, w', id);
    }
  }

  lemma WorkBlocks(w: World, q: Id, id: Id) returns (w': World)
    requires id in w.db.recs && Blocked(w, id) && Can(w, BoxWork(q))
    ensures Could(w, BoxWork(q), w', id) && id in w'.db.recs && Blocked(w', id)
  {
    w' := SomeWork(w, q, id);
    var result :| Fitting(result, q == id) && w' == WorkedOff(w, q, result);
    BoxWorkOnward(w, q, result);
    ClogStays(w, w', id);
    BlockersStay(w, w', id);
    if OwnResultStuck(w, id) {
      StuckStays(w, w', id);
    }
  }

  lemma TaskBlocks(w: World, id: Id)
    requires id in w.db.recs && Blocked(w, id)
    ensures Blocked(WithTask(w, id, true), id)
  {
    var w' := WithTask(w, id, true);
    assert Clog(w', id) == Clog(w, id) && Blockers(w', id) == Blockers(w, id);
  }

  lemma CollectBlocks(w: World, id: Id) returns (w': World)
    requires id in w.db.recs && Blocked(w, id)
    ensures Collects(w, w') && id in w'.db.recs && Blocked(w', id)
  {
    if OwnResultStuck(w, id) {
      w' := SomeCollection(w);
      var acked := CollectGives(w, w');
      StuckStays(w, w', id);
    } else if Crowded(w, id) {
      w' := CrowdCollects(w, id);
    } else {
      w' := w;
      Stalls(w, Clog(w, id));
    }
  }

  lemma RedriveBlocks(w: World, id: Id) returns (w': World)
    requires id in w.db.recs && Blocked(w, id)
    ensures Redrives(w, w') && id in w'.db.recs && Blocked(w', id)
  {
    if OwnResultStuck(w, id) {
      w' := AnyRedrive(w);
      var began, stuck, pending := RedriveGives(w, w');
      StuckStays(w, w', id);
    } else if Crowded(w, id) {
      w' := CrowdRedrives(w, id);
    } else {
      w' := ClogRedrives(w, id);
    }
  }

  lemma AttemptBlocks(w: World, q: Id, id: Id) returns (w': World)
    requires id in w.db.recs && Blocked(w, id) && Can(w, Attempt(q))
    ensures Attempts(w, q, w') && id in w'.db.recs && Blocked(w', id)
  {
    w' := SomeAttempt(w, q);
    AttemptGives(w, w', q);
    if OwnResultStuck(w, id) {
      StuckTried(w, w', q, id);
    } else if Crowded(w, id) {
      CrowdTried(w, w', q, id);
    } else {
      ClogTries(w, w', q, id);
    }
  }

  /** Every move can come out so that the recording stays blocked. */
  lemma StaysBlocked(w: World, m: Move, id: Id) returns (w': World)
    requires id in w.db.recs && Blocked(w, id) && Can(w, m) && Permitted(m, id)
    ensures Could(w, m, w', id) && id in w'.db.recs && Blocked(w', id)
  {
    match m
    case Wait(to) =>
      WaitBlocks(w, to, id);
      w' := w.(now := to);
    case BoxWork(q) => w' := WorkBlocks(w, q, id);
    case Collect => w' := CollectBlocks(w, id);
    case FullSweep =>
      var mid := CollectBlocks(w, id);
      w' := RedriveBlocks(mid, id);
    case Attempt(q) => w' := AttemptBlocks(w, q, id);
    case NewTask(q) =>
      TaskBlocks(w, id);
      w' := WithTask(w, id, true);
    case Lapse(_) => w' := w;
  }

  // --- the theorem -----------------------------------------------------------------------------------

  /** An honest answer, as bad as possible. */
  ghost predicate Spiteful(w: World, m: Move, w': World, id: Id)
    requires Can(w, m)
  {
    && Could(w, m, w', id)
    && (id in w.db.recs && Blocked(w, id) && Permitted(m, id) ==> id in w'.db.recs && Blocked(w', id))
  }

  lemma SpiteExists(w: World, m: Move, id: Id)
    requires Can(w, m)
    ensures exists w' :: Spiteful(w, m, w', id)
  {
    var w';
    if id in w.db.recs && Blocked(w, id) && Permitted(m, id) {
      w' := StaysBlocked(w, m, id);
    } else {
      w' := SomeAnswer(w, m, id);
    }
    assert Spiteful(w, m, w', id);
  }

  ghost function Worst(w: World, m: Move, id: Id): (w': World)
    ensures Can(w, m) ==> Spiteful(w, m, w', id)
  {
    if Can(w, m) then
      SpiteExists(w, m, id);
      var w' :| Spiteful(w, m, w', id);
      w'
    else w
  }

  /** So there is an honest fate, and one under which a blocked recording stays blocked. */
  lemma WorstFate(id: Id) returns (fate: Fate)
    ensures Honest(fate, id)
    ensures forall w, m | Can(w, m) :: Spiteful(w, m, fate(w, m), id)
  {
    fate := (w, m) => Worst(w, m, id);
  }

  lemma {:induction false} StaysUndone(w: World, moves: seq<Move>, fate: Fate, id: Id)
    requires forall w, m | Can(w, m) :: Spiteful(w, m, fate(w, m), id)
    requires id in w.db.recs && Blocked(w, id) && Playable(w, moves, fate) && forall m | m in moves :: Permitted(m, id)
    ensures !IsDone(Play(w, moves, fate), id)
    decreases |moves|
  {
    if moves != [] {
      assert Spiteful(w, moves[0], fate(w, moves[0]), id);
      StaysUndone(fate(w, moves[0]), moves[1..], fate, id);
    }
  }

  /** However everything comes out, without expiry and with new tasks for it alone, the recording becomes done. */
  ghost predicate Finishable(w: World, id: Id) {
    forall fate | Honest(fate, id) :: exists w' :: Reaches(w, w', fate, Rules({id}, false)) && IsDone(w', id)
  }

  lemma BlockedIsNotFinishable(w: World, id: Id)
    requires id in w.db.recs && Blocked(w, id)
    ensures !Finishable(w, id)
  {
    var fate := WorstFate(id);
    forall w' | Reaches(w, w', fate, Rules({id}, false)) ensures !IsDone(w', id) {
      var moves :| Playable(w, moves, fate) && Play(w, moves, fate) == w'
                   && forall m | m in moves :: Allows(Rules({id}, false), m);
      StaysUndone(w, moves, fate, id);
    }
  }

  lemma UnhinderedIsFinishable(w: World, id: Id, fate: Fate) returns (w': World)
    requires Unhindered(w, id) && Honest(fate, id)
    ensures Reaches(w, w', fate, Rules({id}, false)) && IsDone(w', id)
  {
    var rules := Rules({id}, false);
    HonestIsOrderly(fate, id);
    var mid;
    mid, w' := RecoverFrom(w, id, fate, rules);
    if IsDone(mid, id) {
      w' := mid;
    } else {
      One(mid, NewTask(id), fate, rules);
      Answer(mid, NewTask(id), fate, id);
      Then(w, mid, WithTask(mid, id, true), fate, rules);
      Then(w, WithTask(mid, id, true), w', fate, rules);
    }
  }

  /** In every reachable world: a recording with its event and acceptable audio becomes done without expiry and without a
      new task for anybody else, however pages, batches, times and the box's work come out, if and only if it is not
      `Blocked`. */
  lemma FinishableExactly(w: World, id: Id)
    requires Reachable(w) && w.cfg.batchLimit > 0 && Acceptable(w, id)
    ensures Finishable(w, id) <==> !Blocked(w, id)
  {
    ReachableIsWellStamped(w);
    if Blocked(w, id) {
      BlockedIsNotFinishable(w, id);
    } else {
      forall fate | Honest(fate, id) ensures exists w' :: Reaches(w, w', fate, Rules({id}, false)) && IsDone(w', id) {
        if IsDone(w, id) {
          Stay(w, fate, Rules({id}, false));
        } else {
          var w' := UnhinderedIsFinishable(w, id, fate);
        }
      }
    }
  }
}
