/** A stale `pending` row is not overtaken for ever. */
module Fairness {
  import opened Wrappers
  import opened Core
  import opened Protocol
  import opened Stamps
  import opened Recovery
  import SweepBounds

  /** One sweep at the moment it selects its pending rows. */
  datatype Round = Round(began: int, at: World, picked: seq<Id>)

  ghost predicate Selects(r: Round) {
    && r.began <= r.at.now
    && IsBatch(r.at.db.recs, Pending, r.began - r.at.cfg.stalePending, r.at.cfg.batchLimit, r.picked)
  }

  ghost predicate ClaimedSince(w: World, w': World, id: Id) {
    exists k :: |w.log| <= k < |w'.log| && w'.log[k] == ClaimWon(id)
  }

  /** Between two sweeps anything may run, and every task the first one queued has claimed its row
      (or the row was deleted). */
  ghost predicate Follows(r: Round, acts: seq<Act>, next: Round) {
    && Legal(r.at, acts) && Run(r.at, acts) == next.at
    && r.at.now <= next.began
    && (forall id | id in r.picked :: ClaimedSince(r.at, next.at, id) || id !in next.at.db.recs)
  }

  /** The row is pending with stamp `u`. */
  predicate Waits(w: World, id: Id, u: int) {
    id in w.db.recs && w.db.recs[id].state == Pending && w.db.recs[id].updatedAt == u
  }

  lemma ClaimStampsNow(w: World, p: Pid, x: WorkMove, id: Id)
    requires CanWork(w, p, x) && ClaimedSince(w, DoWork(w, p, x), id)
    ensures id in DoWork(w, p, x).db.recs && DoWork(w, p, x).db.recs[id].updatedAt == w.now
  {
  }

  lemma OnlyWorkersClaim(w: World, a: Act, id: Id)
    requires Enabled(w, a) && ClaimedSince(w, Do(w, a), id)
    ensures a.Work?
  {
  }

  /** A row claimed during a run carries, if it is still there, a stamp from that run. */
  lemma {:induction false} ClaimRestamps(w: World, acts: seq<Act>, id: Id)
    requires Legal(w, acts) && ClaimedSince(w, Run(w, acts), id)
    ensures id in Run(w, acts).db.recs ==> Run(w, acts).db.recs[id].updatedAt >= w.now
    decreases |acts|
  {
    if acts != [] {
      var next := Do(w, acts[0]);
      StepStamps(w, acts[0]);
      RunMovesOn(next, acts[1..]);
      if ClaimedSince(w, next, id) {
        OnlyWorkersClaim(w, acts[0], id);
        ClaimStampsNow(w, acts[0].p, acts[0].x, id);
      } else {
        LogGrows(w, acts);
        ClaimRestamps(next, acts[1..], id);
      }
    }
  }

  lemma {:induction false} LogGrows(w: World, acts: seq<Act>)
    requires Legal(w, acts)
    ensures w.log <= Run(w, acts).log
    ensures acts != [] ==> Do(w, acts[0]).log <= Run(w, acts).log
    decreases |acts|
  {
    if acts != [] {
      assert w.log <= Do(w, acts[0]).log;
      LogGrows(Do(w, acts[0]), acts[1..]);
    }
  }

  /** A sweep that passes the row over fills its batch with rows that are ahead of it. */
  lemma PassedOver(r: Round, id: Id, u: int)
    requires Selects(r) && Waits(r.at, id, u) && u < r.began - r.at.cfg.stalePending && id !in r.picked
    ensures |r.picked| == r.at.cfg.batchLimit && Distinct(r.picked)
    ensures forall i | 0 <= i < |r.picked| :: r.picked[i] in Ahead(r.at, id)
  {
    var stale := Stale(r.at.db.recs, Pending, r.began - r.at.cfg.stalePending);
    assert id in stale;
    assert forall i | 0 <= i < |r.picked| :: r.picked[i] in stale;
    if |r.picked| == |stale| {
      var rest := stale - {id};
      assert |rest| < |stale|;
      AllIn(r.picked, rest);
    }
  }

  /** Those rows do not come back in front of it. */
  lemma AheadShrinks(r: Round, acts: seq<Act>, next: Round, id: Id, u: int)
    requires Selects(r) && Follows(r, acts, next)
    requires Waits(r.at, id, u) && Waits(next.at, id, u) && u < r.began - r.at.cfg.stalePending && id !in r.picked
    ensures |Ahead(next.at, id)| + r.at.cfg.batchLimit <= |Ahead(r.at, id)|
  {
    PassedOver(r, id, u);
    RunMovesOn(r.at, acts);
    var gone := set i | 0 <= i < |r.picked| :: r.picked[i];
    forall q | q in Ahead(next.at, id) ensures q in Ahead(r.at, id) && q !in gone {
      if q in gone && ClaimedSince(r.at, next.at, q) {
        ClaimRestamps(r.at, acts, q);
      }
    }
    AllIn(r.picked, gone);
    assert gone <= Ahead(r.at, id);
    SetSizes(Ahead(next.at, id), Ahead(r.at, id) - gone);
  }

  ghost predicate Schedule(rounds: seq<Round>, runs: seq<seq<Act>>) {
    && |runs| + 1 == |rounds|
    && (forall i | 0 <= i < |rounds| :: Selects(rounds[i]) && rounds[i].at.cfg == rounds[0].at.cfg)
    && (forall i | 0 <= i < |runs| :: Follows(rounds[i], runs[i], rounds[i + 1]))
  }

  function InFront(rounds: seq<Round>, id: Id, i: nat): nat
    requires i < |rounds|
  {
    |Ahead(rounds[i].at, id)|
  }

  lemma {:induction false} BeginsLater(rounds: seq<Round>, runs: seq<seq<Act>>, k: nat)
    requires Schedule(rounds, runs) && k < |rounds|
    ensures rounds[0].began <= rounds[k].began
    decreases k
  {
    if k > 0 {
      BeginsLater(rounds, runs, k - 1);
      BeginsAfter(rounds[k - 1], runs[k - 1], rounds[k]);
    }
  }

  lemma BeginsAfter(r: Round, acts: seq<Act>, next: Round)
    requires Selects(r) && Follows(r, acts, next)
    ensures r.began <= next.began
  {
  }

  /** As long as the row waits and is passed over, each sweep takes `limit` rows away from in front of it. */
  lemma StepDown(rounds: seq<Round>, runs: seq<seq<Act>>, id: Id, u: int, i: nat)
    requires Schedule(rounds, runs) && i < |runs| && u < rounds[0].began - rounds[0].at.cfg.stalePending
    requires Waits(rounds[i].at, id, u) && Waits(rounds[i + 1].at, id, u) && id !in rounds[i].picked
    ensures InFront(rounds, id, i + 1) + rounds[0].at.cfg.batchLimit <= InFront(rounds, id, i)
  {
    BeginsLater(rounds, runs, i);
    AheadShrinks(rounds[i], runs[i], rounds[i + 1], id, u);
  }

  lemma {:induction false} Countdown(rounds: seq<Round>, id: Id, limit: nat, k: nat)
    requires k < |rounds|
    requires forall i: nat | i < k :: InFront(rounds, id, i + 1) + limit <= InFront(rounds, id, i)
    ensures InFront(rounds, id, k) + k * limit <= InFront(rounds, id, 0)
    decreases k
  {
    if k > 0 {
      Countdown(rounds, id, limit, k - 1);
      assert InFront(rounds, id, k - 1 + 1) + limit <= InFront(rounds, id, k - 1);
    }
  }

  /** Passed over in every round so far, it still has a whole batch in front of it. */
  lemma StillBehind(rounds: seq<Round>, runs: seq<seq<Act>>, id: Id, u: int, k: nat)
    requires Schedule(rounds, runs) && k < |rounds| && u < rounds[0].began - rounds[0].at.cfg.stalePending
    requires forall i: nat | i <= k :: id !in rounds[i].picked && Waits(rounds[i].at, id, u)
    ensures (k + 1) * rounds[0].at.cfg.batchLimit <= InFront(rounds, id, 0)
  {
    var limit := rounds[0].at.cfg.batchLimit;
    forall i: nat | i < k ensures InFront(rounds, id, i + 1) + limit <= InFront(rounds, id, i) {
      StepDown(rounds, runs, id, u, i);
    }
    Countdown(rounds, id, limit, k);
    BeginsLater(rounds, runs, k);
    PassedOver(rounds[k], id, u);
    AllIn(rounds[k].picked, Ahead(rounds[k].at, id));
  }

  /** Within the first `k + 1` sweeps the row was picked, or something else moved it. */
  ghost predicate ReachedWithin(rounds: seq<Round>, id: Id, u: int, k: nat) {
    exists i: nat :: i <= k && i < |rounds| && (id in rounds[i].picked || !Waits(rounds[i].at, id, u))
  }

  lemma ReachedInTime(rounds: seq<Round>, runs: seq<seq<Act>>, id: Id, u: int, k: nat, within: nat)
    requires Schedule(rounds, runs) && k < |rounds| && u < rounds[0].began - rounds[0].at.cfg.stalePending
    requires within == (k + 1) * rounds[0].at.cfg.batchLimit && InFront(rounds, id, 0) < within
    ensures ReachedWithin(rounds, id, u, k)
  {
    if !ReachedWithin(rounds, id, u, k) {
      StillBehind(rounds, runs, id, u, k);
    }
  }

  /** With `m` stale pending rows as old or older in front of it, a stale pending row is picked, or has been moved
      by something else, within `m / limit + 1` sweeps. */
  lemma PendingIsFair(rounds: seq<Round>, runs: seq<seq<Act>>, id: Id, u: int, m: nat, limit: nat, k: nat)
    requires limit > 0 && k == m / limit
    requires Schedule(rounds, runs) && rounds[0].at.cfg.batchLimit == limit
    requires Waits(rounds[0].at, id, u) && u < rounds[0].began - rounds[0].at.cfg.stalePending
    requires m == InFront(rounds, id, 0) && |rounds| > k
    ensures ReachedWithin(rounds, id, u, k)
  {
    var k', within := Remainder(m, limit);
    ReachedInTime(rounds, runs, id, u, k, within);
  }

  lemma Remainder(m: nat, limit: nat) returns (k: nat, within: nat)
    requires limit > 0
    ensures k == m / limit && within == (k + 1) * limit && m < within
  {
    k, within := m / limit, (m / limit + 1) * limit;
  }

  // --- the sweeps of a run -------------------------------------------------------------------

  /** At the positions `at` of a run, in order, sweeps select their pending rows. */
  ghost predicate Marked(start: World, acts: seq<Act>, at: seq<nat>) {
    && Initial(start) && Legal(start, acts)
    && (forall i, j | 0 <= i < j < |at| :: at[i] < at[j])
    && (forall i | 0 <= i < |at| ::
          && at[i] < |acts| && acts[at[i]].Sweep? && acts[at[i]].s.Select? && Legal(start, acts[..at[i]])
          && Enabled(Run(start, acts[..at[i]]), acts[at[i]]))
  }

  /** The sweep that selects at position `k`. */
  ghost function RoundAt(start: World, acts: seq<Act>, k: nat): Round
    requires k < |acts| && acts[k].Sweep? && acts[k].s.Select? && Legal(start, acts[..k])
    requires Enabled(Run(start, acts[..k]), acts[k])
  {
    var w := Run(start, acts[..k]);
    Round(w.procs[acts[k].p].began, w, acts[k].s.pending)
  }

  ghost function Rounds(start: World, acts: seq<Act>, at: seq<nat>): seq<Round>
    requires Marked(start, acts, at)
  {
    seq(|at|, i requires 0 <= i < |at| => RoundAt(start, acts, at[i]))
  }

  ghost function Between(start: World, acts: seq<Act>, at: seq<nat>): seq<seq<Act>>
    requires Marked(start, acts, at) && at != []
  {
    seq(|at| - 1, i requires 0 <= i < |at| - 1 => acts[at[i]..at[i + 1]])
  }

  /** The two hypotheses on a run: a sweep begins after the one before it has selected, and by the time it selects, every
      task that one queued has claimed its row, or the row is gone. */
  ghost predicate Spaced(rounds: seq<Round>) {
    forall i | 0 <= i < |rounds| - 1 ::
      && rounds[i].at.now <= rounds[i + 1].began
      && (forall id | id in rounds[i].picked ::
            ClaimedSince(rounds[i].at, rounds[i + 1].at, id) || id !in rounds[i + 1].at.db.recs)
  }

  lemma RoundSelects(start: World, acts: seq<Act>, k: nat)
    requires Initial(start) && k < |acts| && acts[k].Sweep? && acts[k].s.Select? && Legal(start, acts[..k])
    requires Enabled(Run(start, acts[..k]), acts[k])
    ensures Selects(RoundAt(start, acts, k)) && RoundAt(start, acts, k).at.cfg == start.cfg
  {
    SweepBounds.RunKeeps(start, acts[..k]);
    var w := Run(start, acts[..k]);
    assert SweepBounds.Paced(w, w.procs[acts[k].p]);
  }

  lemma RunBetween(start: World, acts: seq<Act>, k: nat, l: nat)
    requires k <= l <= |acts| && Legal(start, acts) && Legal(start, acts[..k]) && Legal(start, acts[..l])
    ensures Legal(Run(start, acts[..k]), acts[k..l])
    ensures Run(Run(start, acts[..k]), acts[k..l]) == Run(start, acts[..l])
  {
    Split(start, acts[..l], k);
    assert acts[..l][..k] == acts[..k] && acts[..l][k..] == acts[k..l];
  }

  lemma RoundIs(start: World, acts: seq<Act>, at: seq<nat>, i: nat)
    requires Marked(start, acts, at) && i < |at|
    ensures Rounds(start, acts, at)[i] == RoundAt(start, acts, at[i])
    ensures i + 1 < |at| ==> Between(start, acts, at)[i] == acts[at[i]..at[i + 1]]
  {
  }

  lemma RoundFollows(start: World, acts: seq<Act>, at: seq<nat>, i: nat)
    requires Marked(start, acts, at) && i + 1 < |at| && Spaced(Rounds(start, acts, at))
    ensures Follows(Rounds(start, acts, at)[i], Between(start, acts, at)[i], Rounds(start, acts, at)[i + 1])
  {
    RunBetween(start, acts, at[i], at[i + 1]);
    RoundIs(start, acts, at, i);
    RoundIs(start, acts, at, i + 1);
  }

  lemma EachSelects(start: World, acts: seq<Act>, at: seq<nat>)
    requires Marked(start, acts, at)
    ensures forall i | 0 <= i < |at| ::
              Selects(Rounds(start, acts, at)[i]) && Rounds(start, acts, at)[i].at.cfg == start.cfg
  {
    forall i | 0 <= i < |at|
      ensures Selects(Rounds(start, acts, at)[i]) && Rounds(start, acts, at)[i].at.cfg == start.cfg
    {
      RoundSelects(start, acts, at[i]);
    }
  }

  lemma EachFollows(start: World, acts: seq<Act>, at: seq<nat>)
    requires Marked(start, acts, at) && at != [] && Spaced(Rounds(start, acts, at))
    ensures forall i | 0 <= i < |at| - 1 ::
              Follows(Rounds(start, acts, at)[i], Between(start, acts, at)[i], Rounds(start, acts, at)[i + 1])
  {
    forall i | 0 <= i < |at| - 1
      ensures Follows(Rounds(start, acts, at)[i], Between(start, acts, at)[i], Rounds(start, acts, at)[i + 1])
    {
      RoundFollows(start, acts, at, i);
    }
  }

  /** The sweeps of a run, spaced like that, are a schedule. */
  lemma SweepsAreSchedule(start: World, acts: seq<Act>, at: seq<nat>)
    requires Marked(start, acts, at) && at != [] && Spaced(Rounds(start, acts, at))
    ensures Schedule(Rounds(start, acts, at), Between(start, acts, at))
  {
    EachSelects(start, acts, at);
    EachFollows(start, acts, at);
  }

  /** So in every run, with `m` stale pending rows as old or older in front of it when a sweep selects, a stale pending row
      is selected by that sweep or one of the next `m / limit`, or has been moved by something else. */
  lemma PendingIsFairInRuns(start: World, acts: seq<Act>, at: seq<nat>, id: Id, u: int, m: nat, limit: nat, k: nat)
    requires limit > 0 && k == m / limit
    requires Marked(start, acts, at) && at != [] && Spaced(Rounds(start, acts, at)) && start.cfg.batchLimit == limit
    requires var first := Rounds(start, acts, at)[0];
             && Waits(first.at, id, u) && u < first.began - start.cfg.stalePending && m == |Ahead(first.at, id)|
    requires |at| > k
    ensures ReachedWithin(Rounds(start, acts, at), id, u, k)
  {
    SweepsAreSchedule(start, acts, at);
    RoundSelects(start, acts, at[0]);
    PendingIsFair(Rounds(start, acts, at), Between(start, acts, at), id, u, m, limit, k);
  }

  // --- selected rows are sent ------------------------------------------------------------------

  predicate HasToSend(w: World, p: Pid, id: Id) {
    SweeperAt(w, p) && w.procs[p].phase.Sending? && id in w.procs[p].rows
  }

  /** In this step the sweep at `p` sends `id`; if the queue is up, its task is there. */
  ghost predicate Sends(w: World, a: Act, p: Pid, id: Id) {
    && a.Sweep? && a.p == p && a.s.Send? && HasToSend(w, p, id) && w.procs[p].rows[0] == id
    && Enabled(w, a) && (a.s.ok ==> id in Do(w, a).queue)
  }

  lemma KeepsToSend(w: World, a: Act, p: Pid, id: Id)
    requires HasToSend(w, p, id) && Enabled(w, a) && a != Exit(p)
    ensures Sends(w, a, p, id) || HasToSend(Do(w, a), p, id)
  {
    match a
    case Work(q, x) => OtherWork(w, q, x, p);
    case Gather(q, g) => OtherGather(w, q, g, p);
    case Sweep(q, s) =>
      if q == p {
        OwnSend(w, s, p, id);
      } else {
        OtherSweep(w, q, s, p);
      }
    case _ =>
  }

  lemma OtherWork(w: World, q: Pid, x: WorkMove, p: Pid)
    requires SweeperAt(w, p) && CanWork(w, q, x)
    ensures SweeperAt(DoWork(w, q, x), p) && DoWork(w, q, x).procs[p] == w.procs[p]
  {
  }

  lemma OtherGather(w: World, q: Pid, g: GatherMove, p: Pid)
    requires SweeperAt(w, p) && CanGather(w, q, g)
    ensures SweeperAt(DoGather(w, q, g), p) && DoGather(w, q, g).procs[p] == w.procs[p]
  {
  }

  lemma OtherSweep(w: World, q: Pid, s: SweepMove, p: Pid)
    requires SweeperAt(w, p) && CanSweep(w, q, s) && q != p
    ensures SweeperAt(DoSweep(w, q, s), p) && DoSweep(w, q, s).procs[p] == w.procs[p]
  {
  }

  lemma OwnSend(w: World, s: SweepMove, p: Pid, id: Id)
    requires HasToSend(w, p, id) && CanSweep(w, p, s)
    ensures Sends(w, Sweep(p, s), p, id) || HasToSend(DoSweep(w, p, s), p, id)
  {
  }

  /** No sweep exits before it is through with its batch. */
  ghost predicate ExitsWell(w: World, acts: seq<Act>)
    requires Legal(w, acts)
    decreases |acts|
  {
    acts == [] || ((acts[0].Exit? ==> IsThrough(w, acts[0].p)) && ExitsWell(Do(w, acts[0]), acts[1..]))
  }

  /** There is no sweep at `p` with anything left to do. */
  predicate IsThrough(w: World, p: Pid) {
    SweeperAt(w, p) ==> w.procs[p].phase.Sending? && w.procs[p].rows == []
  }

  lemma {:induction false} ExitsBetween(w: World, acts: seq<Act>, k: nat, l: nat)
    requires Legal(w, acts) && ExitsWell(w, acts) && k <= l <= |acts|
    ensures Legal(w, acts[..k]) && Legal(Run(w, acts[..k]), acts[k..l])
    ensures ExitsWell(Run(w, acts[..k]), acts[k..l])
    decreases |acts|
  {
    if k > 0 {
      ExitsBetween(Do(w, acts[0]), acts[1..], k - 1, l - 1);
      assert acts[..k][1..] == acts[1..][..k - 1] && acts[k..l] == acts[1..][k - 1..l - 1];
    } else if l > 0 {
      ExitsBetween(Do(w, acts[0]), acts[1..], 0, l - 1);
      assert acts[0..l][1..] == acts[1..][0..l - 1] && acts[1..][..0] == [] && acts[..0] == [];
    } else {
      assert acts[..0] == [] && acts[0..0] == [];
    }
  }

  /** A row that a sweep selected is sent by it in every run in which the sweep gets through its batch. */
  lemma {:induction false} SelectedIsSent(w: World, acts: seq<Act>, p: Pid, id: Id) returns (k: nat)
    requires Legal(w, acts) && ExitsWell(w, acts) && HasToSend(w, p, id) && !HasToSend(Run(w, acts), p, id)
    ensures k < |acts| && Legal(w, acts[..k]) && Sends(Run(w, acts[..k]), acts[k], p, id)
    decreases |acts|
  {
    if Sends(w, acts[0], p, id) {
      k := 0;
    } else {
      KeepsToSend(w, acts[0], p, id);
      var l := SelectedIsSent(Do(w, acts[0]), acts[1..], p, id);
      k := l + 1;
      assert acts[..k][1..] == acts[1..][..l] && acts[..k][0] == acts[0];
    }
  }

  // --- from stale to queued ----------------------------------------------------------------------

  /** The queue is up whenever a sweep sends a pending row. */
  predicate QueueIsUp(acts: seq<Act>) {
    forall a | a in acts :: a.Sweep? && a.s.Send? ==> a.s.ok
  }

  /** The sweep that selects at position `k` gets through its batch within the run. */
  ghost predicate GetsThrough(start: World, acts: seq<Act>, k: nat)
    requires k < |acts| && acts[k].Sweep?
  {
    exists l :: k < l <= |acts| && Legal(start, acts[..l]) && IsThrough(Run(start, acts[..l]), acts[k].p)
  }

  /** At position `j` the sweep that selected at position `k` sends `id`, and its task is in the queue. */
  ghost predicate QueuedAt(start: World, acts: seq<Act>, k: nat, j: nat, id: Id)
    requires k < |acts| && acts[k].Sweep?
  {
    && k < j < |acts| && Legal(start, acts[..j]) && Sends(Run(start, acts[..j]), acts[j], acts[k].p, id)
    && id in Do(Run(start, acts[..j]), acts[j]).queue
  }

  /** One of the first `k + 1` of these sweeps queues a task for the row, or something else has moved it by then. */
  ghost predicate QueuedWithin(start: World, acts: seq<Act>, at: seq<nat>, id: Id, u: int, k: nat)
    requires Marked(start, acts, at)
  {
    exists i: nat :: i <= k && i < |at| &&
      (!Waits(Rounds(start, acts, at)[i].at, id, u) || exists j :: QueuedAt(start, acts, at[i], j, id))
  }

  lemma HasIt(start: World, acts: seq<Act>, k: nat, id: Id)
    requires k < |acts| && acts[k].Sweep? && acts[k].s.Select? && Legal(start, acts[..k]) && Legal(start, acts)
    requires Enabled(Run(start, acts[..k]), acts[k]) && id in acts[k].s.pending
    ensures Legal(start, acts[..k + 1]) && HasToSend(Run(start, acts[..k + 1]), acts[k].p, id)
  {
    Split(start, acts, k + 1);
    Split(start, acts[..k + 1], k);
    assert acts[..k + 1][..k] == acts[..k] && acts[..k + 1][k..] == [acts[k]];
    OneStep(Run(start, acts[..k]), acts[k]);
  }

  lemma OneStep(w: World, a: Act)
    requires Enabled(w, a)
    ensures Legal(w, [a]) && Run(w, [a]) == Do(w, a)
  {
    assert [a][1..] == [];
    assert Legal(Do(w, a), []) && Run(Do(w, a), []) == Do(w, a);
  }

  /** A position within a stretch of the run, seen from its start. */
  lemma FromTheStart(start: World, acts: seq<Act>, k: nat, l: nat, d: nat)
    requires Legal(start, acts) && k + d < l <= |acts| && Legal(start, acts[..k])
    ensures Legal(start, acts[..k + d]) && acts[k..l][d] == acts[k + d]
    ensures Legal(Run(start, acts[..k]), acts[k..l][..d])
    ensures Run(start, acts[..k + d]) == Run(Run(start, acts[..k]), acts[k..l][..d])
  {
    Split(start, acts, k + d);
    RunBetween(start, acts, k, k + d);
    assert acts[k..l][..d] == acts[k..k + d];
  }

  lemma SentBetween(start: World, acts: seq<Act>, k: nat, l: nat, p: Pid, id: Id)
    returns (j: nat, w: World)
    requires Legal(start, acts) && k <= l <= |acts| && Legal(start, acts[..k]) && Legal(start, acts[..l])
    requires ExitsWell(start, acts) && HasToSend(Run(start, acts[..k]), p, id) && IsThrough(Run(start, acts[..l]), p)
    ensures k <= j < l && Legal(start, acts[..j]) && w == Run(start, acts[..j]) && Sends(w, acts[j], p, id)
  {
    ExitsBetween(start, acts, k, l);
    RunBetween(start, acts, k, l);
    var d := SelectedIsSent(Run(start, acts[..k]), acts[k..l], p, id);
    w := Run(Run(start, acts[..k]), acts[k..l][..d]);
    FromTheStart(start, acts, k, l, d);
    j := k + d;
  }

  lemma SentIsQueued(start: World, acts: seq<Act>, k: nat, j: nat, w: World, id: Id)
    requires k < j < |acts| && acts[k].Sweep? && Legal(start, acts[..j]) && QueueIsUp(acts)
    requires w == Run(start, acts[..j]) && Sends(w, acts[j], acts[k].p, id)
    ensures QueuedAt(start, acts, k, j, id)
  {
    assert acts[j] in acts;
  }

  lemma PickedIsQueued(start: World, acts: seq<Act>, k: nat, id: Id) returns (j: nat)
    requires k < |acts| && acts[k].Sweep? && acts[k].s.Select? && Legal(start, acts[..k]) && Legal(start, acts)
    requires Enabled(Run(start, acts[..k]), acts[k]) && id in acts[k].s.pending
    requires ExitsWell(start, acts) && QueueIsUp(acts) && GetsThrough(start, acts, k)
    ensures QueuedAt(start, acts, k, j, id)
  {
    HasIt(start, acts, k, id);
    var l :| k < l <= |acts| && Legal(start, acts[..l]) && IsThrough(Run(start, acts[..l]), acts[k].p);
    var w;
    j, w := SentBetween(start, acts, k + 1, l, acts[k].p, id);
    SentIsQueued(start, acts, k, j, w, id);
  }

  /** In every run in which the queue is up and no sweep exits early: with `m` stale pending rows as old or older in front of
      it when a sweep selects, a stale pending row has a task in the queue after that sweep or one of the next `m / limit`,
      or has been moved by something else. */
  lemma PendingIsQueued(start: World, acts: seq<Act>, at: seq<nat>, id: Id, u: int, m: nat, limit: nat, k: nat)
    requires limit > 0 && k == m / limit
    requires Marked(start, acts, at) && at != [] && Spaced(Rounds(start, acts, at)) && start.cfg.batchLimit == limit
    requires var first := Rounds(start, acts, at)[0];
             && Waits(first.at, id, u) && u < first.began - start.cfg.stalePending && m == |Ahead(first.at, id)|
    requires |at| > k && ExitsWell(start, acts) && QueueIsUp(acts)
    requires forall i: nat | i <= k :: GetsThrough(start, acts, at[i])
    ensures QueuedWithin(start, acts, at, id, u, k)
  {
    PendingIsFairInRuns(start, acts, at, id, u, m, limit, k);
    var rounds := Rounds(start, acts, at);
    var i: nat :| i <= k && i < |rounds| && (id in rounds[i].picked || !Waits(rounds[i].at, id, u));
    if id in rounds[i].picked {
      var j := PickedIsQueued(start, acts, at[i], id);
    }
  }
}
