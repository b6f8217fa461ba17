/** One sweep, whatever runs beside it, asks the box and fills the queue a bounded number of times, and
    queues no recording twice. */
module SweepBounds {
  import opened Wrappers
  import opened Core
  import opened Protocol
  import opened Stamps

  /** The row the sweep is busy with. */
  function Current(phase: Phase): seq<Id> {
    if phase.Losing? || phase.Resending? then [phase.id] else []
  }

  /** The row is gone, or was stamped since the sweep began. */
  predicate Since(w: World, began: int, id: Id) {
    id in w.db.recs ==> began <= w.db.recs[id].updatedAt
  }

  ghost predicate Paced(w: World, s: Proc)
    requires s.Sweeper?
  {
    var limit := w.cfg.batchLimit;
    s.began <= w.now && s.lookups <= limit &&
    if s.phase.Sending? then Distinct(s.sent + s.rows) && |s.sent + s.rows| <= 2 * limit
    else
      && Distinct(s.sent + Current(s.phase) + s.rows)
      && |s.sent + Current(s.phase)| <= s.lookups && s.lookups + |s.rows| <= limit
      && (forall id | id in s.sent :: Since(w, s.began, id))
      && (s.phase.Resending? ==> Since(w, s.began, s.phase.id))
      && (s.phase.Starting? ==> s.lookups == 0 && s.sent == [] && s.rows == [])
  }

  ghost predicate Inv(w: World) {
    forall p | SweeperAt(w, p) :: Paced(w, w.procs[p])
  }

  lemma PacedOver(w: World, w': World, s: Proc)
    requires s.Sweeper? && Paced(w, s) && Restamps(w, w')
    ensures Paced(w', s)
  {
  }

  /** Nobody but the sweep itself moves it. */
  ghost predicate SweepsStay(w: World, w': World) {
    forall p | SweeperAt(w', p) :: SweeperAt(w, p) && w'.procs[p] == w.procs[p]
  }

  lemma WorkStays(w: World, p: Pid, x: WorkMove)
    requires CanWork(w, p, x)
    ensures SweepsStay(w, DoWork(w, p, x))
  {
  }

  lemma GatherStays(w: World, p: Pid, g: GatherMove)
    requires CanGather(w, p, g)
    ensures SweepsStay(w, DoGather(w, p, g))
  {
  }

  lemma Apart<T>(a: seq<T>, b: seq<T>)
    ensures Distinct(a + b) <==> Distinct(a) && Distinct(b) && forall x | x in a :: x !in b
  {
    var s := a + b;
    if Distinct(s) {
      assert forall i | 0 <= i < |a| :: s[i] == a[i];
      assert forall j | 0 <= j < |b| :: s[|a| + j] == b[j];
      forall i, j | 0 <= i < |a| && 0 <= j < |b| ensures a[i] != b[j] {
        assert s[i] != s[|a| + j];
      }
    }
    if Distinct(a) && Distinct(b) && forall x | x in a :: x !in b {
      forall i, j | 0 <= i < j < |s| ensures s[i] != s[j] {
        assert i < |a| ==> s[i] == a[i] && a[i] in a;
        assert j >= |a| ==> s[j] == b[j - |a|] && b[j - |a|] in b;
      }
    }
  }

  lemma SelectPaces(w: World, p: Pid, pending: seq<Id>)
    requires CanSweep(w, p, Select(pending)) && Paced(w, w.procs[p])
    ensures Paced(w, DoSweep(w, p, Select(pending)).procs[p])
  {
    var s := w.procs[p];
    forall i | 0 <= i < |pending| ensures pending[i] !in s.sent {
      assert pending[i] in Stale(w.db.recs, RowState.Pending, s.began - w.cfg.stalePending);
    }
    assert s.sent + Current(s.phase) + s.rows == s.sent + Current(s.phase) == s.sent;
    Apart(s.sent, pending);
  }

  lemma CheckPaces(w: World, p: Pid, wire: Wire)
    requires CanSweep(w, p, Check(wire)) && Paced(w, w.procs[p])
    ensures Paced(w, DoSweep(w, p, Check(wire)).procs[p])
  {
    var s := w.procs[p];
    assert s.sent + Current(s.phase) + s.rows == (s.sent + [s.rows[0]]) + s.rows[1..];
    Apart(s.sent + [s.rows[0]], s.rows[1..]);
    Apart(s.sent, [s.rows[0]]);
    Apart(s.sent, s.rows[1..]);
    assert s.sent + [] + s.rows[1..] == s.sent + s.rows[1..];
  }

  lemma TakeBackPaces(w: World, p: Pid)
    requires CanSweep(w, p, TakeBack) && Paced(w, w.procs[p])
    ensures Paced(DoSweep(w, p, TakeBack), DoSweep(w, p, TakeBack).procs[p])
  {
  }

  lemma ResendPaces(w: World, p: Pid, ok: bool)
    requires CanSweep(w, p, Resend(ok)) && Paced(w, w.procs[p])
    ensures Paced(w, DoSweep(w, p, Resend(ok)).procs[p])
  {
    var s := w.procs[p];
    assert s.sent + [s.phase.id] + s.rows == (s.sent + [s.phase.id]) + [] + s.rows;
    assert s.sent + [s.phase.id] == (s.sent + [s.phase.id]) + [];
  }

  lemma SendPaces(w: World, p: Pid, ok: bool)
    requires CanSweep(w, p, Send(ok)) && Paced(w, w.procs[p])
    ensures Paced(w, DoSweep(w, p, Send(ok)).procs[p])
  {
    var s := w.procs[p];
    assert s.sent + s.rows == (s.sent + [s.rows[0]]) + s.rows[1..];
  }

  lemma PickPaces(w: World, p: Pid, stuck: seq<Id>)
    requires CanSweep(w, p, Pick(stuck)) && Paced(w, w.procs[p])
    ensures Paced(w, DoSweep(w, p, Pick(stuck)).procs[p])
  {
    var s := DoSweep(w, p, Pick(stuck)).procs[p];
    assert s.sent + Current(s.phase) + s.rows == stuck && s.sent + Current(s.phase) == [];
  }

  lemma SweepPaces(w: World, p: Pid, s: SweepMove)
    requires CanSweep(w, p, s) && (s.Begin? || Paced(w, w.procs[p]))
    requires Restamps(w, DoSweep(w, p, s))
    ensures SweeperAt(DoSweep(w, p, s), p) && Paced(DoSweep(w, p, s), DoSweep(w, p, s).procs[p])
  {
    match s
    case Begin =>
    case Pick(stuck) => PickPaces(w, p, stuck);
    case Check(wire) => CheckPaces(w, p, wire);
    case TakeBack => TakeBackPaces(w, p);
    case Resend(ok) => ResendPaces(w, p, ok);
    case Select(pending) => SelectPaces(w, p, pending);
    case Send(ok) => SendPaces(w, p, ok);
  }

  lemma SweepStays(w: World, p: Pid, s: SweepMove)
    requires CanSweep(w, p, s)
    ensures forall q | SweeperAt(DoSweep(w, p, s), q) && q != p ::
              SweeperAt(w, q) && DoSweep(w, p, s).procs[q] == w.procs[q]
  {
  }

  lemma Step(w: World, a: Act)
    requires Inv(w) && Enabled(w, a)
    ensures Inv(Do(w, a))
  {
    var w' := Do(w, a);
    StepStamps(w, a);
    if a.Work? {
      WorkStays(w, a.p, a.x);
    } else if a.Gather? {
      GatherStays(w, a.p, a.g);
    } else if a.Sweep? {
      SweepStays(w, a.p, a.s);
      SweepPaces(w, a.p, a.s);
    } else {
      assert SweepsStay(w, w');
    }
    forall p | SweeperAt(w', p) ensures Paced(w', w'.procs[p]) {
      if !(a.Sweep? && a.p == p) {
        PacedOver(w, w', w.procs[p]);
      }
    }
  }

  lemma {:induction false} RunKeeps(w: World, acts: seq<Act>)
    requires Inv(w) && Legal(w, acts)
    ensures Inv(Run(w, acts)) && Run(w, acts).cfg == w.cfg
    decreases |acts|
  {
    if acts != [] {
      StepStamps(w, acts[0]);
      Step(w, acts[0]);
      RunKeeps(Do(w, acts[0]), acts[1..]);
    }
  }

  /** In every run, each sweep has so far queued no recording twice, made at most `limit` lookups on the box and
      at most `2 * limit` enqueues. */
  lemma SweepIsBounded(start: World, acts: seq<Act>, p: Pid)
    requires Initial(start) && Legal(start, acts) && SweeperAt(Run(start, acts), p)
    ensures var s, limit := Run(start, acts).procs[p], start.cfg.batchLimit;
            Distinct(s.sent) && |s.sent| <= 2 * limit && s.lookups <= limit
  {
    RunKeeps(start, acts);
    var s := Run(start, acts).procs[p];
    if s.phase.Sending? {
      Apart(s.sent, s.rows);
    } else {
      Apart(s.sent + Current(s.phase), s.rows);
      Apart(s.sent, Current(s.phase));
    }
  }
}
