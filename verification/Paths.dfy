/** Reaching one world from another: by any run from the start, or by the steps of one process alone. And the answers an
    honest box and a correct database can give. */
module Paths {
  import opened Wrappers
  import opened Core
  import opened Protocol

  /** What one process does: the attempts for one recording, one collection, or one sweep after its collection. */
  datatype Role = AsWorker(id: Id) | AsCollector | AsSweeper

  /** A step of process `p` in its role. Beside it only the clock moves, and an attempt has its own task created before
      it and retired after it; neither the box nor any other process nor any client does anything. */
  predicate Own(a: Act, p: Pid, role: Role) {
    match a
    case Outside(o) => o.Tick? || (role.AsWorker? && (o == Enqueue(role.id) || o == Retire(role.id)))
    case AtBox(_) => false
    case Work(q, x) => q == p && role.AsWorker? && (x.Deliver? ==> x.id == role.id)
    case Gather(q, _) => q == p && role.AsCollector?
    case Sweep(q, _) => q == p && role.AsSweeper?
    case Exit(q) => q == p
  }

  /** Process `p` alone, in its role, takes one world to the other. */
  ghost predicate Leads(w: World, w': World, p: Pid, role: Role) {
    exists acts :: Legal(w, acts) && Run(w, acts) == w' && forall a | a in acts :: Own(a, p, role)
  }

  lemma LeadsNowhere(w: World, p: Pid, role: Role)
    ensures Leads(w, w, p, role)
  {
    assert Legal(w, []) && Run(w, []) == w;
  }

  lemma LeadsOn(w: World, mid: World, a: Act, p: Pid, role: Role)
    requires Leads(w, mid, p, role) && Enabled(mid, a) && Own(a, p, role)
    ensures Leads(w, Do(mid, a), p, role)
  {
    var acts :| Legal(w, acts) && Run(w, acts) == mid && forall a | a in acts :: Own(a, p, role);
    assert [a][1..] == [];
    assert Legal(Do(mid, a), []) && Legal(mid, [a]) && Run(mid, [a]) == Do(mid, a);
    Concat(w, acts, [a]);
    assert forall b | b in acts + [a] :: Own(b, p, role);
  }

  lemma LeadsThen(w: World, mid: World, w': World, p: Pid, role: Role)
    requires Leads(w, mid, p, role) && Leads(mid, w', p, role)
    ensures Leads(w, w', p, role)
  {
    var first :| Legal(w, first) && Run(w, first) == mid && forall a | a in first :: Own(a, p, role);
    var second :| Legal(mid, second) && Run(mid, second) == w' && forall a | a in second :: Own(a, p, role);
    Concat(w, first, second);
    assert forall a | a in first + second :: Own(a, p, role);
  }

  /** Some run of the system, from its start, leads here. */
  ghost predicate Reachable(w: World) {
    exists start, acts :: Initial(start) && Legal(start, acts) && Run(start, acts) == w
  }

  lemma ReachableNext(w: World, a: Act)
    requires Reachable(w) && Enabled(w, a)
    ensures Reachable(Do(w, a))
  {
    var start, acts :| Initial(start) && Legal(start, acts) && Run(start, acts) == w;
    assert [a][1..] == [];
    assert Legal(Do(w, a), []) && Legal(w, [a]) && Run(w, [a]) == Do(w, a);
    Concat(start, acts, [a]);
  }

  /** What one process does alone leads from reachable worlds to reachable worlds. */
  lemma LeadsReachable(w: World, w': World, p: Pid, role: Role)
    requires Reachable(w) && Leads(w, w', p, role)
    ensures Reachable(w')
  {
    var start, before :| Initial(start) && Legal(start, before) && Run(start, before) == w;
    var acts :| Legal(w, acts) && Run(w, acts) == w' && forall a | a in acts :: Own(a, p, role);
    Concat(start, before, acts);
  }

  /** The box works a job off. */
  function WorkedOff(w: World, id: Id, result: Result): World
    requires id in w.box
  {
    w.(box := w.box[id := w.box[id].(status := Finished(result))])
  }

  lemma BoxWorkIsRun(w: World, id: Id, result: Result)
    requires Reachable(w) && id in w.box && !w.box[id].status.Finished?
    ensures Reachable(WorkedOff(w, id, result))
  {
    var mid := w;
    if w.box[id].status.Queued? {
      ReachableNext(w, AtBox(Start(id)));
      mid := Do(w, AtBox(Start(id)));
    }
    ReachableNext(mid, AtBox(Finish(id, result)));
    assert Do(mid, AtBox(Finish(id, result))) == WorkedOff(w, id, result);
  }

  /** A process name nobody uses. */
  lemma {:induction false} FreshBeyond(names: set<Pid>) returns (p: Pid)
    ensures forall q | q in names :: q < p
    decreases |names|
  {
    if names == {} {
      p := 0;
    } else {
      var q :| q in names;
      var p' := FreshBeyond(names - {q});
      p := if p' > q then p' else q + 1;
      assert forall r | r in names :: r == q || r in names - {q};
    }
  }

  lemma FreshPid(w: World) returns (p: Pid)
    ensures p !in w.procs
  {
    p := FreshBeyond(w.procs.Keys);
  }

  lemma CameAndWent(procs: map<Pid, Proc>, p: Pid, a: Proc)
    requires p !in procs
    ensures procs[p := a] - {p} == procs
  {
  }

  // --- pages and batches exist -----------------------------------------------------------

  lemma {:induction false} Listed(jobs: map<Id, Job>, ids: set<Id>) returns (items: seq<Item>)
    requires ids <= Terminal(jobs)
    ensures DistinctIds(items) && |items| == |ids|
    ensures forall it | it in items :: it.id in ids && it == ItemOf(jobs, it.id)
    decreases |ids|
  {
    if ids == {} {
      items := [];
    } else {
      var id :| id in ids;
      var rest := Listed(jobs, ids - {id});
      items := [ItemOf(jobs, id)] + rest;
    }
  }

  lemma {:induction false} Oldest(recs: map<Id, Recording>, ids: set<Id>) returns (first: Id)
    requires ids <= recs.Keys && ids != {}
    ensures first in ids && forall id | id in ids :: recs[first].updatedAt <= recs[id].updatedAt
    decreases |ids|
  {
    first :| first in ids;
    if ids != {first} {
      var other := Oldest(recs, ids - {first});
      assert forall id | id in ids :: id == first || id in ids - {first};
      if recs[other].updatedAt < recs[first].updatedAt {
        first := other;
      }
    }
  }

  /** `batch` lists the `|batch|` oldest of `ids`, in order. */
  ghost predicate OldestOf(recs: map<Id, Recording>, ids: set<Id>, batch: seq<Id>)
    requires ids <= recs.Keys
  {
    && Distinct(batch)
    && (forall i | 0 <= i < |batch| :: batch[i] in ids)
    && (forall i, j | 0 <= i < j < |batch| :: recs[batch[i]].updatedAt <= recs[batch[j]].updatedAt)
    && (forall i, other | 0 <= i < |batch| && other in ids && other !in batch ::
          recs[batch[i]].updatedAt <= recs[other].updatedAt)
  }

  lemma {:induction false} InOrder(recs: map<Id, Recording>, ids: set<Id>, n: nat) returns (batch: seq<Id>)
    requires ids <= recs.Keys && n <= |ids|
    ensures |batch| == n && OldestOf(recs, ids, batch)
    decreases n
  {
    if n == 0 {
      batch := [];
    } else {
      var first := Oldest(recs, ids);
      var rest := InOrder(recs, ids - {first}, n - 1);
      batch := [first] + rest;
    }
  }

  lemma ABatch(recs: map<Id, Recording>, state: RowState, cutoff: int, limit: nat) returns (batch: seq<Id>)
    ensures IsBatch(recs, state, cutoff, limit, batch)
  {
    var ids := Stale(recs, state, cutoff);
    batch := InOrder(recs, ids, Min(limit, |ids|));
  }

  /** A page may list any finished jobs, as long as there are enough of them. */
  lemma APage(jobs: map<Id, Job>, ids: set<Id>) returns (page: seq<Item>)
    requires ids <= Terminal(jobs) && (|ids| >= MAX_LIST_LIMIT || ids == Terminal(jobs))
    ensures IsPage(jobs, page) && Ids(page) <= ids
  {
    var all := Listed(jobs, ids);
    SetSizes(ids, Terminal(jobs));
    page := all[..Min(MAX_LIST_LIMIT, |ids|)];
    assert forall it | it in page :: it in all;
  }

  /** A batch may leave a row out if it has enough others to list that are as old or older. */
  lemma ABatchWithout(recs: map<Id, Recording>, state: RowState, cutoff: int, limit: nat, id: Id, front: set<Id>)
    returns (batch: seq<Id>)
    requires id in recs && id !in front && |front| >= limit
    requires forall b | b in front :: b in recs && recs[b].state == state && recs[b].updatedAt <= recs[id].updatedAt
    ensures IsBatch(recs, state, cutoff, limit, batch) && id !in batch
  {
    var stale := Stale(recs, state, cutoff);
    if id !in stale {
      batch := ABatch(recs, state, cutoff, limit);
      assert forall i | 0 <= i < |batch| :: batch[i] in stale;
    } else {
      assert front <= stale - {id};
      SetSizes(front, stale - {id});
      batch := InOrder(recs, stale - {id}, limit);
      if limit > 0 {
        LastIsOld(recs, stale - {id}, batch, front, recs[id].updatedAt);
      }
    }
  }

  /** The oldest rows of a set are no younger than as many others of it. */
  lemma LastIsOld(recs: map<Id, Recording>, ids: set<Id>, batch: seq<Id>, front: set<Id>, u: int)
    requires ids <= recs.Keys && OldestOf(recs, ids, batch) && front <= ids && |front| >= |batch| > 0
    requires forall b | b in front :: recs[b].updatedAt <= u
    ensures recs[batch[|batch| - 1]].updatedAt <= u
  {
    var n := |batch| - 1;
    if recs[batch[n]].updatedAt > u {
      forall b | b in front ensures b in batch[..n] {
        assert b in batch;
        assert batch == batch[..n] + [batch[n]];
      }
      Fits(batch[..n], front);
    }
  }
}
