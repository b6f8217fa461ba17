/** The collection cycle: drain a page, persist each job in its own transaction, then acknowledge. */
module Collection {
  import opened Wrappers
  import opened Core
  import opened Protocol
  import opened Paths
  import opened Transcriber
  import opened Session
  import Confluence

  class CollectionResult {
    var written: nat
    var failed: nat
    var skipped: nat
    var unknown: nat
    var acked: seq<Id>
    var pages: nat

    constructor ()
      ensures Counted() == 0 && Tallied() == Counts(0, 0, 0, 0) && acked == [] && pages == 0
    {
      written, failed, skipped, unknown, acked, pages := 0, 0, 0, 0, [], 0;
    }

    function Tallied(): Counts
      reads this
    {
      Counts(written, failed, skipped, unknown)
    }

    function Counted(): nat
      reads this
    {
      written + failed + skipped + unknown
    }
  }

  // --- what a collection counts ------------------------------------------------------------------

  datatype Counts = Counts(written: nat, failed: nat, skipped: nat, unknown: nat)

  function Plus(a: Counts, b: Counts): Counts {
    Counts(a.written + b.written, a.failed + b.failed, a.skipped + b.skipped, a.unknown + b.unknown)
  }

  /** One for the kind of decision the entry is, if it is one. */
  function One(e: Entry): Counts {
    match e
    case Decided(_, _, Wrote(_)) => Counts(1, 0, 0, 0)
    case Decided(_, _, GaveUp(_)) => Counts(0, 1, 0, 0)
    case Decided(_, _, Requeued) => Counts(0, 1, 0, 0)
    case Decided(_, _, AlreadyDone) => Counts(0, 0, 1, 0)
    case Decided(_, _, NoRecording) => Counts(0, 0, 0, 1)
    case _ => Counts(0, 0, 0, 0)
  }

  /** How many decisions of each kind a history has. */
  function Tally(log: seq<Entry>): Counts {
    if log == [] then Counts(0, 0, 0, 0) else Plus(Tally(log[..|log| - 1]), One(log[|log| - 1]))
  }

  lemma CountedOn(c: Counts, a: Counts, b: Counts)
    ensures Plus(c, Plus(a, b)) == Plus(Plus(c, a), b) && Plus(c, Counts(0, 0, 0, 0)) == c
  {
  }

  lemma {:induction false} TallyConcat(a: seq<Entry>, b: seq<Entry>)
    ensures Tally(a + b) == Plus(Tally(a), Tally(b))
    decreases |b|
  {
    if b == [] {
      assert a + b == a;
    } else {
      var n := |b| - 1;
      TallyConcat(a, b[..n]);
      var all := a + b;
      assert all[..|all| - 1] == a + b[..n] && all[|all| - 1] == b[n];
      CountedOn(Tally(a), Tally(b[..n]), One(b[n]));
    }
  }

  /** What the answer, the tables and the clock are after persisting a job with this status. */
  predicate Answers(db: Db, db': Db, id: Id, status: Status, fault: Fault, ok: bool, now: int) {
    if fault.RolledBack? then !ok && db' == db
    else if id !in db.recs then ok && db' == db
    else match status
    case Finished(Failure(Some("audio_missing"))) => ok && GoesBack(db, db', id, now)
    case Finished(Failure(None)) => ok && FailsFor(db, db', id, "transcription_failed", now)
    case Finished(Failure(Some(code))) =>
      ok && FailsFor(db, db', id, if code == "" then "transcription_failed" else code, now)
    case Finished(Transcript(text)) =>
      if id !in db.events then ok && FailsFor(db, db', id, "No event linked to recording", now)
      else if db.recs[id].state == Done then ok && db' == db
      else if text.Some? && |text.value| > 2000 then !ok && db' == db
      else Shows(db, db', id, if text.Some? then text.value else "", now) &&
           (ok <==> !(fault.DispatchRaised? && db.events[id].tagIds == []))
    case _ => !ok && db' == db
  }

  /** The counters after one persisted job. A transcript counts as written once it is committed, whatever the
      tagging dispatch does afterwards. */
  twostate predicate Tallies(result: CollectionResult, v: Verdict, fault: Fault)
    reads result
  {
    var counts := !fault.RolledBack?;
    && result.written == old(result.written) + (if counts && v.Wrote? then 1 else 0)
    && result.failed == old(result.failed) + (if counts && (v.GaveUp? || v.Requeued?) then 1 else 0)
    && result.skipped == old(result.skipped) + (if counts && v.AlreadyDone? then 1 else 0)
    && result.unknown == old(result.unknown) + (if counts && v.NoRecording? then 1 else 0)
    && result.acked == old(result.acked) && result.pages == old(result.pages)
  }

  method PersistTranscript(session: Session, result: CollectionResult, id: Id, text: Option<string>, fault: Fault)
    returns (ok: bool)
    requires id in session.db.recs && !fault.RolledBack?
    modifies session, result
    ensures var v := Judge(old(session.db), id, Finished(Transcript(text)));
            && ok == Ackable(old(session.db), id, v, fault)
            && session.db == (if Commits(v, fault) then Commit(old(session.db), id, v, session.now) else old(session.db))
            && Tallies(result, v, fault)
    ensures Answers(old(session.db), session.db, id, Finished(Transcript(text)), fault, ok, session.now)
    ensures old(session.now) <= session.now
  {
    if id !in session.db.events {
      session.MarkFailed(id, NO_EVENT);
      result.failed := result.failed + 1;
      return true;
    }
    var untagged := session.db.events[id].tagIds == [];
    var verdict := session.WriteTranscript(id, TextOf(text));
    if verdict.AlreadyDone? {
      result.skipped := result.skipped + 1;
      return true;
    }
    if verdict.Refused? {
      return false;
    }
    result.written := result.written + 1;
    ok := !(untagged && fault.DispatchRaised?);
  }

  method PersistFailure(session: Session, result: CollectionResult, id: Id, code: Option<string>, fault: Fault)
    returns (ok: bool)
    requires id in session.db.recs && !fault.RolledBack?
    modifies session, result
    ensures var v := Judge(old(session.db), id, Finished(Failure(code)));
            && ok && Ackable(old(session.db), id, v, fault)
            && session.db == Commit(old(session.db), id, v, session.now) && Tallies(result, v, fault)
    ensures Answers(old(session.db), session.db, id, Finished(Failure(code)), fault, ok, session.now)
    ensures old(session.now) <= session.now
  {
    if code == Some(AUDIO_MISSING) {
      session.RevertPending(id);
    } else {
      session.MarkFailed(id, ReasonOf(code));
    }
    result.failed := result.failed + 1;
    ok := true;
  }

  /** Store one job's outcome; the answer is whether it may now be acknowledged. */
  method Persist(session: Session, result: CollectionResult, job: Item, fault: Fault) returns (ok: bool)
    modifies session, result
    ensures var v := Judge(old(session.db), job.id, job.status);
            && ok == Ackable(old(session.db), job.id, v, fault)
            && session.db == (if Commits(v, fault) then Commit(old(session.db), job.id, v, session.now)
                              else old(session.db))
            && Tallies(result, v, fault)
    ensures Answers(old(session.db), session.db, job.id, job.status, fault, ok, session.now)
    ensures old(session.now) <= session.now
  {
    if fault.RolledBack? {
      return false;
    }
    if job.id !in session.db.recs {
      result.unknown := result.unknown + 1;
      return true;
    }
    match job.status
    case Finished(Failure(code)) => ok := PersistFailure(session, result, job.id, code, fault);
    case Finished(Transcript(text)) => ok := PersistTranscript(session, result, job.id, text, fault);
    case _ => ok := false;
  }

  // --- one page ----------------------------------------------------------------------------

  /** How the outside behaves during one collection, page by page. */
  datatype Season = Season(drain: nat -> Wire, ack: nat -> Wire, fault: nat -> Id -> Fault)

  /** Nothing goes wrong on page `i`. */
  ghost predicate Fair(env: Season, i: nat) {
    env.drain(i).Answered? && env.ack(i).Answered? && forall id :: env.fault(i)(id).Clean?
  }

  /** Both tables say the same about `id`. */
  predicate SameAt(db: Db, db': Db, id: Id) {
    && (id in db.recs <==> id in db'.recs) && (id in db.recs ==> db'.recs[id] == db.recs[id])
    && (id in db.events <==> id in db'.events) && (id in db.events ==> db'.events[id] == db.events[id])
  }

  /** The job was decided, starting from `db`; its time stamp aside. */
  predicate DecidedAs(db: Db, db': Db, it: Item) {
    && Judge(db, it.id, it.status) != Refused
    && Confluence.ViewOf(db', it.id) == Confluence.ViewOf(Confluence.Decide(db, it.id, it.status, 0), it.id)
  }

  // --- a page as an operation on the tables ------------------------------------------------

  function After(db: Db, it: Item, fault: Fault, t: int): Db {
    var v := Judge(db, it.id, it.status);
    if Commits(v, fault) then Commit(db, it.id, v, t) else db
  }

  predicate Kept(db: Db, it: Item, fault: Fault) {
    Ackable(db, it.id, Judge(db, it.id, it.status), fault)
  }

  /** The tables after persisting `page`, job `k` at time `ts[k]`. */
  function PageDb(db: Db, page: seq<Item>, fault: Id -> Fault, ts: seq<int>): Db
    requires |ts| == |page|
  {
    if page == [] then db else
    var n := |page| - 1;
    After(PageDb(db, page[..n], fault, ts[..n]), page[n], fault(page[n].id), ts[n])
  }

  /** What may be acknowledged after it. */
  function PageHeld(db: Db, page: seq<Item>, fault: Id -> Fault, ts: seq<int>): seq<Item>
    requires |ts| == |page|
  {
    if page == [] then [] else
    var n := |page| - 1;
    var before := PageDb(db, page[..n], fault, ts[..n]);
    PageHeld(db, page[..n], fault, ts[..n]) + (if Kept(before, page[n], fault(page[n].id)) then [page[n]] else [])
  }

  lemma {:induction false} HeldIsOnPage(db: Db, page: seq<Item>, fault: Id -> Fault, ts: seq<int>)
    requires |ts| == |page|
    ensures |PageHeld(db, page, fault, ts)| <= |page|
    ensures forall it | it in PageHeld(db, page, fault, ts) :: it in page
    ensures DistinctIds(page) ==> DistinctIds(PageHeld(db, page, fault, ts))
    decreases |page|
  {
    if page != [] {
      var n := |page| - 1;
      HeldIsOnPage(db, page[..n], fault, ts[..n]);
      var held := PageHeld(db, page[..n], fault, ts[..n]);
      forall k | DistinctIds(page) && 0 <= k < |held| ensures held[k].id != page[n].id {
        assert held[k] in held;
      }
    }
  }

  lemma {:induction false} OthersSame(db: Db, page: seq<Item>, fault: Id -> Fault, ts: seq<int>, id: Id)
    requires |ts| == |page| && forall it | it in page :: it.id != id
    ensures SameAt(db, PageDb(db, page, fault, ts), id)
    decreases |page|
  {
    if page != [] {
      OthersSame(db, page[..|page| - 1], fault, ts[..|page| - 1], id);
    }
  }

  /** A job persisted after nothing about it has changed. */
  lemma DecideLate(db: Db, before: Db, it: Item, t: int)
    requires SameAt(db, before, it.id)
    ensures Kept(before, it, Clean) <==> Judge(db, it.id, it.status) != Refused
    ensures if Judge(db, it.id, it.status) == Refused then After(before, it, Clean, t) == before
            else DecidedAs(db, After(before, it, Clean, t), it)
  {
  }

  /** The job was decided and is held, or can never be stored and nothing about it has changed. */
  predicate Settled(db: Db, db': Db, held: seq<Item>, it: Item) {
    if Judge(db, it.id, it.status) == Refused then it !in held && SameAt(db, db', it.id)
    else it in held && DecidedAs(db, db', it)
  }

  lemma LastSettles(db: Db, page: seq<Item>, fault: Id -> Fault, ts: seq<int>)
    requires |ts| == |page| && DistinctIds(page) && page != [] && forall id :: fault(id).Clean?
    ensures Settled(db, PageDb(db, page, fault, ts), PageHeld(db, page, fault, ts), page[|page| - 1])
  {
    var n := |page| - 1;
    var it := page[n];
    assert forall other | other in page[..n] :: other.id != it.id;
    OthersSame(db, page[..n], fault, ts[..n], it.id);
    HeldIsOnPage(db, page[..n], fault, ts[..n]);
    DecideLate(db, PageDb(db, page[..n], fault, ts[..n]), it, ts[n]);
  }

  lemma SettledStays(db: Db, before: Db, held: seq<Item>, it: Item, next: Item, t: int)
    requires Settled(db, before, held, it) && next.id != it.id
    ensures Settled(db, After(before, next, Clean, t), held, it)
    ensures Settled(db, After(before, next, Clean, t), held + [next], it)
  {
  }

  /** When nothing goes wrong, each job on the page is settled. */
  lemma {:induction false} PageSettles(db: Db, page: seq<Item>, fault: Id -> Fault, ts: seq<int>, it: Item)
    requires |ts| == |page| && DistinctIds(page) && it in page && forall id :: fault(id).Clean?
    ensures Settled(db, PageDb(db, page, fault, ts), PageHeld(db, page, fault, ts), it)
    decreases |page|
  {
    var n := |page| - 1;
    if it == page[n] {
      LastSettles(db, page, fault, ts);
    } else {
      PageSettles(db, page[..n], fault, ts[..n], it);
      var held := PageHeld(db, page[..n], fault, ts[..n]);
      assert held + [] == held;
      SettledStays(db, PageDb(db, page[..n], fault, ts[..n]), held, it, page[n], ts[n]);
    }
  }

  /** The row is as it was, or was moved and stamped between these times. */
  predicate Restamped(rec: Recording, rec': Recording, since: int, until: int) {
    || rec' == rec
    || (&& rec' == rec.(state := rec'.state, error := rec'.error, updatedAt := rec'.updatedAt)
        && since <= rec'.updatedAt <= until)
  }

  ghost predicate RowsRestamped(db: Db, db': Db, since: int, until: int) {
    && db'.recs.Keys == db.recs.Keys && db'.events.Keys == db.events.Keys
    && forall id | id in db.recs :: Restamped(db.recs[id], db'.recs[id], since, until)
  }

  lemma RestampedThen(db: Db, mid: Db, db': Db, since: int, t: int, until: int)
    requires RowsRestamped(db, mid, since, t) && RowsRestamped(mid, db', t, until) && since <= t <= until
    ensures RowsRestamped(db, db', since, until)
  {
  }

  lemma OneRestamps(db: Db, it: Item, fault: Fault, t: int)
    ensures RowsRestamped(db, After(db, it, fault, t), t, t)
  {
  }

  lemma {:induction false} PageRestamps(db: Db, page: seq<Item>, fault: Id -> Fault, ts: seq<int>, start: int)
    requires |ts| == |page| && Stamped(start, ts)
    ensures RowsRestamped(db, PageDb(db, page, fault, ts), start, Last(start, ts))
    decreases |page|
  {
    if page != [] {
      var n := |page| - 1;
      PageRestamps(db, page[..n], fault, ts[..n], start);
      var mid := PageDb(db, page[..n], fault, ts[..n]);
      OneRestamps(mid, page[n], fault(page[n].id), ts[n]);
      var last := Last(start, ts[..n]);
      assert RowsRestamped(mid, PageDb(db, page, fault, ts), last, ts[n]);
      RestampedThen(db, mid, PageDb(db, page, fault, ts), start, last, ts[n]);
    }
  }

  /** What persisting one job adds to the history. */
  function JobLog(db: Db, it: Item, fault: Fault, p: Pid): seq<Entry> {
    var v := Judge(db, it.id, it.status);
    if !Commits(v, fault) then []
    else (if v.GaveUp? || v.Requeued? then BackEntry(db, it.id) else []) + [Decided(p, it, v)]
  }

  /** What persisting a page adds to it. */
  function PageLog(db: Db, page: seq<Item>, fault: Id -> Fault, ts: seq<int>, p: Pid): seq<Entry>
    requires |ts| == |page|
  {
    if page == [] then [] else
    var n := |page| - 1;
    var before := PageDb(db, page[..n], fault, ts[..n]);
    PageLog(db, page[..n], fault, ts[..n], p) + JobLog(before, page[n], fault(page[n].id), p)
  }

  /** What persisting one job counts. */
  function JobCounts(db: Db, it: Item, fault: Fault): Counts {
    var v := Judge(db, it.id, it.status);
    if Commits(v, fault) then One(Decided(0, it, v)) else Counts(0, 0, 0, 0)
  }

  function PageCounts(db: Db, page: seq<Item>, fault: Id -> Fault, ts: seq<int>): Counts
    requires |ts| == |page|
  {
    if page == [] then Counts(0, 0, 0, 0) else
    var n := |page| - 1;
    Plus(PageCounts(db, page[..n], fault, ts[..n]),
         JobCounts(PageDb(db, page[..n], fault, ts[..n]), page[n], fault(page[n].id)))
  }

  lemma TallyOf(a: seq<Entry>, b: seq<Entry>, whole: seq<Entry>)
    requires whole == a + b
    ensures Tally(whole) == Plus(Tally(a), Tally(b))
  {
    TallyConcat(a, b);
  }

  lemma TallyOne(e: Entry)
    ensures Tally([e]) == One(e)
  {
    assert [e][..0] == [];
  }

  lemma TallyNone()
    ensures Tally([]) == Counts(0, 0, 0, 0)
  {
  }

  lemma BackTally(db: Db, id: Id)
    ensures Tally(BackEntry(db, id)) == Counts(0, 0, 0, 0)
  {
    TallyOne(SentBack(id));
  }

  lemma SameOne(p: Pid, it: Item, v: Verdict)
    ensures One(Decided(p, it, v)) == One(Decided(0, it, v))
  {
  }

  lemma JobTally(db: Db, it: Item, fault: Fault, p: Pid)
    ensures Tally(JobLog(db, it, fault, p)) == JobCounts(db, it, fault)
  {
    var v := Judge(db, it.id, it.status);
    if Commits(v, fault) {
      var back := if v.GaveUp? || v.Requeued? then BackEntry(db, it.id) else [];
      TallyOf(back, [Decided(p, it, v)], JobLog(db, it, fault, p));
      TallyOne(Decided(p, it, v));
      BackTally(db, it.id);
      SameOne(p, it, v);
    } else {
      TallyNone();
    }
  }

  lemma {:induction false} PageTally(db: Db, page: seq<Item>, fault: Id -> Fault, ts: seq<int>, p: Pid)
    requires |ts| == |page|
    ensures Tally(PageLog(db, page, fault, ts, p)) == PageCounts(db, page, fault, ts)
    decreases |page|
  {
    if page != [] {
      var n := |page| - 1;
      var before := PageDb(db, page[..n], fault, ts[..n]);
      PageTally(db, page[..n], fault, ts[..n], p);
      JobTally(before, page[n], fault(page[n].id), p);
      TallyOf(PageLog(db, page[..n], fault, ts[..n], p), JobLog(before, page[n], fault(page[n].id), p),
              PageLog(db, page, fault, ts, p));
    }
  }

  /** The world after the collector at `p` has persisted one more job. */
  function OnePersisted(w: World, p: Pid, it: Item, todo: seq<Item>, held: seq<Item>, fault: Fault, t: int): World {
    w.(now := t, log := w.log + JobLog(w.db, it, fault, p), db := After(w.db, it, fault, t),
       procs := w.procs[p := Collector(todo, if Kept(w.db, it, fault) then held + [it] else held)])
  }

  /** It is a step of that collector. */
  lemma PersistLeg(w: World, p: Pid, it: Item, todo: seq<Item>, held: seq<Item>, fault: Fault, t: int)
    requires p in w.procs && w.procs[p] == Collector([it] + todo, held) && w.now <= t
    ensures Leads(w, OnePersisted(w, p, it, todo, held, fault, t), p, AsCollector)
  {
    LeadsNowhere(w, p, AsCollector);
    LeadsOn(w, w, Outside(Tick(t)), p, AsCollector);
    var w' := DoPersist(w.(now := t), p, fault);
    LeadsOn(w, w.(now := t), Gather(p, GatherMove.Persist(fault)), p, AsCollector);
    assert ([it] + todo)[1..] == todo;
    assert w'.log == w.log + JobLog(w.db, it, fault, p);
  }

  predicate Stamped(start: int, ts: seq<int>) {
    && (forall k | 0 <= k < |ts| :: start <= ts[k])
    && (forall k, l | 0 <= k < l < |ts| :: ts[k] <= ts[l])
  }

  lemma StampedThen(start: int, ts: seq<int>, t: int)
    requires Stamped(start, ts) && Last(start, ts) <= t
    ensures Stamped(start, ts + [t])
  {
  }

  function Last(start: int, ts: seq<int>): int {
    if ts == [] then start else ts[|ts| - 1]
  }

  /** The world once the collector at `p` has persisted `page`, with `rest` still to come. */
  function Persisted(w: World, p: Pid, page: seq<Item>, rest: seq<Item>, fault: Id -> Fault, ts: seq<int>): World
    requires |ts| == |page|
  {
    w.(now := Last(w.now, ts), log := w.log + PageLog(w.db, page, fault, ts, p), db := PageDb(w.db, page, fault, ts),
       procs := w.procs[p := Collector(rest, PageHeld(w.db, page, fault, ts))])
  }

  lemma PersistedNone(w: World, p: Pid, rest: seq<Item>, fault: Id -> Fault)
    requires p in w.procs && w.procs[p] == Collector(rest, [])
    ensures Persisted(w, p, [], rest, fault, []) == w
  {
    assert w.procs == w.procs[p := Collector(rest, [])];
    assert w.log + [] == w.log;
  }

  lemma PersistedLast(w: World, p: Pid, page: seq<Item>, rest: seq<Item>, fault: Id -> Fault, ts: seq<int>)
    requires |ts| == |page| && page != []
    ensures var n := |page| - 1;
            OnePersisted(Persisted(w, p, page[..n], [page[n]] + rest, fault, ts[..n]), p, page[n], rest,
                         PageHeld(w.db, page[..n], fault, ts[..n]), fault(page[n].id), ts[n])
            == Persisted(w, p, page, rest, fault, ts)
  {
    var n := |page| - 1;
    var mid := Persisted(w, p, page[..n], [page[n]] + rest, fault, ts[..n]);
    var held := PageHeld(w.db, page[..n], fault, ts[..n]);
    assert held + [] == held;
    assert mid.log + JobLog(mid.db, page[n], fault(page[n].id), p) == w.log + PageLog(w.db, page, fault, ts, p);
    assert mid.procs[p := Collector(rest, PageHeld(w.db, page, fault, ts))]
        == w.procs[p := Collector(rest, PageHeld(w.db, page, fault, ts))];
  }

  /** Persisting a page is a run of the collector at `p`. */
  lemma {:induction false} PageLeg(w: World, p: Pid, page: seq<Item>, rest: seq<Item>, fault: Id -> Fault, ts: seq<int>)
    requires |ts| == |page| && Stamped(w.now, ts) && p in w.procs && w.procs[p] == Collector(page + rest, [])
    ensures Leads(w, Persisted(w, p, page, rest, fault, ts), p, AsCollector)
    decreases |page|
  {
    if page == [] {
      LeadsNowhere(w, p, AsCollector);
      assert page + rest == rest && ts == [];
      PersistedNone(w, p, rest, fault);
    } else {
      var n := |page| - 1;
      assert page + rest == page[..n] + ([page[n]] + rest);
      PageLeg(w, p, page[..n], [page[n]] + rest, fault, ts[..n]);
      var mid := Persisted(w, p, page[..n], [page[n]] + rest, fault, ts[..n]);
      PersistLeg(mid, p, page[n], rest, PageHeld(w.db, page[..n], fault, ts[..n]), fault(page[n].id), ts[n]);
      PersistedLast(w, p, page, rest, fault, ts);
      LeadsThen(w, mid, Persisted(w, p, page, rest, fault, ts), p, AsCollector);
    }
  }

  /** `ids` are the ids of `items`, in order. */
  predicate Names(ids: seq<Id>, items: seq<Item>) {
    |ids| == |items| && forall k | 0 <= k < |ids| :: ids[k] == items[k].id
  }

  function IdsOf(items: seq<Item>): (ids: seq<Id>)
    ensures Names(ids, items)
  {
    seq(|items|, k requires 0 <= k < |items| => items[k].id)
  }

  /** `Persist`, as one step of a page. */
  method PersistJob(session: Session, result: CollectionResult, job: Item, fault: Fault) returns (ok: bool)
    modifies session, result
    ensures old(session.now) <= session.now && session.db == After(old(session.db), job, fault, session.now)
    ensures ok == Kept(old(session.db), job, fault)
    ensures result.Tallied() == Plus(old(result.Tallied()), JobCounts(old(session.db), job, fault))
    ensures fault.Clean? ==> result.Counted() == old(result.Counted()) + (if ok then 1 else 0)
    ensures result.acked == old(result.acked) && result.pages == old(result.pages)
  {
    ok := Persist(session, result, job, fault);
  }

  /** One more job of the page. */
  lemma OneMore(db: Db, page: seq<Item>, j: nat, fault: Id -> Fault, ts: seq<int>, t: int)
    requires |ts| == j < |page|
    ensures var before := PageDb(db, page[..j], fault, ts);
            && PageDb(db, page[..j + 1], fault, ts + [t]) == After(before, page[j], fault(page[j].id), t)
            && PageHeld(db, page[..j + 1], fault, ts + [t])
               == PageHeld(db, page[..j], fault, ts) + (if Kept(before, page[j], fault(page[j].id)) then [page[j]] else [])
            && PageCounts(db, page[..j + 1], fault, ts + [t])
               == Plus(PageCounts(db, page[..j], fault, ts), JobCounts(before, page[j], fault(page[j].id)))
  {
    assert page[..j + 1][..j] == page[..j] && (ts + [t])[..j] == ts;
  }

  /** Persists a page job by job and lists what may be acknowledged. */
  method PersistPage(session: Session, result: CollectionResult, page: seq<Item>, fault: Id -> Fault)
    returns (ackable: seq<Id>, ghost ts: seq<int>)
    modifies session, result
    ensures |ts| == |page| && Stamped(old(session.now), ts) && session.now == Last(old(session.now), ts)
    ensures session.db == PageDb(old(session.db), page, fault, ts)
    ensures Names(ackable, PageHeld(old(session.db), page, fault, ts))
    ensures (forall id :: fault(id).Clean?) ==> result.Counted() == old(result.Counted()) + |ackable|
    ensures result.Tallied() == Plus(old(result.Tallied()), PageCounts(old(session.db), page, fault, ts))
    ensures result.acked == old(result.acked) && result.pages == old(result.pages)
  {
    ackable, ts := [], [];
    ghost var db, start, counted, tallied := session.db, session.now, result.Counted(), result.Tallied();
    ghost var clean := forall id :: fault(id).Clean?;
    for j := 0 to |page|
      invariant |ts| == j && Stamped(start, ts) && session.now == Last(start, ts)
      invariant session.db == PageDb(db, page[..j], fault, ts)
      invariant Names(ackable, PageHeld(db, page[..j], fault, ts))
      invariant clean ==> result.Counted() == counted + |ackable|
      invariant result.Tallied() == Plus(tallied, PageCounts(db, page[..j], fault, ts))
      invariant result.acked == old(result.acked) && result.pages == old(result.pages)
    {
      var ok := PersistJob(session, result, page[j], fault(page[j].id));
      OneMore(db, page, j, fault, ts, session.now);
      CountedOn(tallied, PageCounts(db, page[..j], fault, ts),
                JobCounts(PageDb(db, page[..j], fault, ts), page[j], fault(page[j].id)));
      StampedThen(start, ts, session.now);
      ts := ts + [session.now];
      if ok {
        ackable := ackable + [page[j].id];
      }
    }
    assert page[..|page|] == page;
  }

  // --- one turn of the loop ----------------------------------------------------------------

  /** How a turn ends: an exception escapes, the loop stops, or it goes on to another page. */
  datatype Turn = Broke | Stop | More

  /** The ids that can be stored now. */
  function Storable(db: Db, jobs: map<Id, Job>): set<Id> {
    set id | id in Terminal(jobs) && Judge(db, id, jobs[id].status) != Refused
  }

  /** Exactly the jobs in `acked` were decided; nothing else in the tables changed. */
  ghost predicate Wrote(db: Db, db': Db, jobs: map<Id, Job>, acked: set<Id>) {
    && (forall id | id in acked :: id in jobs && DecidedAs(db, db', ItemOf(jobs, id)))
    && (forall id | id !in acked :: SameAt(db, db', id))
  }

  /** From tables `db` and box `jobs` exactly the ids in `acked` were stored and taken off the box. */
  ghost predicate Stored(db: Db, jobs: map<Id, Job>, db': Db, jobs': map<Id, Job>, acked: set<Id>) {
    acked <= Storable(db, jobs) && jobs' == jobs - acked && Wrote(db, db', jobs, acked)
  }

  function Elements(ids: seq<Id>): set<Id> {
    set id | id in ids
  }

  lemma PageIsStored(db: Db, jobs: map<Id, Job>, page: seq<Item>, fault: Id -> Fault, ts: seq<int>)
    requires IsPage(jobs, page) && |ts| == |page| && forall id :: fault(id).Clean?
    ensures var held := PageHeld(db, page, fault, ts);
            && Ids(held) == Ids(page) * Storable(db, jobs) && DistinctIds(held)
            && Stored(db, jobs, PageDb(db, page, fault, ts), jobs - Ids(held), Ids(held))
  {
    var db', held := PageDb(db, page, fault, ts), PageHeld(db, page, fault, ts);
    HeldIsOnPage(db, page, fault, ts);
    forall it | it in page
      ensures it in held <==> it.id in Storable(db, jobs)
      ensures if it in held then DecidedAs(db, db', it) else SameAt(db, db', it.id)
    {
      PageSettles(db, page, fault, ts, it);
    }
    forall id | id !in Ids(held) ensures SameAt(db, db', id) {
      if id !in Ids(page) {
        OthersSame(db, page, fault, ts, id);
      }
    }
  }

  lemma {:induction false} CountIds(items: seq<Item>)
    requires DistinctIds(items)
    ensures |Ids(items)| == |items|
    decreases |items|
  {
    if items != [] {
      CountIds(items[1..]);
      assert Ids(items) == Ids(items[1..]) + {items[0].id};
      assert items[0].id !in Ids(items[1..]);
    }
  }

  lemma NamesElements(ids: seq<Id>, items: seq<Item>)
    requires Names(ids, items)
    ensures Elements(ids) == Ids(items) && (DistinctIds(items) ==> Distinct(ids))
  {
  }

  /** Drain and persist, as a run of the collector at `p`. */
  lemma DrainLeg(w: World, p: Pid, page: seq<Item>, fault: Id -> Fault, ts: seq<int>) returns (w': World)
    requires p in w.procs && w.procs[p] == Collector([], []) && IsPage(w.box, page)
    requires |ts| == |page| && Stamped(w.now, ts)
    ensures Leads(w, w', p, AsCollector)
    ensures w' == w.(now := Last(w.now, ts), log := w.log + PageLog(w.db, page, fault, ts, p),
                     db := PageDb(w.db, page, fault, ts),
                     procs := w.procs[p := Collector([], PageHeld(w.db, page, fault, ts))])
  {
    LeadsNowhere(w, p, AsCollector);
    LeadsOn(w, w, Gather(p, Drain(page)), p, AsCollector);
    var w1 := SetProc(w, p, Collector(page, []));
    assert page + [] == page;
    PageLeg(w1, p, page, [], fault, ts);
    w' := Persisted(w1, p, page, [], fault, ts);
    LeadsThen(w, w1, w', p, AsCollector);
    assert w'.procs == w.procs[p := Collector([], PageHeld(w.db, page, fault, ts))];
  }

  lemma AckLeg(w: World, p: Pid, held: seq<Item>, ack: Wire)
    requires p in w.procs && w.procs[p] == Collector([], held)
    ensures Leads(w, w.(box := if held != [] && ack.TakesEffect() then w.box - Ids(held) else w.box,
                        procs := if held == [] || ack.Answered? then w.procs[p := Collector([], [])] else w.procs - {p}),
                  p, AsCollector)
  {
    LeadsNowhere(w, p, AsCollector);
    if held != [] {
      LeadsOn(w, w, Gather(p, GatherMove.Ack(ack)), p, AsCollector);
    } else {
      assert w.procs == w.procs[p := Collector([], [])];
    }
  }

  /** The world after one turn of the collector at `p`. */
  function TurnWorld(w: World, p: Pid, page: seq<Item>, fault: Id -> Fault, ts: seq<int>, ack: Wire): World
    requires |ts| == |page|
  {
    var held := PageHeld(w.db, page, fault, ts);
    w.(now := Last(w.now, ts), log := w.log + PageLog(w.db, page, fault, ts, p), db := PageDb(w.db, page, fault, ts),
       box := if held != [] && ack.TakesEffect() then w.box - Ids(held) else w.box,
       procs := if held == [] || ack.Answered? then w.procs else w.procs - {p})
  }

  /** A turn is a run of that collector: drain, persist the page, acknowledge. */
  lemma TurnLeg(w: World, p: Pid, page: seq<Item>, fault: Id -> Fault, ts: seq<int>, ack: Wire)
    requires p in w.procs && w.procs[p] == Collector([], []) && IsPage(w.box, page)
    requires |ts| == |page| && Stamped(w.now, ts)
    ensures Leads(w, TurnWorld(w, p, page, fault, ts, ack), p, AsCollector)
  {
    var mid := DrainLeg(w, p, page, fault, ts);
    var held := PageHeld(w.db, page, fault, ts);
    AckLeg(mid, p, held, ack);
    assert mid.procs[p := Collector([], [])] == w.procs && mid.procs - {p} == w.procs - {p};
    LeadsThen(w, mid, TurnWorld(w, p, page, fault, ts, ack), p, AsCollector);
  }

  /** What happened in one turn, as a function of the page it drained and the stamps it made. */
  function TurnOf(db: Db, jobs: map<Id, Job>, page: seq<Item>, fault: Id -> Fault, ts: seq<int>, ack: Wire): Turn
    requires |ts| == |page|
  {
    if PageHeld(db, page, fault, ts) == [] then Stop
    else if !ack.Answered? then Broke
    else if |page| < |Terminal(jobs)| then More
    else Stop
  }

  function BoxAfter(db: Db, jobs: map<Id, Job>, page: seq<Item>, fault: Id -> Fault, ts: seq<int>, ack: Wire): map<Id, Job>
    requires |ts| == |page|
  {
    var held := PageHeld(db, page, fault, ts);
    if held != [] && ack.TakesEffect() then jobs - Ids(held) else jobs
  }

  /** One answered drain: what the page showed and when its jobs were stamped. */
  datatype Visit = Visit(page: seq<Item>, ts: seq<int>)

  /** Clock, tables, box and acknowledged ids in the course of one collection. */
  datatype Progress = Progress(now: int, db: Db, jobs: map<Id, Job>, acked: seq<Id>)

  function Turned(s: Progress, env: Season, i: nat, v: Visit): Progress
    requires |v.ts| == |v.page|
  {
    Progress(
      Last(s.now, v.ts),
      PageDb(s.db, v.page, env.fault(i), v.ts),
      BoxAfter(s.db, s.jobs, v.page, env.fault(i), v.ts, env.ack(i)),
      s.acked + if env.ack(i).Answered? then IdsOf(PageHeld(s.db, v.page, env.fault(i), v.ts)) else [])
  }

  function TurnAt(s: Progress, env: Season, i: nat, v: Visit): Turn
    requires |v.ts| == |v.page|
  {
    TurnOf(s.db, s.jobs, v.page, env.fault(i), v.ts, env.ack(i))
  }

  /** A turn at page `i` that drained and stamped what `v` records. */
  ghost predicate Visited(s: Progress, env: Season, i: nat, v: Visit, turn: Turn, s': Progress) {
    && |v.ts| == |v.page| && IsPage(s.jobs, v.page) && Stamped(s.now, v.ts)
    && s' == Turned(s, env, i, v) && turn == TurnAt(s, env, i, v)
  }

  /** A page from which `ackable` may be acknowledged. */
  lemma VisitEnds(s: Progress, env: Season, i: nat, v: Visit, ackable: seq<Id>, turn: Turn, s': Progress)
    requires |v.ts| == |v.page| && IsPage(s.jobs, v.page) && Stamped(s.now, v.ts)
    requires Names(ackable, PageHeld(s.db, v.page, env.fault(i), v.ts))
    requires s'.now == Last(s.now, v.ts) && s'.db == PageDb(s.db, v.page, env.fault(i), v.ts)
    requires s'.jobs == if ackable != [] && env.ack(i).TakesEffect() then s.jobs - Elements(ackable) else s.jobs
    requires s'.acked == if ackable != [] && env.ack(i).Answered? then s.acked + ackable else s.acked
    requires turn == if ackable == [] then Stop else if !env.ack(i).Answered? then Broke
                     else if |v.page| < |Terminal(s.jobs)| then More else Stop
    ensures Visited(s, env, i, v, turn, s')
  {
    var held := PageHeld(s.db, v.page, env.fault(i), v.ts);
    NamesElements(ackable, held);
    assert ackable == IdsOf(held);
    assert s.acked + [] == s.acked;
  }

  lemma EmptyVisit(s: Progress, env: Season, i: nat, page: seq<Item>) returns (v: Visit)
    requires IsPage(s.jobs, page) && page == []
    ensures v == Visit([], []) && Visited(s, env, i, v, Stop, s)
  {
    v := Visit([], []);
    VisitEnds(s, env, i, v, [], Stop, s);
  }

  /** Acknowledge what a page left to acknowledge. */
  method AckPage(box: Box, result: CollectionResult, ackable: seq<Id>, wire: Wire) returns (deleted: bool)
    requires 0 < |ackable| <= MAX_LIST_LIMIT
    modifies box`jobs, result`acked
    ensures deleted == wire.Answered?
    ensures box.jobs == if wire.TakesEffect() then old(box.jobs) - Elements(ackable) else old(box.jobs)
    ensures result.acked == if deleted then old(result.acked) + ackable else old(result.acked)
  {
    var reply := box.Ack(ackable, wire);
    assert Elements(ackable) == set id | id in ackable;
    deleted := reply.Deleted?;
    if deleted {
      result.acked := result.acked + ackable;
    }
  }

  /** One drain, its persists and its acknowledgement. */
  method CollectPage(session: Session, box: Box, result: CollectionResult, env: Season, i: nat)
    returns (turn: Turn, ghost v: Visit)
    modifies session, box, result
    ensures result.pages == old(result.pages) + (if env.drain(i).Answered? then 1 else 0)
    ensures !env.drain(i).Answered? ==>
              turn.Broke? && session.db == old(session.db) && session.now == old(session.now) && box.jobs == old(box.jobs)
              && result.acked == old(result.acked) && result.Tallied() == old(result.Tallied())
    ensures env.drain(i).Answered? ==>
              && |v.ts| == |v.page|
              && result.Tallied() == Plus(old(result.Tallied()), PageCounts(old(session.db), v.page, env.fault(i), v.ts))
    ensures env.drain(i).Answered? ==>
              Visited(Progress(old(session.now), old(session.db), old(box.jobs), old(result.acked)), env, i, v, turn,
                      Progress(session.now, session.db, box.jobs, result.acked))
    ensures Fair(env, i) ==> result.Counted() - |result.acked| == old(result.Counted()) - |old(result.acked)|
  {
    v := Visit([], []);
    ghost var s := Progress(session.now, session.db, box.jobs, result.acked);
    var reply := box.Drain(MAX_LIST_LIMIT, env.drain(i));
    if reply.Raised? {
      return Broke, v;
    }
    var drained := reply.value;
    result.pages := result.pages + 1;
    if drained.jobs == [] {
      v := EmptyVisit(s, env, i, drained.jobs);
      return Stop, v;
    }
    var ackable;
    ghost var ts;
    ackable, ts := PersistPage(session, result, drained.jobs, env.fault(i));
    v := Visit(drained.jobs, ts);
    HeldIsOnPage(s.db, drained.jobs, env.fault(i), ts);
    if ackable == [] {
      VisitEnds(s, env, i, v, ackable, Stop, Progress(session.now, session.db, box.jobs, result.acked));
      return Stop, v;
    }
    var deleted := AckPage(box, result, ackable, env.ack(i));
    if !deleted {
      VisitEnds(s, env, i, v, ackable, Broke, Progress(session.now, session.db, box.jobs, result.acked));
      return Broke, v;
    }
    turn := if |drained.jobs| >= drained.waiting then Stop else More;
    VisitEnds(s, env, i, v, ackable, turn, Progress(session.now, session.db, box.jobs, result.acked));
  }

  // --- the loop ----------------------------------------------------------------------------

  /** The finished jobs that can never be stored as things are. */
  function Poison(db: Db, jobs: map<Id, Job>): set<Id> {
    Terminal(jobs) - Storable(db, jobs)
  }

  lemma PartOfPage(ids: set<Id>, good: set<Id>, all: set<Id>)
    requires ids <= all && good <= all
    ensures |ids| - |all - good| <= |ids * good|
    ensures |ids| == |all| ==> ids == all
  {
    SetSizes(ids, all);
    SetSizes(ids - good, ids);
    SetSizes(ids - good, all - good);
    assert ids - (ids - good) == ids * good;
    if |ids| == |all| {
      assert all - ids == {};
    }
  }

  lemma GotIsHeld(db: Db, jobs: map<Id, Job>, page: seq<Item>, fault: Id -> Fault, ts: seq<int>, got: seq<Id>)
    requires IsPage(jobs, page) && |ts| == |page| && forall id :: fault(id).Clean?
    requires Names(got, PageHeld(db, page, fault, ts))
    ensures Distinct(got) && Elements(got) == Ids(page) * Storable(db, jobs) && |Elements(got)| == |got| <= |page|
  {
    var held := PageHeld(db, page, fault, ts);
    PageIsStored(db, jobs, page, fault, ts);
    HeldIsOnPage(db, page, fault, ts);
    NamesElements(got, held);
    CountIds(held);
  }

  lemma GotIsStored(db: Db, jobs: map<Id, Job>, page: seq<Item>, fault: Id -> Fault, ts: seq<int>, got: seq<Id>)
    requires IsPage(jobs, page) && |ts| == |page| && forall id :: fault(id).Clean?
    requires Names(got, PageHeld(db, page, fault, ts))
    ensures Stored(db, jobs, PageDb(db, page, fault, ts), BoxAfter(db, jobs, page, fault, ts, Answered), Elements(got))
  {
    PageIsStored(db, jobs, page, fault, ts);
    NamesElements(got, PageHeld(db, page, fault, ts));
    NoneGone(jobs, PageHeld(db, page, fault, ts));
  }

  lemma NoneGone(jobs: map<Id, Job>, held: seq<Item>)
    ensures held == [] ==> jobs - Ids(held) == jobs
  {
  }

  /** A turn in which nothing goes wrong stores what it can and takes exactly that off the box. */
  lemma FairTurn(db: Db, jobs: map<Id, Job>, page: seq<Item>, fault: Id -> Fault, ts: seq<int>, got: seq<Id>)
    requires IsPage(jobs, page) && |ts| == |page| && forall id :: fault(id).Clean?
    requires Names(got, PageHeld(db, page, fault, ts))
    ensures Distinct(got) && |Elements(got)| == |got| <= |page|
    ensures Stored(db, jobs, PageDb(db, page, fault, ts), BoxAfter(db, jobs, page, fault, ts, Answered), Elements(got))
    ensures |page| - |Poison(db, jobs)| <= |got|
    ensures |page| == |Terminal(jobs)| ==> Elements(got) == Storable(db, jobs)
  {
    GotIsHeld(db, jobs, page, fault, ts, got);
    GotIsStored(db, jobs, page, fault, ts, got);
    CountIds(page);
    PartOfPage(Ids(page), Storable(db, jobs), Terminal(jobs));
  }

  lemma DecidedLater(db0: Db, db: Db, db': Db, it: Item)
    requires (DecidedAs(db0, db, it) && SameAt(db, db', it.id)) || (SameAt(db0, db, it.id) && DecidedAs(db, db', it))
    ensures DecidedAs(db0, db', it)
  {
  }

  lemma WroteThen(db0: Db, db: Db, db': Db, jobs: map<Id, Job>, a: set<Id>, b: set<Id>)
    requires a !! b && Wrote(db0, db, jobs, a) && Wrote(db, db', jobs, b)
    ensures Wrote(db0, db', jobs, a + b)
  {
    forall id | id in a + b ensures DecidedAs(db0, db', ItemOf(jobs, id)) {
      assert if id in a then SameAt(db, db', id) else SameAt(db0, db, id);
      DecidedLater(db0, db, db', ItemOf(jobs, id));
    }
    forall id | id !in a + b ensures SameAt(db0, db', id) {
      assert SameAt(db0, db, id) && SameAt(db, db', id);
    }
  }

  /** Two stretches of storing make one, and they store different things. */
  lemma StoredThen(db0: Db, jobs0: map<Id, Job>, db: Db, jobs: map<Id, Job>, a: set<Id>,
                   db': Db, jobs': map<Id, Job>, b: set<Id>)
    requires Stored(db0, jobs0, db, jobs, a) && Stored(db, jobs, db', jobs', b)
    ensures a !! b && Stored(db0, jobs0, db', jobs', a + b)
  {
    StoredLeaves(db0, jobs0, db, jobs, a);
    assert jobs0 - a - b == jobs0 - (a + b);
    WroteThen(db0, db, db', jobs0, a, b);
  }

  lemma StorableLeft(db0: Db, jobs0: map<Id, Job>, db: Db, jobs: map<Id, Job>, a: set<Id>)
    requires Stored(db0, jobs0, db, jobs, a)
    ensures Terminal(jobs) == Terminal(jobs0) - a && Storable(db, jobs) == Storable(db0, jobs0) - a
  {
    forall id | id !in a ensures SameAt(db0, db, id) {
    }
  }

  lemma StoredLeaves(db0: Db, jobs0: map<Id, Job>, db: Db, jobs: map<Id, Job>, a: set<Id>)
    requires Stored(db0, jobs0, db, jobs, a)
    ensures Storable(db, jobs) == Storable(db0, jobs0) - a && Poison(db, jobs) == Poison(db0, jobs0)
    ensures |Terminal(jobs)| == |Terminal(jobs0)| - |a|
  {
    StorableLeft(db0, jobs0, db, jobs, a);
    SetSizes(a, Terminal(jobs0));
  }

  /** The counts after `pages` full turns: `n` jobs waited at the start, `k` of them poison, `a` are acknowledged. */
  predicate FullTurns(n: nat, k: nat, a: nat, pages: nat) {
    && a <= n
    && (k == 0 ==> a == MAX_LIST_LIMIT * pages && (pages > 0 ==> MAX_LIST_LIMIT * pages < n))
    && (k < MAX_LIST_LIMIT ==> a >= pages * (MAX_LIST_LIMIT - k))
  }

  /** The counts at the end: exact without poison, bounded from below with it. */
  predicate FinalCounts(n: nat, k: nat, a: nat, pages: nat) {
    && (k == 0 ==>
          && pages == Max(1, Min(10, (n + 199) / 200)) && a == Min(n, 2000))
    && (k < 200 ==> a >= Min(n - k, 10 * (200 - k)))
  }

  /** From `db0` and `jobs0` exactly the distinct ids in `acked` were stored and taken off the box. */
  ghost predicate Gathered(db0: Db, jobs0: map<Id, Job>, db: Db, jobs: map<Id, Job>, acked: seq<Id>) {
    Stored(db0, jobs0, db, jobs, Elements(acked)) && Distinct(acked) && |Elements(acked)| == |acked|
  }

  function Max(a: int, b: int): int {
    if a >= b then a else b
  }

  lemma ElementsConcat(a: seq<Id>, b: seq<Id>)
    requires Distinct(a) && Distinct(b) && Elements(a) !! Elements(b)
    ensures Elements(a + b) == Elements(a) + Elements(b) && Distinct(a + b)
  {
    assert forall i | 0 <= i < |a| :: a[i] in Elements(a);
    assert forall i | 0 <= i < |b| :: b[i] in Elements(b);
  }

  /** What a turn adds, and the counts it starts from. */
  lemma TurnGathers(db0: Db, jobs0: map<Id, Job>, db: Db, jobs: map<Id, Job>, acked: seq<Id>,
                    db': Db, jobs': map<Id, Job>, got: seq<Id>)
    requires Gathered(db0, jobs0, db, jobs, acked) && Gathered(db, jobs, db', jobs', got)
    ensures Gathered(db0, jobs0, db', jobs', acked + got)
    ensures |Terminal(jobs)| == |Terminal(jobs0)| - |acked| && Poison(db, jobs) == Poison(db0, jobs0)
    ensures |Storable(db, jobs)| == |Terminal(jobs)| - |Poison(db0, jobs0)|
  {
    StoredLeaves(db0, jobs0, db, jobs, Elements(acked));
    StoredThen(db0, jobs0, db, jobs, Elements(acked), db', jobs', Elements(got));
    ElementsConcat(acked, got);
    SetSizes(Storable(db, jobs), Terminal(jobs));
  }

  /** The sizes of one turn: `n` jobs waited at the start of the collection, `k` of them poison, `a` are acknowledged, the
      page shows `size` and acknowledges `g`. */
  predicate TurnFits(n: nat, k: nat, a: nat, size: nat, g: nat) {
    && a <= n && k <= n && size == Min(MAX_LIST_LIMIT, n - a)
    && size - k <= g <= size && (size == n - a ==> a + g == n - k)
  }

  /** The arithmetic of one full turn. */
  lemma TurnArithmetic(n: nat, k: nat, a: nat, pages: nat, size: nat, g: nat)
    requires TurnFits(n, k, a, size, g) && pages < MAX_DRAIN_PAGES && FullTurns(n, k, a, pages)
    ensures if g > 0 && size < n - a then FullTurns(n, k, a + g, pages + 1) else FinalCounts(n, k, a + g, pages + 1)
  {
  }

  /** The number of jobs waiting at first and of those that can never be stored. */
  ghost function Waiting(jobs: map<Id, Job>): nat {
    |Terminal(jobs)|
  }

  ghost function Stuck(db: Db, jobs: map<Id, Job>): nat {
    |Poison(db, jobs)|
  }

  /** What a turn that stores `got` does to the sizes that count. */
  lemma TurnSizes(db0: Db, jobs0: map<Id, Job>, db: Db, jobs: map<Id, Job>, acked: seq<Id>,
                  db': Db, jobs': map<Id, Job>, got: seq<Id>)
    requires Gathered(db0, jobs0, db, jobs, acked) && Gathered(db, jobs, db', jobs', got)
    ensures Gathered(db0, jobs0, db', jobs', acked + got)
    ensures Waiting(jobs) == Waiting(jobs0) - |acked| && Stuck(db, jobs) == Stuck(db0, jobs0) <= Waiting(jobs0)
    ensures Elements(got) == Storable(db, jobs) ==> |acked| + |got| == Waiting(jobs0) - Stuck(db0, jobs0)
  {
    TurnGathers(db0, jobs0, db, jobs, acked, db', jobs', got);
    SetSizes(Poison(db0, jobs0), Terminal(jobs0));
  }

  lemma TurnIsSized(db0: Db, jobs0: map<Id, Job>, db: Db, jobs: map<Id, Job>, acked: seq<Id>,
                    page: seq<Item>, fault: Id -> Fault, ts: seq<int>, got: seq<Id>)
    requires Gathered(db0, jobs0, db, jobs, acked)
    requires IsPage(jobs, page) && |ts| == |page| && forall id :: fault(id).Clean?
    requires Names(got, PageHeld(db, page, fault, ts))
    ensures Gathered(db0, jobs0, PageDb(db, page, fault, ts), BoxAfter(db, jobs, page, fault, ts, Answered), acked + got)
    ensures TurnFits(Waiting(jobs0), Stuck(db0, jobs0), |acked|, |page|, |got|)
    ensures |Terminal(jobs)| == Waiting(jobs0) - |acked|
  {
    FairTurn(db, jobs, page, fault, ts, got);
    TurnSizes(db0, jobs0, db, jobs, acked, PageDb(db, page, fault, ts), BoxAfter(db, jobs, page, fault, ts, Answered), got);
  }

  /** One more turn in which nothing goes wrong. */
  lemma TurnAdvances(db0: Db, jobs0: map<Id, Job>, db: Db, jobs: map<Id, Job>, acked: seq<Id>, pages: nat,
                     page: seq<Item>, fault: Id -> Fault, ts: seq<int>, got: seq<Id>)
    requires Gathered(db0, jobs0, db, jobs, acked) && pages < MAX_DRAIN_PAGES
    requires FullTurns(Waiting(jobs0), Stuck(db0, jobs0), |acked|, pages)
    requires IsPage(jobs, page) && |ts| == |page| && forall id :: fault(id).Clean?
    requires Names(got, PageHeld(db, page, fault, ts))
    ensures Gathered(db0, jobs0, PageDb(db, page, fault, ts), BoxAfter(db, jobs, page, fault, ts, Answered), acked + got)
    ensures if got != [] && |page| < |Terminal(jobs)|
            then FullTurns(Waiting(jobs0), Stuck(db0, jobs0), |acked + got|, pages + 1)
            else FinalCounts(Waiting(jobs0), Stuck(db0, jobs0), |acked + got|, pages + 1)
  {
    TurnIsSized(db0, jobs0, db, jobs, acked, page, fault, ts, got);
    TurnArithmetic(Waiting(jobs0), Stuck(db0, jobs0), |acked|, pages, |page|, |got|);
  }

  /** Ten full turns are the end of it. */
  lemma PagesRunOut(n: nat, k: nat, a: nat)
    requires FullTurns(n, k, a, MAX_DRAIN_PAGES)
    ensures FinalCounts(n, k, a, MAX_DRAIN_PAGES)
  {
  }

  // --- the loop and what it comes to ---------------------------------------------------------

  predicate Stampings(visits: seq<Visit>) {
    forall v | v in visits :: |v.ts| == |v.page|
  }

  /** Where the visits lead. */
  function Collected(s: Progress, env: Season, visits: seq<Visit>): Progress
    requires Stampings(visits)
    decreases |visits|
  {
    if visits == [] then s else
    var n := |visits| - 1;
    Turned(Collected(s, env, visits[..n]), env, n, visits[n])
  }

  /** How the last of them ended. */
  function LastTurn(s: Progress, env: Season, visits: seq<Visit>): Turn
    requires Stampings(visits)
  {
    if visits == [] then More else
    var n := |visits| - 1;
    TurnAt(Collected(s, env, visits[..n]), env, n, visits[n])
  }

  /** The visits are what an honest box answers to a collection that starts at `s`, and each but the last asked for
      another. */
  ghost predicate Visits(s: Progress, env: Season, visits: seq<Visit>)
    requires Stampings(visits)
    decreases |visits|
  {
    visits == [] ||
    var n := |visits| - 1;
    var before := Collected(s, env, visits[..n]);
    && Visits(s, env, visits[..n]) && LastTurn(s, env, visits[..n]) == More
    && env.drain(n).Answered? && IsPage(before.jobs, visits[n].page) && Stamped(before.now, visits[n].ts)
  }

  /** A collection moves rows only forward in time. */
  lemma {:induction false} VisitsRestamp(s: Progress, env: Season, visits: seq<Visit>)
    requires Stampings(visits) && Visits(s, env, visits)
    ensures s.now <= Collected(s, env, visits).now
    ensures RowsRestamped(s.db, Collected(s, env, visits).db, s.now, Collected(s, env, visits).now)
    decreases |visits|
  {
    if visits != [] {
      var n := |visits| - 1;
      var mid, v := Collected(s, env, visits[..n]), visits[n];
      VisitsRestamp(s, env, visits[..n]);
      PageRestamps(mid.db, v.page, env.fault(n), v.ts, mid.now);
      RestampedThen(s.db, mid.db, Collected(s, env, visits).db, s.now, mid.now, Last(mid.now, v.ts));
    }
  }

  /** One more visit, from where the others led. */
  lemma OneMoreVisit(s: Progress, env: Season, visits: seq<Visit>, before: Progress, v: Visit, turn: Turn, s': Progress)
    requires Stampings(visits) && Visits(s, env, visits) && LastTurn(s, env, visits) == More
    requires before == Collected(s, env, visits) && Visited(before, env, |visits|, v, turn, s')
    requires env.drain(|visits|).Answered?
    ensures Stampings(visits + [v]) && Visits(s, env, visits + [v])
    ensures Collected(s, env, visits + [v]) == s' && LastTurn(s, env, visits + [v]) == turn
  {
    assert (visits + [v])[..|visits|] == visits;
  }

  /** The collection that started at `s` and made `visits` stands as the objects say, its last turn having ended so. */
  ghost predicate Stands(s: Progress, env: Season, visits: seq<Visit>, turn: Turn, s': Progress) {
    Stampings(visits) && Visits(s, env, visits) && LastTurn(s, env, visits) == turn && s' == Collected(s, env, visits)
  }

  /** What a collection of collector `p` has added to the history. */
  function CollectedLog(s: Progress, env: Season, visits: seq<Visit>, p: Pid): seq<Entry>
    requires Stampings(visits)
    decreases |visits|
  {
    if visits == [] then [] else
    var n := |visits| - 1;
    var before := Collected(s, env, visits[..n]);
    CollectedLog(s, env, visits[..n], p) + PageLog(before.db, visits[n].page, env.fault(n), visits[n].ts, p)
  }

  /** What a collection has counted. */
  function CollectedCounts(s: Progress, env: Season, visits: seq<Visit>): Counts
    requires Stampings(visits)
    decreases |visits|
  {
    if visits == [] then Counts(0, 0, 0, 0) else
    var n := |visits| - 1;
    Plus(CollectedCounts(s, env, visits[..n]),
         PageCounts(Collected(s, env, visits[..n]).db, visits[n].page, env.fault(n), visits[n].ts))
  }

  lemma VisitCounts(s: Progress, env: Season, visits: seq<Visit>, v: Visit)
    requires Stampings(visits) && |v.ts| == |v.page|
    ensures Stampings(visits + [v])
    ensures CollectedCounts(s, env, visits + [v])
            == Plus(CollectedCounts(s, env, visits), PageCounts(Collected(s, env, visits).db, v.page, env.fault(|visits|), v.ts))
  {
    assert (visits + [v])[..|visits|] == visits;
  }

  /** It is the number of decisions of each kind in the history it adds. */
  lemma {:induction false} CollectedTally(s: Progress, env: Season, visits: seq<Visit>, p: Pid)
    requires Stampings(visits)
    ensures Tally(CollectedLog(s, env, visits, p)) == CollectedCounts(s, env, visits)
    decreases |visits|
  {
    if visits != [] {
      var n := |visits| - 1;
      var db := Collected(s, env, visits[..n]).db;
      CollectedTally(s, env, visits[..n], p);
      PageTally(db, visits[n].page, env.fault(n), visits[n].ts, p);
      TallyOf(CollectedLog(s, env, visits[..n], p), PageLog(db, visits[n].page, env.fault(n), visits[n].ts, p),
              CollectedLog(s, env, visits, p));
    }
  }

  lemma AnyTallies(s: Progress, env: Season, visits: seq<Visit>)
    requires Stampings(visits)
    ensures forall p: Pid :: Tally(CollectedLog(s, env, visits, p)) == CollectedCounts(s, env, visits)
  {
    forall p: Pid ensures Tally(CollectedLog(s, env, visits, p)) == CollectedCounts(s, env, visits) {
      CollectedTally(s, env, visits, p);
    }
  }

  /** `CollectPage`, as one step of a collection. */
  method NextPage(session: Session, box: Box, result: CollectionResult, env: Season, i: nat,
                  ghost s: Progress, ghost visits: seq<Visit>)
    returns (turn: Turn, ghost visits': seq<Visit>)
    requires |visits| == i && Stands(s, env, visits, More, Progress(session.now, session.db, box.jobs, result.acked))
    requires result.Tallied() == CollectedCounts(s, env, visits)
    modifies session, box, result
    ensures result.pages == old(result.pages) + |visits'| - |visits|
    ensures |visits'| == if env.drain(i).Answered? then i + 1 else i
    ensures Stands(s, env, visits', if env.drain(i).Answered? then turn else More,
                   Progress(session.now, session.db, box.jobs, result.acked))
    ensures Stampings(visits') && result.Tallied() == CollectedCounts(s, env, visits')
    ensures !env.drain(i).Answered? ==> turn.Broke?
    ensures Fair(env, i) ==> result.Counted() - |result.acked| == old(result.Counted()) - |old(result.acked)|
  {
    ghost var before := Progress(session.now, session.db, box.jobs, result.acked);
    ghost var v;
    turn, v := CollectPage(session, box, result, env, i);
    visits' := visits;
    if env.drain(i).Answered? {
      OneMoreVisit(s, env, visits, before, v, turn, Progress(session.now, session.db, box.jobs, result.acked));
      VisitCounts(s, env, visits, v);
      visits' := visits + [v];
    }
  }

  /** It is over: it raised, it stopped, it has seen its last page, or the next drain failed. */
  ghost predicate Whole(s: Progress, env: Season, visits: seq<Visit>, last: Turn, s': Progress) {
    && Stands(s, env, visits, last, s') && |visits| <= MAX_DRAIN_PAGES
    && (last.More? && |visits| < MAX_DRAIN_PAGES ==> !env.drain(|visits|).Answered?)
  }

  /** Drain everything that is ready, store it, then acknowledge it. `visits` records what the box answered;
      `raised` says that a drain or an acknowledgement failed, which escapes. */
  method CollectTranscripts(session: Session, box: Box, env: Season)
    returns (result: CollectionResult, raised: bool, ghost visits: seq<Visit>, ghost last: Turn)
    modifies session, box
    ensures fresh(result)
    ensures Whole(Progress(old(session.now), old(session.db), old(box.jobs), []), env, visits, last,
                  Progress(session.now, session.db, box.jobs, result.acked))
    ensures result.pages == |visits|
    ensures raised <==> last.Broke? || (last.More? && |visits| < MAX_DRAIN_PAGES)
    ensures Stampings(visits) && forall p: Pid ::
              result.Tallied()
              == Tally(CollectedLog(Progress(old(session.now), old(session.db), old(box.jobs), []), env, visits, p))
    ensures (forall i: nat | i < MAX_DRAIN_PAGES :: Fair(env, i)) ==> result.Counted() == |result.acked|
  {
    result := new CollectionResult();
    visits, last := [], More;
    ghost var s := Progress(session.now, session.db, box.jobs, []);
    ghost var fair := forall j: nat | j < MAX_DRAIN_PAGES :: Fair(env, j);
    for i := 0 to MAX_DRAIN_PAGES
      invariant result.pages == |visits| == i && last == More
      invariant Stands(s, env, visits, More, Progress(session.now, session.db, box.jobs, result.acked))
      invariant result.Tallied() == CollectedCounts(s, env, visits)
      invariant fair ==> result.Counted() == |result.acked|
    {
      var turn;
      turn, visits := NextPage(session, box, result, env, i, s, visits);
      last := if |visits| == i then More else turn;
      if turn.Broke? {
        AnyTallies(s, env, visits);
        return result, true, visits, last;
      }
      if turn.Stop? {
        break;
      }
    }
    AnyTallies(s, env, visits);
    raised := false;
  }

  /** The progress of a collection that has not asked for a page yet. */
  function Outset(w: World): Progress {
    Progress(w.now, w.db, w.box, [])
  }

  /** The world a collection of collector `p` leaves, seen from the world it started in. */
  function Shown(w: World, p: Pid, env: Season, visits: seq<Visit>): World
    requires Stampings(visits)
  {
    var s := Collected(Outset(w), env, visits);
    w.(now := s.now, db := s.db, box := s.jobs, log := w.log + CollectedLog(Outset(w), env, visits, p))
  }

  lemma OpenLeg(w: World, p: Pid)
    requires p !in w.procs
    ensures Leads(w, SetProc(w, p, Collector([], [])), p, AsCollector)
  {
    LeadsNowhere(w, p, AsCollector);
    LeadsOn(w, w, Gather(p, Open), p, AsCollector);
  }

  lemma ExitLeg(w: World, mid: World, p: Pid)
    requires Leads(w, mid, p, AsCollector) && p !in w.procs && mid.procs == w.procs[p := Collector([], [])]
    ensures Leads(w, mid.(procs := w.procs), p, AsCollector)
  {
    LeadsOn(w, mid, Exit(p), p, AsCollector);
    assert mid.procs - {p} == w.procs;
  }

  lemma TurnWorldIs(w: World, p: Pid, s: Progress, env: Season, n: nat, v: Visit)
    requires |v.ts| == |v.page| && w.now == s.now && w.db == s.db && w.box == s.jobs
    ensures var s' := Turned(s, env, n, v);
            TurnWorld(w, p, v.page, env.fault(n), v.ts, env.ack(n))
            == w.(now := s'.now, db := s'.db, box := s'.jobs,
                  log := w.log + PageLog(s.db, v.page, env.fault(n), v.ts, p),
                  procs := if TurnAt(s, env, n, v).Broke? then w.procs - {p} else w.procs)
  {
  }

  /** The last of the visits, taken apart. */
  lemma LastVisit(s: Progress, env: Season, visits: seq<Visit>, p: Pid)
    requires Stampings(visits) && visits != []
    ensures var n := |visits| - 1;
            var before := Collected(s, env, visits[..n]);
            && Collected(s, env, visits) == Turned(before, env, n, visits[n])
            && LastTurn(s, env, visits) == TurnAt(before, env, n, visits[n])
            && CollectedLog(s, env, visits, p)
               == CollectedLog(s, env, visits[..n], p) + PageLog(before.db, visits[n].page, env.fault(n), visits[n].ts, p)
  {
  }

  /** `Made`, given what the visits came to. */
  function MadeOf(w: World, p: Pid, s: Progress, log: seq<Entry>, turn: Turn): World {
    w.(now := s.now, db := s.db, box := s.jobs, log := w.log + log, procs := if turn.Broke? then w.procs - {p} else w.procs)
  }

  lemma Longer(a: seq<Entry>, b: seq<Entry>, c: seq<Entry>)
    ensures (a + b) + c == a + (b + c)
  {
  }

  lemma MadeStep(w: World, p: Pid, s: Progress, log: seq<Entry>, env: Season, n: nat, v: Visit)
    requires |v.ts| == |v.page|
    ensures TurnWorld(MadeOf(w, p, s, log, More), p, v.page, env.fault(n), v.ts, env.ack(n))
            == MadeOf(w, p, Turned(s, env, n, v), log + PageLog(s.db, v.page, env.fault(n), v.ts, p), TurnAt(s, env, n, v))
  {
    TurnWorldIs(MadeOf(w, p, s, log, More), p, s, env, n, v);
    Longer(w.log, log, PageLog(s.db, v.page, env.fault(n), v.ts, p));
  }

  /** The world once the visits are made by the collector at `p`, which a broken turn ends. */
  function Made(w: World, p: Pid, env: Season, visits: seq<Visit>): World
    requires Stampings(visits)
  {
    MadeOf(w, p, Collected(Outset(w), env, visits), CollectedLog(Outset(w), env, visits, p),
           LastTurn(Outset(w), env, visits))
  }

  lemma {:induction false} VisitsAreRun(w: World, p: Pid, env: Season, visits: seq<Visit>)
    requires p in w.procs && w.procs[p] == Collector([], []) && Stampings(visits) && Visits(Outset(w), env, visits)
    ensures Leads(w, Made(w, p, env, visits), p, AsCollector)
    decreases |visits|
  {
    if visits == [] {
      LeadsNowhere(w, p, AsCollector);
      assert w.log + [] == w.log;
    } else {
      var n := |visits| - 1;
      VisitsAreRun(w, p, env, visits[..n]);
      var mid := Made(w, p, env, visits[..n]);
      TurnLeg(mid, p, visits[n].page, env.fault(n), visits[n].ts, env.ack(n));
      LastVisit(Outset(w), env, visits, p);
      MadeStep(w, p, Collected(Outset(w), env, visits[..n]), CollectedLog(Outset(w), env, visits[..n], p), env, n,
               visits[n]);
      LeadsThen(w, mid, Made(w, p, env, visits), p, AsCollector);
    }
  }

  lemma OpenedAreRun(w: World, p: Pid, env: Season, visits: seq<Visit>) returns (w': World)
    requires p !in w.procs && Stampings(visits) && Visits(Outset(w), env, visits)
    ensures Leads(w, w', p, AsCollector)
    ensures w' == Shown(w, p, env, visits).(
                    procs := if LastTurn(Outset(w), env, visits).Broke? then w.procs
                             else w.procs[p := Collector([], [])])
  {
    OpenLeg(w, p);
    var w1 := SetProc(w, p, Collector([], []));
    VisitsAreRun(w1, p, env, visits);
    w' := Made(w1, p, env, visits);
    LeadsThen(w, w1, w', p, AsCollector);
    assert w1.procs - {p} == w.procs;
  }

  /** A whole collection, however it ends, is a run of one collector. */
  lemma CollectionIsRun(w: World, p: Pid, env: Season, visits: seq<Visit>)
    requires p !in w.procs && Stampings(visits) && Visits(Outset(w), env, visits)
    ensures Leads(w, Shown(w, p, env, visits), p, AsCollector)
  {
    var w1 := OpenedAreRun(w, p, env, visits);
    if !LastTurn(Outset(w), env, visits).Broke? {
      ExitLeg(w, w1, p);
    }
  }

  /** The world a collection leaves that dies once it has persisted `n` jobs of a page, after the visits it has made. */
  function BrokenOff(w: World, p: Pid, env: Season, visits: seq<Visit>, page: seq<Item>, n: nat, ts: seq<int>): World
    requires Stampings(visits) && n <= |page| && |ts| == n
  {
    var w1, fault := Shown(w, p, env, visits), env.fault(|visits|);
    w1.(now := Last(w1.now, ts), log := w1.log + PageLog(w1.db, page[..n], fault, ts, p),
        db := PageDb(w1.db, page[..n], fault, ts))
  }

  /** Drain, persist some of the page, and die. */
  lemma PartLeg(w: World, p: Pid, page: seq<Item>, n: nat, fault: Id -> Fault, ts: seq<int>) returns (w': World)
    requires p in w.procs && w.procs[p] == Collector([], []) && IsPage(w.box, page)
    requires n <= |page| && |ts| == n && Stamped(w.now, ts)
    ensures Leads(w, w', p, AsCollector)
    ensures w' == w.(now := Last(w.now, ts), log := w.log + PageLog(w.db, page[..n], fault, ts, p),
                     db := PageDb(w.db, page[..n], fault, ts), procs := w.procs - {p})
  {
    LeadsNowhere(w, p, AsCollector);
    LeadsOn(w, w, Gather(p, Drain(page)), p, AsCollector);
    var w1 := SetProc(w, p, Collector(page, []));
    assert page[..n] + page[n..] == page;
    PageLeg(w1, p, page[..n], page[n..], fault, ts);
    var w2 := Persisted(w1, p, page[..n], page[n..], fault, ts);
    LeadsThen(w, w1, w2, p, AsCollector);
    LeadsOn(w, w2, Exit(p), p, AsCollector);
    w' := Gone(w2, p);
    assert w'.procs == w.procs - {p};
  }

  /** It is a run of that collector too, wherever on the page it dies, in particular between persist and ack. */
  lemma BrokenOffIsRun(w: World, p: Pid, env: Season, visits: seq<Visit>, page: seq<Item>, n: nat, ts: seq<int>)
    requires p !in w.procs && Stampings(visits) && Visits(Outset(w), env, visits) && LastTurn(Outset(w), env, visits) == More
    requires IsPage(Shown(w, p, env, visits).box, page) && n <= |page| && |ts| == n
    requires Stamped(Shown(w, p, env, visits).now, ts)
    ensures Leads(w, BrokenOff(w, p, env, visits, page, n, ts), p, AsCollector)
  {
    var w1 := OpenedAreRun(w, p, env, visits);
    var w2 := PartLeg(w1, p, page, n, env.fault(|visits|), ts);
    LeadsThen(w, w1, w2, p, AsCollector);
    CameAndWent(w.procs, p, Collector([], []));
  }

  /** The collection that started at `s` has made `pages` full turns. */
  ghost predicate Underway(s: Progress, s': Progress, pages: nat) {
    && Gathered(s.db, s.jobs, s'.db, s'.jobs, s'.acked)
    && FullTurns(Waiting(s.jobs), Stuck(s.db, s.jobs), |s'.acked|, pages)
  }

  /** It has ended after `pages` pages. */
  ghost predicate Ended(s: Progress, s': Progress, pages: nat) {
    && Gathered(s.db, s.jobs, s'.db, s'.jobs, s'.acked)
    && FinalCounts(Waiting(s.jobs), Stuck(s.db, s.jobs), |s'.acked|, pages)
  }

  lemma NothingYet(s: Progress)
    requires s.acked == []
    ensures Underway(s, s, 0)
  {
  }

  ghost predicate Standing(s: Progress, s': Progress, turn: Turn, pages: nat) {
    match turn
    case Broke => false
    case More => Underway(s, s', pages)
    case Stop => Ended(s, s', pages)
  }

  lemma TurnedAdvances(s0: Progress, s: Progress, env: Season, i: nat, v: Visit)
    requires Underway(s0, s, i) && i < MAX_DRAIN_PAGES && Fair(env, i) && IsPage(s.jobs, v.page) && |v.ts| == |v.page|
    ensures Standing(s0, Turned(s, env, i, v), TurnAt(s, env, i, v), i + 1)
  {
    TurnAdvances(s0.db, s0.jobs, s.db, s.jobs, s.acked, i, v.page, env.fault(i), v.ts,
                 IdsOf(PageHeld(s.db, v.page, env.fault(i), v.ts)));
  }

  /** The visits so far have stored what they acknowledged, and the counts are as they should be. */
  ghost predicate InOrder(s: Progress, env: Season, visits: seq<Visit>)
    requires Stampings(visits)
  {
    Standing(s, Collected(s, env, visits), LastTurn(s, env, visits), |visits|)
  }

  lemma VisitAdvances(s: Progress, env: Season, visits: seq<Visit>)
    requires Stampings(visits) && visits != [] && Visits(s, env, visits) && |visits| <= MAX_DRAIN_PAGES
    requires Fair(env, |visits| - 1) && InOrder(s, env, visits[..|visits| - 1])
    ensures InOrder(s, env, visits)
  {
    var n := |visits| - 1;
    TurnedAdvances(s, Collected(s, env, visits[..n]), env, n, visits[n]);
  }

  lemma {:induction false} FairVisits(s: Progress, env: Season, visits: seq<Visit>)
    requires s.acked == [] && |visits| <= MAX_DRAIN_PAGES && Stampings(visits) && Visits(s, env, visits)
    requires forall i: nat | i < |visits| :: Fair(env, i)
    ensures InOrder(s, env, visits)
    decreases |visits|
  {
    if visits == [] {
      NothingYet(s);
    } else {
      FairVisits(s, env, visits[..|visits| - 1]);
      VisitAdvances(s, env, visits);
    }
  }

  lemma Concludes(s: Progress, s': Progress, turn: Turn, pages: nat)
    requires Standing(s, s', turn, pages) && (turn.More? ==> pages == MAX_DRAIN_PAGES)
    ensures Ended(s, s', pages) && Waiting(s'.jobs) == Waiting(s.jobs) - |s'.acked|
    ensures Elements(s'.acked) !! Poison(s.db, s.jobs)
  {
    if turn.More? {
      PagesRunOut(Waiting(s.jobs), Stuck(s.db, s.jobs), |s'.acked|);
    }
    StoredLeaves(s.db, s.jobs, s'.db, s'.jobs, Elements(s'.acked));
  }

  /** A collection in which nothing goes wrong raises nothing and stores and takes off the box exactly the ids it
      acknowledged, none of them one that can never be stored. With nothing of that kind waiting, the number of pages
      and of acknowledged jobs is exact; with fewer than a page of them, the others get through all the same. */
  lemma CollectionCounts(s: Progress, env: Season, visits: seq<Visit>, last: Turn, s': Progress)
    requires s.acked == [] && Whole(s, env, visits, last, s')
    requires forall i: nat | i < MAX_DRAIN_PAGES :: Fair(env, i)
    ensures last.Stop? || (last.More? && |visits| == MAX_DRAIN_PAGES)
    ensures Ended(s, s', |visits|) && Waiting(s'.jobs) == Waiting(s.jobs) - |s'.acked|
    ensures Elements(s'.acked) !! Poison(s.db, s.jobs)
  {
    FairVisits(s, env, visits);
    assert |visits| < MAX_DRAIN_PAGES ==> Fair(env, |visits|);
    Concludes(s, s', last, |visits|);
  }

  /** A turn that asks for another page took at least one job off the box; none puts one there. */
  lemma TurnRemoves(s: Progress, env: Season, n: nat, v: Visit)
    requires |v.ts| == |v.page| && IsPage(s.jobs, v.page)
    ensures var jobs := Turned(s, env, n, v).jobs;
            |jobs| <= |s.jobs| && (TurnAt(s, env, n, v).More? ==> |jobs| + 1 <= |s.jobs|)
  {
    var held, jobs := PageHeld(s.db, v.page, env.fault(n), v.ts), Turned(s, env, n, v).jobs;
    HeldIsOnPage(s.db, v.page, env.fault(n), v.ts);
    SetSizes(jobs.Keys, s.jobs.Keys);
    assert |jobs| == |jobs.Keys| && |s.jobs| == |s.jobs.Keys|;
    if TurnAt(s, env, n, v).More? {
      assert held[0].id in s.jobs.Keys - jobs.Keys;
    }
  }

  /** Whatever goes wrong, every page that is followed by another took at least one job off the box: the loop cannot
      spin. */
  lemma {:induction false} NoIdlePage(s: Progress, env: Season, visits: seq<Visit>)
    requires Stampings(visits) && Visits(s, env, visits)
    ensures |Collected(s, env, visits).jobs| + |visits| - (if LastTurn(s, env, visits).More? then 0 else 1) <= |s.jobs|
    decreases |visits|
  {
    if visits != [] {
      var n := |visits| - 1;
      NoIdlePage(s, env, visits[..n]);
      TurnRemoves(Collected(s, env, visits[..n]), env, n, visits[n]);
    }
  }
}
