/** The service as whoever schedules it sees it: whole executions of its entry points, one after the other, in which no
    call fails, no write is rolled back and nobody dies. The scheduler says what comes next. How it comes out - which jobs
    the box lists on a page, how the database orders rows of equal age, how long anything takes, what the box makes of
    a job - is not up to it. */
module Service {
  import opened Wrappers
  import opened Core
  import opened Protocol
  import opened Paths
  import opened Submission
  import opened SweepPass
  import Collection

  /** What the scheduler may let happen next. */
  datatype Move =
    | Wait(to: int)
    | BoxWork(id: Id)
    | Collect
    | FullSweep
    | Attempt(id: Id)
    | NewTask(id: Id)
    | Lapse(id: Id)

  const FAIR := Collection.Season(_ => Answered, _ => Answered, _ => _ => Clean)
  const CLEAR := Sky(_ => Answered, _ => true, _ => true)
  const CALM := Weather(Serving, Answered, Answered, Answered)

  // --- how a move can come out -----------------------------------------------------------------

  /** One execution of `collect_transcripts`, by process `p`, with these answers of the box. */
  ghost predicate CollectsBy(w: World, p: Pid, visits: seq<Collection.Visit>, last: Collection.Turn, s': Collection.Progress,
                             w': World)
  {
    && p !in w.procs && Collection.Whole(Collection.Outset(w), FAIR, visits, last, s')
    && w' == Collection.Shown(w, p, FAIR, visits)
  }

  ghost predicate Collects(w: World, w': World) {
    exists p, visits, last, s' :: CollectsBy(w, p, visits, last, s', w')
  }

  /** The part of a sweep that follows its collection, with these answers of the database. */
  ghost predicate RedrivesBy(w: World, pass: Pass, w': World) {
    Passes(w.db, w.box, w.now, w.cfg, CLEAR, pass, w'.db) && w' == Redriven(w, CLEAR, pass, w'.db)
  }

  ghost predicate Redrives(w: World, w': World) {
    exists pass :: RedrivesBy(w, pass, w')
  }

  /** One execution of `sweep`. */
  ghost predicate Sweeps(w: World, w': World) {
    exists mid :: Collects(w, mid) && Redrives(mid, w')
  }

  /** One execution of `run_transcription`. */
  ghost predicate Attempts(w: World, id: Id, w': World) {
    exists t0, t :: w.now <= t0 <= t && w' == Attempted(w, id, CALM, t0, t)
  }

  /** What the box may make of a job it works off: a failure, or a text that fits its column; of the recording recovery is
      about, a text. */
  predicate Fitting(result: Result, own: bool) {
    match result
    case Transcript(Some(text)) => |text| <= 2000
    case Transcript(None) => true
    case Failure(_) => !own
  }

  predicate Can(w: World, m: Move) {
    match m
    case Wait(to) => w.now <= to
    case BoxWork(id) => id in w.box && !w.box[id].status.Finished?
    case Attempt(id) => id in w.queue && Claimable(w.db, id)
    case Lapse(id) => id in w.box
    case _ => true
  }

  ghost predicate Could(w: World, m: Move, w': World, own: Id)
    requires Can(w, m)
  {
    match m
    case Wait(to) => w' == w.(now := to)
    case BoxWork(id) => exists result :: Fitting(result, id == own) && w' == WorkedOff(w, id, result)
    case Collect => Collects(w, w')
    case FullSweep => Sweeps(w, w')
    case Attempt(id) => Attempts(w, id, w')
    case NewTask(id) => w' == WithTask(w, id, true)
    case Lapse(id) => w' == w.(box := w.box - {id})
  }

  /** One way for everything to come out, in every world; the world includes its whole history. */
  type Fate = (World, Move) -> World

  ghost predicate Honest(fate: Fate, own: Id) {
    forall w, m | Can(w, m) :: Could(w, m, fate(w, m), own)
  }

  // --- plays -----------------------------------------------------------------------------------

  function Play(w: World, moves: seq<Move>, fate: Fate): World
    decreases |moves|
  {
    if moves == [] then w else Play(fate(w, moves[0]), moves[1..], fate)
  }

  predicate Playable(w: World, moves: seq<Move>, fate: Fate)
    decreases |moves|
  {
    moves == [] || (Can(w, moves[0]) && Playable(fate(w, moves[0]), moves[1..], fate))
  }

  /** The scheduler may ask for new tasks of these recordings, and may let results on the box expire. */
  datatype Rules = Rules(tasks: set<Id>, expiry: bool)

  predicate Allows(rules: Rules, m: Move) {
    (m.NewTask? ==> m.id in rules.tasks) && (m.Lapse? ==> rules.expiry)
  }

  ghost predicate Reaches(w: World, w': World, fate: Fate, rules: Rules) {
    exists moves :: Playable(w, moves, fate) && Play(w, moves, fate) == w' && forall m | m in moves :: Allows(rules, m)
  }

  lemma Stay(w: World, fate: Fate, rules: Rules)
    ensures Reaches(w, w, fate, rules)
  {
    assert Playable(w, [], fate) && Play(w, [], fate) == w;
  }

  lemma {:induction false} PlayConcat(w: World, first: seq<Move>, second: seq<Move>, fate: Fate)
    requires Playable(w, first, fate) && Playable(Play(w, first, fate), second, fate)
    ensures Playable(w, first + second, fate)
    ensures Play(w, first + second, fate) == Play(Play(w, first, fate), second, fate)
    decreases |first|
  {
    if first == [] {
      assert first + second == second;
    } else {
      PlayConcat(fate(w, first[0]), first[1..], second, fate);
      assert (first + second)[1..] == first[1..] + second;
    }
  }

  lemma Then(w: World, mid: World, w': World, fate: Fate, rules: Rules)
    requires Reaches(w, mid, fate, rules) && Reaches(mid, w', fate, rules)
    ensures Reaches(w, w', fate, rules)
  {
    var first :| Playable(w, first, fate) && Play(w, first, fate) == mid && forall m | m in first :: Allows(rules, m);
    var second :| Playable(mid, second, fate) && Play(mid, second, fate) == w' && forall m | m in second :: Allows(rules, m);
    PlayConcat(w, first, second, fate);
    assert forall m | m in first + second :: Allows(rules, m);
  }

  lemma One(w: World, m: Move, fate: Fate, rules: Rules)
    requires Can(w, m) && Allows(rules, m)
    ensures Reaches(w, fate(w, m), fate, rules)
  {
    var w' := fate(w, m);
    assert [m][1..] == [];
    assert Playable(w', [], fate) && Play(w', [], fate) == w';
    assert Playable(w, [m], fate) && Play(w, [m], fate) == w';
  }

  // --- a play is a run of the protocol -----------------------------------------------------------

  lemma CollectIsRun(w: World, w': World)
    requires Reachable(w) && Collects(w, w')
    ensures Reachable(w')
  {
    var p, visits, last, s' :| CollectsBy(w, p, visits, last, s', w');
    Collection.CollectionIsRun(w, p, FAIR, visits);
    LeadsReachable(w, w', p, AsCollector);
  }

  lemma RedriveIsReachable(w: World, w': World)
    requires Reachable(w) && Redrives(w, w')
    ensures Reachable(w')
  {
    var pass :| RedrivesBy(w, pass, w');
    var p := FreshPid(w);
    RedriveIsRun(w, p, CLEAR, pass, w'.db);
    LeadsReachable(w, w', p, AsSweeper);
  }

  lemma MoveIsRun(w: World, m: Move, w': World, own: Id)
    requires Reachable(w) && Can(w, m) && Could(w, m, w', own)
    ensures Reachable(w')
  {
    match m
    case Wait(to) => ReachableNext(w, Outside(Tick(to)));
    case BoxWork(id) =>
      var result :| Fitting(result, id == own) && w' == WorkedOff(w, id, result);
      BoxWorkIsRun(w, id, result);
    case Collect => CollectIsRun(w, w');
    case FullSweep =>
      var mid :| Collects(w, mid) && Redrives(mid, w');
      CollectIsRun(w, mid);
      RedriveIsReachable(mid, w');
    case Attempt(id) =>
      var t0, t :| w.now <= t0 <= t && w' == Attempted(w, id, CALM, t0, t);
      var p := FreshPid(w);
      AttemptIsRun(w, p, id, CALM, t0, t);
      LeadsReachable(w, w', p, AsWorker(id));
    case NewTask(id) => ReachableNext(w, Outside(Enqueue(id)));
    case Lapse(id) => ReachableNext(w, AtBox(Expire(id)));
  }

  /** Whatever the scheduler does, and however it comes out, is a run of the protocol. */
  lemma {:induction false} PlayIsRun(w: World, moves: seq<Move>, fate: Fate, own: Id)
    requires Reachable(w) && Honest(fate, own) && Playable(w, moves, fate)
    ensures Reachable(Play(w, moves, fate))
    decreases |moves|
  {
    if moves != [] {
      MoveIsRun(w, moves[0], fate(w, moves[0]), own);
      PlayIsRun(fate(w, moves[0]), moves[1..], fate, own);
    }
  }
}
