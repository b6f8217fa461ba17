/** Creating a tag by name while others do the same: the unique constraint on (user, name) makes the row one, and a
    caller that lost the race is given the winner's. */
module TagUpsert {
  import opened Wrappers

  type Id = string

  datatype Tag = Tag(user: Id, name: string, color: Option<string>)

  predicate IsTag(tags: map<Id, Tag>, id: Id, user: Id, name: string) {
    id in tags && tags[id].user == user && tags[id].name == name
  }

  /** The table constraint `uq_tags_user_id_name`. */
  predicate Unique(tags: map<Id, Tag>) {
    forall i, j | i in tags && j in tags && IsTag(tags, j, tags[i].user, tags[i].name) :: i == j
  }

  predicate Free(tags: map<Id, Tag>, user: Id, name: string) {
    forall id | id in tags :: !IsTag(tags, id, user, name)
  }

  // --- one upsert among others ---------------------------------------------------------------

  /** What other upserts may do meanwhile: add rows. */
  predicate Grows(tags: map<Id, Tag>, tags': map<Id, Tag>) {
    Unique(tags') && forall id | id in tags :: id in tags' && tags'[id] == tags[id]
  }

  datatype Upserted = Got(id: Id, created: bool) | IntegrityError

  class TagTable {
    var tags: map<Id, Tag>

    constructor ()
      ensures tags == map[] && Unique(tags)
    {
      tags := map[];
    }

    /** Other requests run until this one goes on; none of them draws the uuid `mine`. */
    method Await(mine: Id)
      requires Unique(tags)
      modifies this
      ensures Grows(old(tags), tags) && (mine in tags ==> mine in old(tags))
    {
      assert Grows(tags, tags);
      var after :| Grows(tags, after) && (mine in after ==> mine in tags);
      tags := after;
    }

    method GetTagByName(user: Id, name: string) returns (found: Option<Id>)
      requires Unique(tags)
      ensures found.Some? ==> found.value in tags && tags[found.value].user == user && tags[found.value].name == name
      ensures found.None? ==> Free(tags, user, name)
    {
      if id :| id in tags && tags[id].user == user && tags[id].name == name {
        return Some(id);
      }
      found := None;
    }

    /** Insert and commit; False is the unique-constraint error. */
    method Insert(id: Id, tag: Tag) returns (ok: bool)
      requires Unique(tags) && id !in tags
      modifies this
      ensures ok <==> Free(old(tags), tag.user, tag.name)
      ensures tags == if ok then old(tags)[id := tag] else old(tags)
      ensures Unique(tags)
    {
      ok := forall other | other in tags :: tags[other].user != tag.user || tags[other].name != tag.name;
      if ok {
        tags := tags[id := tag];
      }
    }

    /** `newId` is the uuid a new row would get. Whatever the others do, nothing is raised and the caller is given the
        one row of that name; it made that row, with its color, only if the name was free when it asked. */
    method UpsertTagByName(user: Id, name: string, color: Option<string>, newId: Id) returns (result: Upserted)
      requires Unique(tags) && newId !in tags
      modifies this
      ensures Grows(old(tags), tags)
      ensures result.Got? && result.id in tags && tags[result.id].user == user && tags[result.id].name == name
      ensures forall id | id in tags && tags[id].user == user && tags[id].name == name :: id == result.id
      ensures result.created ==>
                Free(old(tags), user, name) && result.id == newId && tags[newId] == Tag(user, name, color)
      ensures !result.created ==> newId !in tags
      ensures !Free(old(tags), user, name) ==> result.id in old(tags)
    {
      Await(newId);
      var existing := GetTagByName(user, name);
      if existing.Some? {
        return Got(existing.value, false);
      }
      Await(newId);
      var ok := Insert(newId, Tag(user, name, color));
      if !ok {
        Await(newId);
        existing := GetTagByName(user, name);
        return if existing.Some? then Got(existing.value, false) else IntegrityError;
      }
      Await(newId);
      result := Got(newId, true);
    }
  }

  // --- all upserts together ------------------------------------------------------------------

  /** Where a request stands. `Died` is a crash, at any point before the answer. */
  datatype Pc = Looking | Inserting | Rereading | Made(id: Id) | Answered(id: Id, created: bool) | Raised | Died

  datatype Request = Request(user: Id, name: string, color: Option<string>, pc: Pc)

  datatype World = World(tags: map<Id, Tag>, requests: map<nat, Request>, made: map<Id, nat>)

  /** `made` remembers which request inserted a row. */
  datatype Step =
    | Arrive(p: nat, user: Id, name: string, color: Option<string>)
    | Look(p: nat)
    | Insert(p: nat, newId: Id)
    | Reread(p: nat)
    | Answer(p: nat)
    | Die(p: nat)

  predicate At(w: World, p: nat, pc: Pc) {
    p in w.requests && w.requests[p].pc == pc
  }

  predicate Can(w: World, s: Step) {
    match s
    case Arrive(p, _, _, _) => p !in w.requests
    case Look(p) => At(w, p, Looking)
    case Insert(p, newId) => At(w, p, Inserting) && newId !in w.tags
    case Reread(p) => At(w, p, Rereading)
    case Answer(p) => p in w.requests && w.requests[p].pc.Made?
    case Die(p) => p in w.requests && !w.requests[p].pc.Answered? && !w.requests[p].pc.Raised? && !w.requests[p].pc.Died?
  }

  function Goto(w: World, p: nat, pc: Pc): World
    requires p in w.requests
  {
    w.(requests := w.requests[p := w.requests[p].(pc := pc)])
  }

  /** The row a request for the name would find. */
  function Named(tags: map<Id, Tag>, user: Id, name: string): (found: Option<Id>)
    requires Unique(tags)
    ensures match found case Some(id) => IsTag(tags, id, user, name) case None => Free(tags, user, name)
  {
    if Free(tags, user, name) then None else
    var id :| id in tags && IsTag(tags, id, user, name); Some(id)
  }

  function Do(w: World, s: Step): World
    requires Unique(w.tags) && Can(w, s)
  {
    match s
    case Arrive(p, user, name, color) => w.(requests := w.requests[p := Request(user, name, color, Looking)])
    case Look(p) =>
      var found := Named(w.tags, w.requests[p].user, w.requests[p].name);
      Goto(w, p, if found.Some? then Answered(found.value, false) else Inserting)
    case Insert(p, newId) =>
      var req := w.requests[p];
      if Free(w.tags, req.user, req.name)
      then Goto(w, p, Made(newId)).(tags := w.tags[newId := Tag(req.user, req.name, req.color)], made := w.made[newId := p])
      else Goto(w, p, Rereading)
    case Reread(p) =>
      var found := Named(w.tags, w.requests[p].user, w.requests[p].name);
      Goto(w, p, if found.Some? then Answered(found.value, false) else Raised)
    case Answer(p) => Goto(w, p, Answered(w.requests[p].pc.id, true))
    case Die(p) => Goto(w, p, Died)
  }

  /** What a request has done agrees with the rows and with who made them. */
  ghost predicate Fits(w: World, p: nat)
    requires p in w.requests
  {
    var req := w.requests[p];
    match req.pc
    case Rereading => !Free(w.tags, req.user, req.name)
    case Made(id) => id in w.made && w.made[id] == p
    case Answered(id, created) => IsTag(w.tags, id, req.user, req.name) && (created <==> id in w.made && w.made[id] == p)
    case Raised => false
    case _ => true
  }

  /** A row that was inserted is as its request asked for. */
  ghost predicate Maker(w: World, id: Id)
    requires id in w.made
  {
    id in w.tags && w.made[id] in w.requests &&
    var req := w.requests[w.made[id]];
    w.tags[id] == Tag(req.user, req.name, req.color) && (req.pc == Made(id) || req.pc == Answered(id, true) || req.pc.Died?)
  }

  /** `w` grew out of `w0`, in which no request was under way. */
  ghost predicate Inv(w0: World, w: World) {
    && Unique(w.tags)
    && (forall id | id in w0.tags :: id in w.tags && w.tags[id] == w0.tags[id] && id !in w.made)
    && (forall id | id in w.tags :: id in w0.tags || id in w.made)
    && (forall id | id in w.made :: Maker(w, id))
    && (forall p | p in w.requests :: Fits(w, p))
  }

  predicate Legal(w: World, steps: seq<Step>)
    decreases |steps|
  {
    Unique(w.tags) && (steps == [] || (Can(w, steps[0]) && Legal(Do(w, steps[0]), steps[1..])))
  }

  function Run(w: World, steps: seq<Step>): World
    requires Legal(w, steps)
    decreases |steps|
  {
    if steps == [] then w else Run(Do(w, steps[0]), steps[1..])
  }

  lemma StillTaken(tags: map<Id, Tag>, newId: Id, tag: Tag, user: Id, name: string)
    requires !Free(tags, user, name) && newId !in tags
    ensures !Free(tags[newId := tag], user, name)
  {
    var id :| id in tags && IsTag(tags, id, user, name);
    assert IsTag(tags[newId := tag], id, user, name);
  }

  lemma FreeInsertKeeps(w0: World, w: World, p: nat, newId: Id)
    requires Inv(w0, w) && Can(w, Insert(p, newId)) && Free(w.tags, w.requests[p].user, w.requests[p].name)
    ensures Inv(w0, Do(w, Insert(p, newId)))
  {
    var w', req := Do(w, Insert(p, newId)), w.requests[p];
    forall q | q in w'.requests ensures Fits(w', q) {
      assert Fits(w, q);
      if q != p && w.requests[q].pc.Rereading? {
        StillTaken(w.tags, newId, Tag(req.user, req.name, req.color), w.requests[q].user, w.requests[q].name);
      }
    }
    forall id | id in w'.made ensures Maker(w', id) {
      if id in w.made {
        assert Maker(w, id) && w.made[id] != p;
      }
    }
  }

  /** A step that only moves one request. */
  lemma GotoKeeps(w0: World, w: World, p: nat, pc: Pc)
    requires Inv(w0, w) && p in w.requests && Fits(Goto(w, p, pc), p)
    requires match w.requests[p].pc
             case Made(id) => pc == Answered(id, true) || pc == Died
             case Answered(_, _) => false
             case Died => false
             case _ => true
    ensures Inv(w0, Goto(w, p, pc))
  {
    var w' := Goto(w, p, pc);
    forall q | q in w'.requests ensures Fits(w', q) {
      assert Fits(w, q);
    }
    forall id | id in w'.made ensures Maker(w', id) {
      assert Maker(w, id);
    }
  }

  lemma FitsWhenFound(w0: World, w: World, p: nat)
    requires Inv(w0, w) && (At(w, p, Looking) || At(w, p, Rereading))
    requires Named(w.tags, w.requests[p].user, w.requests[p].name).Some?
    ensures var found := Named(w.tags, w.requests[p].user, w.requests[p].name).value;
            Fits(Goto(w, p, Answered(found, false)), p)
  {
  }

  lemma ArriveKeeps(w0: World, w: World, p: nat, user: Id, name: string, color: Option<string>)
    requires Inv(w0, w) && p !in w.requests
    ensures Inv(w0, Do(w, Arrive(p, user, name, color)))
  {
  }

  lemma LookKeeps(w0: World, w: World, p: nat)
    requires Inv(w0, w) && (At(w, p, Looking) || At(w, p, Rereading))
    ensures At(w, p, Looking) ==> Inv(w0, Do(w, Look(p)))
    ensures At(w, p, Rereading) ==> Inv(w0, Do(w, Reread(p)))
  {
    var found := Named(w.tags, w.requests[p].user, w.requests[p].name);
    assert Fits(w, p);
    if found.Some? {
      FitsWhenFound(w0, w, p);
      GotoKeeps(w0, w, p, Answered(found.value, false));
    } else if At(w, p, Looking) {
      GotoKeeps(w0, w, p, Inserting);
    }
  }

  lemma StepKeeps(w0: World, w: World, s: Step)
    requires Inv(w0, w) && Can(w, s)
    ensures Inv(w0, Do(w, s))
  {
    match s
    case Arrive(p, user, name, color) => ArriveKeeps(w0, w, p, user, name, color);
    case Look(p) => LookKeeps(w0, w, p);
    case Reread(p) => LookKeeps(w0, w, p);
    case Insert(p, newId) =>
      if Free(w.tags, w.requests[p].user, w.requests[p].name) {
        FreeInsertKeeps(w0, w, p, newId);
      } else {
        GotoKeeps(w0, w, p, Rereading);
      }
    case Answer(p) =>
      assert Fits(w, p) && Maker(w, w.requests[p].pc.id);
      GotoKeeps(w0, w, p, Answered(w.requests[p].pc.id, true));
    case Die(p) => GotoKeeps(w0, w, p, Died);
  }

  lemma {:induction false} RunKeeps(w0: World, w: World, steps: seq<Step>)
    requires Inv(w0, w) && Legal(w, steps)
    ensures Inv(w0, Run(w, steps))
    decreases |steps|
  {
    if steps != [] {
      StepKeeps(w0, w, steps[0]);
      RunKeeps(w0, Do(w, steps[0]), steps[1..]);
    }
  }

  // --- the theorems ----------------------------------------------------------------------------

  predicate Asks(w: World, p: nat, user: Id, name: string) {
    p in w.requests && w.requests[p].user == user && w.requests[p].name == name
  }

  predicate Answers(w: World, p: nat, user: Id, name: string) {
    Asks(w, p, user, name) && w.requests[p].pc.Answered?
  }

  ghost predicate Idle(w: World) {
    Unique(w.tags) && w.requests == map[] && w.made == map[]
  }

  /** Under any interleaving of upserts, crashes included: whoever is answered is given the one row of that name; at
      most one of them made it, and then its color is the stored one; a row that was there before is untouched and
      nobody made it; and nobody gets an error. */
  lemma UpsertIsLinearizable(w0: World, steps: seq<Step>, user: Id, name: string)
    requires Idle(w0) && Legal(w0, steps)
    ensures var w := Run(w0, steps);
            && (forall p | Answers(w, p, user, name) ::
                  && w.requests[p].pc.id in w.tags
                  && w.tags[w.requests[p].pc.id].user == user && w.tags[w.requests[p].pc.id].name == name
                  && (w.requests[p].pc.created ==>
                        Free(w0.tags, user, name) && w.tags[w.requests[p].pc.id].color == w.requests[p].color))
            && (forall p, q | Answers(w, p, user, name) && Answers(w, q, user, name) ::
                  && w.requests[p].pc.id == w.requests[q].pc.id
                  && (w.requests[p].pc.created && w.requests[q].pc.created ==> p == q))
            && (forall i, j | i in w.tags && j in w.tags && w.tags[i].user == w.tags[j].user && w.tags[i].name == w.tags[j].name ::
                  i == j)
            && (forall id | id in w0.tags :: id in w.tags && w.tags[id] == w0.tags[id])
            && (forall p | p in w.requests :: !w.requests[p].pc.Raised?)
  {
    RunKeeps(w0, w0, steps);
    var w := Run(w0, steps);
    forall p | Answers(w, p, user, name)
      ensures IsTag(w.tags, w.requests[p].pc.id, user, name)
      ensures w.requests[p].pc.created ==>
                Free(w0.tags, user, name) && w.tags[w.requests[p].pc.id].color == w.requests[p].color
    {
      assert Fits(w, p);
      if w.requests[p].pc.created {
        assert Maker(w, w.requests[p].pc.id);
      }
    }
    forall p, q | Answers(w, p, user, name) && Answers(w, q, user, name)
      ensures w.requests[p].pc.id == w.requests[q].pc.id
      ensures w.requests[p].pc.created && w.requests[q].pc.created ==> p == q
    {
      assert Fits(w, p) && Fits(w, q);
    }
    forall p | p in w.requests ensures !w.requests[p].pc.Raised? {
      assert Fits(w, p);
    }
  }

  /** If the name was free and every request for it was answered, exactly one of them made the row. */
  lemma SomeoneMadeIt(w0: World, steps: seq<Step>, user: Id, name: string, p: nat)
    requires Idle(w0) && Legal(w0, steps) && Free(w0.tags, user, name)
    requires Answers(Run(w0, steps), p, user, name)
    requires forall q | Asks(Run(w0, steps), q, user, name) :: Answers(Run(w0, steps), q, user, name)
    ensures exists q :: Answers(Run(w0, steps), q, user, name) && Run(w0, steps).requests[q].pc.created
  {
    RunKeeps(w0, w0, steps);
    var w := Run(w0, steps);
    assert Fits(w, p);
    var id := w.requests[p].pc.id;
    assert id in w.made && Maker(w, id);
    assert Answers(w, w.made[id], user, name);
  }

  lemma RowStays(w: World, s: Step, id: Id)
    requires Unique(w.tags) && Can(w, s) && id in w.tags
    ensures id in Do(w, s).tags && Do(w, s).tags[id] == w.tags[id]
    ensures id in Do(w, s).made <==> id in w.made
    ensures id in w.made ==> Do(w, s).made[id] == w.made[id]
  {
  }

  lemma {:induction false} RowsStay(w0: World, w: World, steps: seq<Step>, id: Id)
    requires Inv(w0, w) && Legal(w, steps) && id in w.tags
    ensures id in Run(w, steps).tags && Run(w, steps).tags[id] == w.tags[id]
    ensures id in Run(w, steps).made <==> id in w.made
    ensures id in w.made ==> Run(w, steps).made[id] == w.made[id]
    decreases |steps|
  {
    if steps != [] {
      StepKeeps(w0, w, steps[0]);
      RowStays(w, steps[0], id);
      RowsStay(w0, Do(w, steps[0]), steps[1..], id);
    }
  }

  /** And in real time: once anybody has been answered, no request that arrives later makes a row. */
  lemma LaterOnesFind(w0: World, steps: seq<Step>, more: seq<Step>, user: Id, name: string, p: nat, q: nat)
    requires Idle(w0) && Legal(w0, steps) && Legal(Run(w0, steps), more)
    requires Answers(Run(w0, steps), p, user, name) && q !in Run(w0, steps).requests
    requires Answers(Run(Run(w0, steps), more), q, user, name)
    ensures var w, w' := Run(w0, steps), Run(Run(w0, steps), more);
            w'.requests[q].pc == Answered(w.requests[p].pc.id, false)
  {
    RunKeeps(w0, w0, steps);
    var w, w' := Run(w0, steps), Run(Run(w0, steps), more);
    RunKeeps(w0, w, more);
    assert Fits(w, p) && Fits(w', q);
    var id := w.requests[p].pc.id;
    RowsStay(w0, w, more, id);
    if id in w.made {
      assert Maker(w, id);
    }
  }
}
