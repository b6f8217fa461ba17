/** The client side of the box's job API: what each call does to the box's job table and how it can end. */
module Transcriber {
  import opened Wrappers
  import opened Core

  /** How a call raises: no usable answer, or an error status. */
  datatype BoxError = Unreachable | Status(why: Refusal)

  datatype Reply<+T> = Ok(value: T) | Raised(error: BoxError)

  datatype DrainPage = DrainPage(jobs: seq<Item>, waiting: nat)

  datatype AckReply = Deleted | NothingToDo | TooManyIds | AckRaised(error: BoxError)

  function ErrorOf(wire: Wire): BoxError {
    if wire.Turned? then Status(wire.why) else Unreachable
  }

  /** The exception class for an error status. */
  function RaiseForStatus(code: int, retryAfter: Option<nat>): (why: Refusal)
    ensures Hard(why) <==> code == 400 || code == 409 || code == 413
    ensures (why == Rejected <==> code == 400) && (why == Conflict <==> code == 409) && (why == TooLarge <==> code == 413)
    ensures (why.Busy? <==> code == 503) && (why.Busy? ==> why.retryAfter == retryAfter)
    ensures why == Unauthorized <==> code == 401
  {
    if code == 503 then Busy(retryAfter)
    else if code == 401 then Unauthorized
    else if code == 409 then Conflict
    else if code == 400 then Rejected
    else if code == 413 then TooLarge
    else Unexpected
  }

  class Box {
    var jobs: map<Id, Job>
    var serial: nat
    /** How many submissions and discards have been sent. */
    var submits: nat
    var discards: nat

    constructor ()
      ensures jobs == map[] && serial == 0 && submits == 0 && discards == 0
    {
      jobs, serial, submits, discards := map[], 0, 0, 0;
    }

    /** Queue `audio` under `id`. The same bytes again are an idempotent hit, other bytes are a conflict. */
    method Submit(id: Id, audio: Bytes, wire: Wire) returns (reply: Reply<()>)
      modifies this
      ensures submits == old(submits) + 1 && discards == old(discards)
      ensures if wire.TakesEffect() && id !in old(jobs)
              then jobs == old(jobs)[id := Job(old(serial), audio, Queued)] && serial == old(serial) + 1
              else jobs == old(jobs) && serial == old(serial)
      ensures reply == if !wire.Answered? then Raised(ErrorOf(wire))
                       else if id in old(jobs) && old(jobs)[id].audio != audio then Raised(Status(Conflict))
                       else Ok(())
    {
      submits := submits + 1;
      var conflict := id in jobs && jobs[id].audio != audio;
      if wire.TakesEffect() && id !in jobs {
        jobs, serial := jobs[id := Job(serial, audio, Queued)], serial + 1;
      }
      if !wire.Answered? {
        return Raised(ErrorOf(wire));
      }
      reply := if conflict then Raised(Status(Conflict)) else Ok(());
    }

    /** Everything finished that the box holds, up to `limit` jobs, in whatever order it likes. */
    method Drain(limit: nat, wire: Wire) returns (reply: Reply<DrainPage>)
      ensures reply.Ok? <==> wire.Answered?
      ensures reply.Raised? ==> reply.error == ErrorOf(wire)
      ensures reply.Ok? ==>
                && DistinctIds(reply.value.jobs)
                && (forall it | it in reply.value.jobs :: it.id in Terminal(jobs) && it == ItemOf(jobs, it.id))
                && |reply.value.jobs| == Min(limit, |Terminal(jobs)|)
                && reply.value.waiting == |Terminal(jobs)|
      ensures reply.Ok? ==>
                && reply.value.waiting == |set id | id in jobs && jobs[id].status.Finished?|
                && forall it | it in reply.value.jobs ::
                     it.id in jobs && it.status.Finished? && it == Item(it.id, jobs[it.id].serial, jobs[it.id].status)
    {
      if !wire.Answered? {
        return Raised(ErrorOf(wire));
      }
      var rest := Terminal(jobs);
      var page: seq<Item> := [];
      while |page| < limit && rest != {}
        invariant rest <= Terminal(jobs) && |page| + |rest| == |Terminal(jobs)| && |page| <= limit
        invariant DistinctIds(page)
        invariant forall it | it in page :: it.id in Terminal(jobs) && it.id !in rest && it == ItemOf(jobs, it.id)
        decreases rest
      {
        var id :| id in rest;
        page, rest := page + [ItemOf(jobs, id)], rest - {id};
      }
      assert Terminal(jobs) == set id | id in jobs && jobs[id].status.Finished?;
      reply := Ok(DrainPage(page, |Terminal(jobs)|));
    }

    /** Delete the named jobs; ids the box does not know are ignored. */
    method Ack(ids: seq<Id>, wire: Wire) returns (reply: AckReply)
      modifies this`jobs
      ensures reply == if ids == [] then NothingToDo else if |ids| > 200 then TooManyIds
                       else if wire.Answered? then Deleted else AckRaised(ErrorOf(wire))
      ensures jobs == if 0 < |ids| <= 200 && wire.TakesEffect()
                      then old(jobs) - (set id | id in ids) else old(jobs)
    {
      if ids == [] {
        return NothingToDo;
      }
      if |ids| > MAX_LIST_LIMIT {
        return TooManyIds;
      }
      if wire.TakesEffect() {
        jobs := jobs - (set id | id in ids);
      }
      reply := if wire.Answered? then Deleted else AckRaised(ErrorOf(wire));
    }

    /** One job, or `None` if the box does not have it. */
    method GetJob(id: Id, wire: Wire) returns (reply: Reply<Option<Item>>)
      ensures reply.Raised? <==> !wire.Answered?
      ensures reply.Raised? ==> reply.error == ErrorOf(wire)
      ensures reply.Ok? ==> (reply.value.None? <==> id !in jobs)
      ensures reply.Ok? && id in jobs ==> reply.value.value == ItemOf(jobs, id)
    {
      if !wire.Answered? {
        return Raised(ErrorOf(wire));
      }
      reply := Ok(if id in jobs then Some(ItemOf(jobs, id)) else None);
    }

    /** Drop a job; one the box does not have is dropped already. */
    method Discard(id: Id, wire: Wire) returns (reply: Reply<()>)
      modifies this`jobs, this`discards
      ensures discards == old(discards) + 1
      ensures jobs == if wire.TakesEffect() then old(jobs) - {id} else old(jobs)
      ensures reply == if wire.Answered? then Ok(()) else Raised(ErrorOf(wire))
    {
      discards := discards + 1;
      if wire.TakesEffect() {
        jobs := jobs - {id};
      }
      reply := if wire.Answered? then Ok(()) else Raised(ErrorOf(wire));
    }
  }
}
