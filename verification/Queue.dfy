/** The queue of transcription tasks, as far as creating them goes. */
module Queue {
  type Id = string

  function Sent(id: Id, up: bool): seq<Id> {
    if up then [id] else []
  }

  class TaskQueue {
    var tasks: seq<Id>

    constructor ()
      ensures tasks == []
    {
      tasks := [];
    }

    /** Create one task; False when the queue is not configured or could not be reached. */
    method Enqueue(id: Id, up: bool) returns (sent: bool)
      modifies this
      ensures sent == up && tasks == old(tasks) + Sent(id, up)
    {
      if up {
        tasks := tasks + [id];
      }
      sent := up;
    }
  }
}
