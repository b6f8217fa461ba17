/** The database session: the two tables, the clock that stamps their rows, and the committed row updates. */
module Session {
  import opened Wrappers
  import opened Core

  class Session {
    var db: Db
    var now: int

    constructor (db: Db, now: int)
      ensures this.db == db && this.now == now
    {
      this.db, this.now := db, now;
    }

    /** The clock never runs backwards. */
    method UtcNow() returns (t: int)
      modifies this`now
      ensures t == now && old(now) <= now
    {
      t :| now <= t;
      now := t;
    }

    /** `UPDATE ... WHERE id = ? AND state IN ('pending', 'failed')`, and whether it hit a row. */
    method Claim(id: Id) returns (won: bool)
      modifies this
      ensures old(now) <= now
      ensures won <==> Claimable(old(db), id)
      ensures db == if won then ClaimRow(old(db), id, now) else old(db)
      ensures won <==> id in old(db).recs && (old(db).recs[id].state == Pending || old(db).recs[id].state == Failed)
      ensures if won then GetsClaimed(old(db), db, id, now) else db == old(db)
    {
      var t := UtcNow();
      won := id in db.recs && (db.recs[id].state == Pending || db.recs[id].state == Failed);
      if won {
        db := Put(db, id, db.recs[id].(state := Transcribing, updatedAt := t));
      }
    }

    method MarkFailed(id: Id, error: string)
      modifies this
      ensures old(now) <= now && db == Core.MarkFailed(old(db), id, error, now)
      ensures if id in old(db).recs then FailsFor(old(db), db, id, error, now) else db == old(db)
    {
      var t := UtcNow();
      if id in db.recs {
        db := Put(db, id, db.recs[id].(state := Failed, error := Some(Truncated(error)), updatedAt := t));
      }
    }

    method RevertPending(id: Id)
      modifies this
      ensures old(now) <= now && db == Core.RevertPending(old(db), id, now)
      ensures if id in old(db).recs then GoesBack(old(db), db, id, now) else db == old(db)
    {
      var t := UtcNow();
      if id in db.recs {
        db := Put(db, id, db.recs[id].(state := Pending, updatedAt := t));
      }
    }

    /** `UPDATE ... WHERE id = ? AND state != 'done'` and the description in one transaction. The transaction does
        not commit when the row is done already or the text does not fit its column. */
    method WriteTranscript(id: Id, text: string) returns (verdict: Verdict)
      requires id in db.recs && id in db.events
      modifies this
      ensures old(now) <= now
      ensures verdict == if old(db).recs[id].state == Done then AlreadyDone
                         else if |text| > MAX_TEXT then Refused else Wrote(text)
      ensures db == if verdict.Wrote? then Core.WriteTranscript(old(db), id, text, now) else old(db)
      ensures if old(db).recs[id].state != Done && |text| <= 2000 then Shows(old(db), db, id, text, now) else db == old(db)
    {
      var t := UtcNow();
      if db.recs[id].state == Done {
        return AlreadyDone;
      }
      var recs := db.recs[id := db.recs[id].(state := Done, error := None, updatedAt := t)];
      if |text| > MAX_TEXT {
        return Refused;
      }
      db := Db(recs, db.events[id := db.events[id].(description := Some(text))]);
      verdict := Wrote(text);
    }
  }
}
