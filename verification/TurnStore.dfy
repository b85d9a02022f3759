/**
 The record of each turn and the store that holds them (internal/turn).

 `Contents` is the abstract value of a `Store`; the functions on it say what each
 method of the store does. None of the three terminal writes looks at the state
 the record is already in: it is the session manager that must never finish a
 turn twice.
 */
module TurnStore {
  import opened Wrappers

  /** A turn id. `IDLE` stands for the empty string. */
  type TurnId = nat
  const IDLE: TurnId := 0

  type Time = int

  datatype Status = Running | Complete | Failed

  datatype Record = Record(
    status: Status,
    text: string,
    callbackURL: string,
    finalText: string,
    resultJSON: string,
    usage: string,
    stopReason: string,
    error: string,
    startedAt: Time,
    lastActivityAt: Time,
    completedAt: Option<Time>)

  const STOP_REASON_INTERRUPTED := "interrupted"
  const ERR_INTERRUPTED := "turn interrupted"

  datatype Contents = Contents(byID: map<TurnId, Record>, order: seq<TurnId>)

  function Fresh(text: string, callbackURL: string, now: Time): Record {
    Record(Running, text, callbackURL, "", "", "", "", "", now, now, None)
  }

  function Created(c: Contents, id: TurnId, text: string, callbackURL: string, now: Time): Contents {
    Contents(c.byID[id := Fresh(text, callbackURL, now)], c.order + [id])
  }

  function Touched(c: Contents, id: TurnId, now: Time): Contents {
    if id in c.byID && c.byID[id].status == Running
    then c.(byID := c.byID[id := c.byID[id].(lastActivityAt := now)])
    else c
  }

  function Completed(c: Contents, id: TurnId, finalText: string, resultJSON: string, usage: string,
                     stopReason: string, now: Time): Contents
    requires id in c.byID
  {
    c.(byID := c.byID[id := c.byID[id].(status := Complete, finalText := finalText, resultJSON := resultJSON,
                                        usage := usage, stopReason := stopReason, completedAt := Some(now))])
  }

  function Interrupted(c: Contents, id: TurnId, finalText: string, usage: string, now: Time): Contents
    requires id in c.byID
  {
    c.(byID := c.byID[id := c.byID[id].(status := Failed, finalText := finalText, usage := usage,
                                        stopReason := STOP_REASON_INTERRUPTED, error := ERR_INTERRUPTED,
                                        completedAt := Some(now))])
  }

  function Errored(c: Contents, id: TurnId, msg: string, now: Time): Contents
    requires id in c.byID
  {
    c.(byID := c.byID[id := c.byID[id].(status := Failed, error := msg, completedAt := Some(now))])
  }

  /** The store. Every method returns `false` where the source returns `ErrNotFound`. */
  class Store {
    var byID: map<TurnId, Record>
    var order: seq<TurnId>

    ghost function View(): Contents
      reads this
    {
      Contents(byID, order)
    }

    constructor ()
      ensures View() == Contents(map[], [])
    {
      byID, order := map[], [];
    }

    method Create(id: TurnId, text: string, callbackURL: string, now: Time)
      modifies this
      ensures View() == Created(old(View()), id, text, callbackURL, now)
    {
      byID := byID[id := Record(Running, text, callbackURL, "", "", "", "", "", now, now, None)];
      order := order + [id];
    }

    method Get(id: TurnId) returns (rec: Option<Record>)
      ensures rec == if id in byID then Some(byID[id]) else None
    {
      if id !in byID {
        return None;
      }
      return Some(byID[id]);
    }

    method Touch(id: TurnId, now: Time) returns (ok: bool)
      modifies this
      ensures View() == Touched(old(View()), id, now)
      ensures ok == (id in old(byID) && old(byID)[id].status == Running)
    {
      if id !in byID || byID[id].status != Running {
        return false;
      }
      byID := byID[id := byID[id].(lastActivityAt := now)];
      return true;
    }

    method Complete(id: TurnId, finalText: string, resultJSON: string, usage: string, stopReason: string, now: Time)
      returns (ok: bool)
      modifies this
      ensures ok == (id in old(byID))
      ensures View() == if ok then Completed(old(View()), id, finalText, resultJSON, usage, stopReason, now)
                        else old(View())
    {
      if id !in byID {
        return false;
      }
      var r := byID[id];
      byID := byID[id := r.(status := Status.Complete, finalText := finalText, resultJSON := resultJSON,
                            usage := usage, stopReason := stopReason, completedAt := Some(now))];
      return true;
    }

    method Interrupt(id: TurnId, finalText: string, usage: string, now: Time) returns (ok: bool)
      modifies this
      ensures ok == (id in old(byID))
      ensures View() == if ok then Interrupted(old(View()), id, finalText, usage, now) else old(View())
    {
      if id !in byID {
        return false;
      }
      var r := byID[id];
      byID := byID[id := r.(status := Failed, finalText := finalText, usage := usage,
                            stopReason := STOP_REASON_INTERRUPTED, error := ERR_INTERRUPTED,
                            completedAt := Some(now))];
      return true;
    }

    method Fail(id: TurnId, msg: string, now: Time) returns (ok: bool)
      modifies this
      ensures ok == (id in old(byID))
      ensures View() == if ok then Errored(old(View()), id, msg, now) else old(View())
    {
      if id !in byID {
        return false;
      }
      var r := byID[id];
      byID := byID[id := r.(status := Failed, error := msg, completedAt := Some(now))];
      return true;
    }
  }
}
