/** The two transactions of a model task as they update the store. */
module ModelCallStore {
  import opened Ids
  import opened ModelCall

  class TaskStore {
    var tasks: seq<Task>

    constructor ()
      ensures tasks == []
    {
      tasks := [];
    }

    method CountRequests(product: Id, now: nat) returns (n: nat)
      ensures n == Requests(tasks, product, now)
    {
      n := 0;
      var i := 0;
      while i < |tasks|
        invariant i <= |tasks| && n == Requests(tasks[..i], product, now)
      {
        assert tasks[..i + 1][..i] == tasks[..i];
        var v := tasks[i];
        if v.product == product && v.startedAt.Some? && v.startedAt.value + DAY > now { n := n + v.attempts; }
        i := i + 1;
      }
      assert tasks[..i] == tasks;
    }

    /** Persists the intent before the call, or finishes the task without one. */
    method Begin(x: nat, token: Id, now: nat, inputCurrent: bool, max: nat) returns (admitted: bool)
      modifies this
      ensures !(x < |old(tasks)| && old(tasks)[x].owner == token && old(tasks)[x].status.Running?) ==> tasks == old(tasks) && !admitted
      ensures x < |old(tasks)| && old(tasks)[x].owner == token && old(tasks)[x].status.Running? ==>
                && tasks == old(tasks)[x := BeginTask(old(tasks)[x], old(tasks), now, inputCurrent, max)]
                && (admitted <==> tasks[x].phase.DispatchIntent?)
                && (admitted ==> !old(tasks)[x].phase.DispatchIntent? && tasks[x].intentAt == Some(now))
    {
      if x >= |tasks| || tasks[x].owner != token || !tasks[x].status.Running? { return false; }
      var current := tasks[x];
      if current.phase.DispatchIntent? {
        tasks := tasks[x := Finish(current, Failed, Uncertain)];
        return false;
      }
      if !inputCurrent {
        tasks := tasks[x := Finish(current, Failed, Stale)];
        return false;
      }
      var requests := CountRequests(current.product, now);
      if requests > max {
        tasks := tasks[x := Finish(current, Failed, Exhausted)];
        return false;
      }
      tasks := tasks[x := current.(phase := DispatchIntent, intentAt := Some(now))];
      return true;
    }

    /** Accepts or rejects the answer; a late one changes nothing. */
    method Settle(x: nat, token: Id, now: nat, inputCurrent: bool, usable: bool) returns (accepted: bool)
      modifies this
      ensures accepted <==> x < |old(tasks)| && old(tasks)[x].owner == token && old(tasks)[x].status.Running? && old(tasks)[x].leaseUntil > now
      ensures !accepted ==> tasks == old(tasks)
      ensures accepted ==> tasks == old(tasks)[x := SettleTask(old(tasks)[x], token, inputCurrent, usable)] && Terminal(tasks[x].status)
    {
      if x >= |tasks| || tasks[x].owner != token || !tasks[x].status.Running? || tasks[x].leaseUntil <= now { return false; }
      var current := tasks[x];
      if !inputCurrent {
        current := Finish(current, Failed, Stale);
      } else if !usable {
        current := Finish(current, Failed, CallFailed);
      } else {
        current := Finish(current.(result := Some(token)), Succeeded, ReviewRequired);
      }
      tasks := tasks[x := current];
      return true;
    }
  }
}
