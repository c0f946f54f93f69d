/** The worker's own account of the running execution, updated in place under the send lock,
    and the message loop's three uses of it. Each method does what the step of that name does. */
module Worker {
  import opened Options
  import opened Protocol

  class Execution {
    var scope: Option<nat>
    var paused: bool
    var up: seq<Up>

    /** What the step system sees of this object. */
    ghost predicate Shows(s: State)
      reads this
    {
      scope == s.scope && paused == s.paused && up == s.up
    }

    constructor ()
      ensures scope == None && !paused && up == []
    {
      scope, paused, up := None, false, [];
    }

    method Tell(scope: Option<nat>, paused: bool, ghost s: State)
      requires Shows(s)
      modifies this
      ensures Shows(TellParent(s, scope, paused))
    {
      if scope.None? || scope != this.scope { return; }
      this.paused := paused;
      up := up + [HostTime(scope.value, paused)];
    }

    method Begins(req: nat, ghost s: State)
      requires Shows(s) && Can(s, Begin) && s.worker.req == req
      modifies this
      ensures Shows(Next(s, Begin))
    {
      scope := Some(req);
    }

    method Ends(req: nat, ghost s: State)
      requires Shows(s) && Can(s, End) && s.worker.req == req
      modifies this
      ensures Shows(Next(s, End))
    {
      scope := None;
      if paused {
        paused := false;
        up := up + [HostTime(req, false)];
      }
    }
  }
}
