/**
 The permit desk as the objects it is: a permit is reserved, claimed by one worker, and revoked; the desk
 holds the current one. Its methods are steps of the enrollment machine's desk.
 */
module Permits {
  import opened Common
  import opened Enrollment

  class OperationPermit {
    const token: string
    var cancelled: bool
    var claimed: bool
    var stop: Option<nat>

    constructor (token: string)
      ensures this.token == token && Value() == Permit(false, 0, None)
    {
      this.token := token;
      cancelled, claimed, stop := false, false, None;
    }

    function Value(): Permit
      reads this
    {
      Permit(cancelled, if claimed then 1 else 0, stop)
    }

    /** Ends the permit's context; the result is the generation the caller has to stop, if any. */
    method Revoke() returns (generation: Option<nat>)
      modifies this`cancelled
      ensures Value() == old(Value()).(cancelled := true) && generation == stop
    {
      cancelled := true;
      generation := stop;
    }
  }

  class OperationAdmission {
    var current: OperationPermit?
    ghost var issued: seq<OperationPermit>

    ghost predicate Valid()
      reads this
    {
      && (current == null <==> issued == [])
      && (current != null ==> issued[|issued| - 1] == current)
      && (forall i, j | 0 <= i < j < |issued| :: issued[i] != issued[j] && issued[i].token != issued[j].token)
    }

    /** The desk of the machine while no revocation is under way: every permit issued so far, the last one current. */
    ghost function Value(): Desk
      reads this, issued
    {
      Desk(seq(|issued|, i requires 0 <= i < |issued| reads this, issued => issued[i].Value()),
           if issued == [] then None else Some(|issued| - 1), None, false, 0)
    }

    constructor ()
      ensures Valid() && Value() == FRESH.desk
    {
      current := null;
      issued := [];
    }

    /** `stopped`: stopping the previous operation succeeded. The current permit, if any, is revoked and stopped,
        and a new one with a fresh token reserved unless stopping failed. */
    method Reserve(token: string, stopped: bool, ghost generation: nat, ghost out: FileResult) returns (ok: bool)
      requires Valid() && forall i | 0 <= i < |issued| :: issued[i].token != token
      modifies this, if current == null then {} else {current}
      ensures Valid() && ok == (old(current) == null || stopped)
      ensures var d := DeskStep(DeskStep(old(Value()), Event.Revoke(false), generation), StopRevoked(out), generation);
              Value() == if ok then DeskStep(d, Event.Reserve, generation) else d
    {
      if current != null {
        var _ := current.Revoke();
        if !stopped {
          return false;
        }
      }
      current := new OperationPermit(token);
      issued := issued + [current];
      ok := true;
    }

    /** The token of the current permit is good once, and not after a revocation. */
    method Claim(token: string, ghost generation: nat) returns (permit: OperationPermit?)
      requires Valid()
      modifies if current == null then {} else {current}
      ensures Valid()
      ensures permit != null <==>
                current != null && token == current.token && !old(current.claimed) && !old(current.cancelled)
      ensures permit != null ==> permit == current
      ensures permit == null ==> Value() == old(Value())
      ensures forall i | 0 <= i < |issued| && issued[i].token == token ::
                Value() == DeskStep(old(Value()), Event.Claim(i), generation)
    {
      if current == null || token != current.token || current.claimed || current.cancelled {
        return null;
      }
      ghost var n, before := |issued| - 1, Value();
      assert before.permits[n] == current.Value();
      current.claimed := true;
      permit := current;
      assert Value().permits == before.permits[n := before.permits[n].(claims := 1)];
    }

    /** Revokes the current permit if it has this token; any other token is ignored. The result is the generation
        whose stopping ends the step. */
    method Revoke(token: string, ghost generation: nat, ghost out: FileResult) returns (stop: Option<nat>)
      requires Valid()
      modifies if current == null then {} else {current}
      ensures Valid()
      ensures current != null && current.token == token ==>
                && stop == current.stop
                && Value() == DeskStep(DeskStep(old(Value()), Event.Revoke(false), generation), StopRevoked(out),
                                       generation)
      ensures current == null || current.token != token ==> stop == None && Value() == old(Value())
    {
      if current == null || current.token != token {
        return None;
      }
      stop := current.Revoke();
    }
  }
}
