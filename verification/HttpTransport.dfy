/** `StreamableHTTPTransport`, cut at its awaits: the caller's segments and the owner's, over the shared fields. */
module HttpTransport {
  import opened Prelude
  import opened TransportOwner

  class Transport {
    var status: Status
    var session: Option<OwnerId>
    var bgTask: Option<OwnerId>
    var stopEvent: Option<EventId>
    var fired: set<EventId>
    var nextEvent: EventId
    var owners: seq<Owner>
    var caller: CallerPc

    ghost function View(): State
      reads this
    {
      State(status, session, bgTask, stopEvent, fired, nextEvent, owners, caller)
    }

    ghost predicate Valid()
      reads this
    {
      Inv(View())
    }

    constructor ()
      ensures Valid() && View() == START
    {
      status, session, bgTask, stopEvent := Disconnected, None, None, None;
      fired, nextEvent, owners, caller := {}, 0, [], Idle(Never);
    }

    /** `_cleanup_bg_task` up to its await, and past it when there is no task to wait for. */
    method CleanUp(next: Then)
      modifies this
      ensures View() == TransportOwner.CleanUp(old(View()), next)
    {
      if stopEvent.Some? {
        fired := fired + {stopEvent.value};
      }
      if bgTask.Some? {
        caller := AwaitOwner(next);
      } else {
        Continue(next);
      }
    }

    /** What follows a finished clean-up. */
    method Continue(next: Then)
      modifies this
      ensures View() == Cleaned(old(View()), next)
    {
      bgTask, stopEvent := None, None;
      match next {
        case Launch =>
          status := Connecting;
          stopEvent := Some(nextEvent);
          bgTask := Some(|owners|);
          caller := AwaitReady(|owners|);
          owners := owners + [Owner(nextEvent, false, false, Opening)];
          nextEvent := nextEvent + 1;
        case Fail =>
          status := Error;
          caller := Idle(ConnectRaised);
        case Finish =>
          session := None;
          status := Disconnected;
          caller := Idle(DisconnectReturned);
      }
    }

    method Connect()
      requires Valid() && Enabled(View(), Step.Connect)
      modifies this
      ensures Valid() && View() == Do(old(View()), Step.Connect)
    {
      StepKeeps(View(), Step.Connect);
      if status == Connected {
        caller := Idle(ConnectReturned);
      } else {
        CleanUp(Launch);
      }
    }

    method Disconnect()
      requires Valid() && Enabled(View(), Step.Disconnect)
      modifies this
      ensures Valid() && View() == Do(old(View()), Step.Disconnect)
    {
      StepKeeps(View(), Step.Disconnect);
      if status != Connected && status != Error {
        caller := Idle(DisconnectReturned);
      } else {
        status := Disconnecting;
        CleanUp(Finish);
      }
    }

    /** The caller's await is over: `ready` is set, or the background task it waited for has finished. */
    method Wake()
      requires Valid() && (Enabled(View(), ReadyWakes) || Enabled(View(), OwnerWakes))
      modifies this
      ensures Valid() && View() == Do(old(View()), if old(caller).AwaitReady? then ReadyWakes else OwnerWakes)
    {
      StepKeeps(View(), if caller.AwaitReady? then ReadyWakes else OwnerWakes);
      if caller.AwaitOwner? {
        Continue(caller.next);
      } else if owners[caller.owner].failed {
        CleanUp(Fail);
      } else {
        caller := Idle(ConnectReturned);
      }
    }

    /** The owner's connection attempt ended: a session is published, or an error and no session. */
    method Attempted(o: OwnerId, succeeded: bool)
      requires Valid() && Enabled(View(), Opens(o))
      modifies this
      ensures Valid() && View() == Do(old(View()), if succeeded then Opens(o) else OpenFails(o))
    {
      StepKeeps(View(), if succeeded then Opens(o) else OpenFails(o));
      status := if succeeded then Connected else Error;
      session := if succeeded then Some(o) else None;
      owners := owners[o := if succeeded then owners[o].(ready := true, pc := Waiting)
                            else owners[o].(failed := true, ready := true, pc := Closing)];
    }

    /** The owner leaves its wait, told to stop or because its connection died, or finishes closing. */
    method OwnerMoves(o: OwnerId)
      requires Valid() && (Enabled(View(), Dies(o)) || Enabled(View(), Closes(o)))
      modifies this
      ensures Valid() && View() == Do(old(View()), if old(owners)[o].pc.Waiting? then Dies(o) else Closes(o))
      ensures old(Enabled(View(), Stops(o))) ==> View() == Do(old(View()), Stops(o))
    {
      StepKeeps(View(), if owners[o].pc.Waiting? then Dies(o) else Closes(o));
      if owners[o].pc.Waiting? {
        session := None;
        owners := owners[o := owners[o].(pc := Closing)];
      } else {
        owners := owners[o := owners[o].(pc := Finished)];
      }
    }
  }
}
