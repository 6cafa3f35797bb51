/**
 The HTTP transport's connection protocol: a caller that connects and disconnects, one call at a time, and the
 background owner task each connect starts, cut at their awaits and arbitrarily interleaved.
 */
module TransportOwner {
  import opened Prelude

  datatype Status = Disconnected | Connecting | Connected | Disconnecting | Error

  type OwnerId = nat
  type EventId = nat

  datatype OwnerPc = Opening | Waiting | Closing | Finished

  /** `_connection_owner`: `stop` is the event it captured, `ready` and `failed` what it tells the caller. */
  datatype Owner = Owner(stop: EventId, ready: bool, failed: bool, pc: OwnerPc)

  /** What the caller does once the background task it waits for has finished. */
  datatype Then = Launch | Fail | Finish

  datatype Last = Never | ConnectReturned | ConnectRaised | DisconnectReturned

  datatype CallerPc = Idle(last: Last) | AwaitReady(owner: OwnerId) | AwaitOwner(next: Then)

  datatype State = State(
    status: Status,
    session: Option<OwnerId>,
    bgTask: Option<OwnerId>,
    stopEvent: Option<EventId>,
    fired: set<EventId>,
    nextEvent: EventId,
    owners: seq<Owner>,
    caller: CallerPc)
  {
    function Fired(): set<EventId> {
      if stopEvent.Some? then fired + {stopEvent.value} else fired
    }
  }

  const START := State(Disconnected, None, None, None, {}, 0, [], Idle(Never))

  datatype Step =
    | Connect | Disconnect | ReadyWakes | OwnerWakes
    | Opens(o: OwnerId) | OpenFails(o: OwnerId) | Stops(o: OwnerId) | Dies(o: OwnerId) | Closes(o: OwnerId)

  predicate Enabled(s: State, step: Step) {
    match step
    case Connect => s.caller.Idle?
    case Disconnect => s.caller.Idle?
    case ReadyWakes => s.caller.AwaitReady? && s.caller.owner < |s.owners| && s.owners[s.caller.owner].ready
    case OwnerWakes =>
      s.caller.AwaitOwner? && s.bgTask.Some? && s.bgTask.value < |s.owners| && s.owners[s.bgTask.value].pc.Finished?
    case Opens(o) => o < |s.owners| && s.owners[o].pc.Opening?
    case OpenFails(o) => o < |s.owners| && s.owners[o].pc.Opening?
    case Stops(o) => o < |s.owners| && s.owners[o].pc.Waiting? && s.owners[o].stop in s.fired
    case Dies(o) => o < |s.owners| && s.owners[o].pc.Waiting?
    case Closes(o) => o < |s.owners| && s.owners[o].pc.Closing?
  }

  /** After the clean-up: forgets the old task, then starts a new one, raises, or is disconnected. */
  function Cleaned(s: State, next: Then): State {
    var t := s.(bgTask := None, stopEvent := None);
    match next
    case Launch =>
      var o := |s.owners|;
      t.(status := Connecting, stopEvent := Some(s.nextEvent), nextEvent := s.nextEvent + 1,
         owners := s.owners + [Owner(s.nextEvent, false, false, Opening)], bgTask := Some(o), caller := AwaitReady(o))
    case Fail => t.(status := Error, caller := Idle(ConnectRaised))
    case Finish => t.(session := None, status := Disconnected, caller := Idle(DisconnectReturned))
  }

  /** `_cleanup_bg_task`: sets the stop event and waits for the task, if there is one. */
  function CleanUp(s: State, next: Then): State {
    var t := s.(fired := s.Fired());
    if s.bgTask.Some? then t.(caller := AwaitOwner(next)) else Cleaned(t, next)
  }

  function OwnerTo(s: State, o: OwnerId, pc: OwnerPc): seq<Owner>
    requires o < |s.owners|
  {
    s.owners[o := s.owners[o].(pc := pc)]
  }

  function Do(s: State, step: Step): State
    requires Enabled(s, step)
  {
    match step
    case Connect =>
      if s.status.Connected? then s.(caller := Idle(ConnectReturned)) else CleanUp(s, Launch)
    case Disconnect =>
      if !s.status.Connected? && !s.status.Error? then s.(caller := Idle(DisconnectReturned))
      else CleanUp(s.(status := Disconnecting), Finish)
    case ReadyWakes =>
      if s.owners[s.caller.owner].failed then CleanUp(s, Fail) else s.(caller := Idle(ConnectReturned))
    case OwnerWakes => Cleaned(s, s.caller.next)
    case Opens(o) =>
      s.(session := Some(o), status := Connected, owners := s.owners[o := s.owners[o].(ready := true, pc := Waiting)])
    case OpenFails(o) =>
      s.(session := None, status := Error, owners := s.owners[o := s.owners[o].(failed := true, ready := true, pc := Closing)])
    case Stops(o) => s.(session := None, owners := OwnerTo(s, o, Closing))
    case Dies(o) => s.(session := None, owners := OwnerTo(s, o, Closing))
    case Closes(o) => s.(owners := OwnerTo(s, o, Finished))
  }

  // ------------------------------------------------------------------
  // The invariant
  // ------------------------------------------------------------------

  predicate Live(s: State, o: OwnerId) {
    o < |s.owners| && !s.owners[o].pc.Finished?
  }

  /** The current owner waits on the event a clean-up will set, and the status follows what it reported. */
  predicate OwnerOk(s: State)
    requires s.bgTask.Some?
  {
    var o := s.bgTask.value;
    && o < |s.owners| && s.stopEvent == Some(s.owners[o].stop)
    && (s.owners[o].ready <==> !s.owners[o].pc.Opening?)
    && (s.owners[o].failed ==> s.owners[o].pc.Closing? || s.owners[o].pc.Finished?)
  }

  predicate CallerOk(s: State)
    requires s.bgTask.Some? ==> OwnerOk(s)
  {
    match s.caller
    case Idle(last) =>
      if s.bgTask.None? then
        !last.ConnectReturned? && s.status == (if last.ConnectRaised? then Error else Disconnected)
      else
        last.ConnectReturned? && s.status.Connected? && s.owners[s.bgTask.value].ready && !s.owners[s.bgTask.value].failed
    case AwaitReady(o) =>
      && s.bgTask == Some(o)
      && s.status == (if !s.owners[o].ready then Connecting else if s.owners[o].failed then Error else Connected)
    case AwaitOwner(next) =>
      && s.bgTask.Some? && s.owners[s.bgTask.value].ready && s.owners[s.bgTask.value].stop in s.fired
      && (if s.owners[s.bgTask.value].failed then next.Fail? && s.status.Error? else next.Finish? && s.status.Disconnecting?)
  }

  ghost predicate Inv(s: State) {
    && (forall o: OwnerId :: Live(s, o) ==> s.bgTask == Some(o))
    && (s.bgTask.Some? ==> OwnerOk(s))
    && (s.bgTask.None? ==> s.stopEvent.None?)
    && (s.session.Some? <==> s.bgTask.Some? && s.owners[s.bgTask.value].pc.Waiting?)
    && (s.session.Some? ==> s.session == s.bgTask)
    && CallerOk(s)
  }

  /** Nobody revives a finished owner. */
  lemma FinishedStays(s: State, step: Step, o: OwnerId)
    requires Enabled(s, step) && o < |s.owners| && Live(Do(s, step), o)
    ensures Live(s, o)
  {
  }

  lemma StepKeeps(s: State, step: Step)
    requires Inv(s) && Enabled(s, step)
    ensures Inv(Do(s, step))
  {
    var s' := Do(s, step);
    if step.Opens? || step.OpenFails? || step.Stops? || step.Dies? || step.Closes? {
      assert Live(s, step.o);
    }
    forall o: OwnerId | Live(s', o) ensures s'.bgTask == Some(o) {
      if o < |s.owners| {
        FinishedStays(s, step, o);
      }
    }
  }

  // ------------------------------------------------------------------
  // Every run
  // ------------------------------------------------------------------

  function Run(steps: seq<Step>): Option<State> {
    if steps == [] then Some(START)
    else
      var before, last := Run(steps[..|steps| - 1]), steps[|steps| - 1];
      if before.Some? && Enabled(before.value, last) then Some(Do(before.value, last)) else None
  }

  lemma {:induction false} RunsKeep(steps: seq<Step>)
    requires Run(steps).Some?
    ensures Inv(Run(steps).value)
  {
    if steps == [] {
    } else {
      RunsKeep(steps[..|steps| - 1]);
      StepKeeps(Run(steps[..|steps| - 1]).value, steps[|steps| - 1]);
    }
  }

  /** At most one owner is live; it is the one the transport knows, and it waits on the event a clean-up sets. */
  lemma OneOwnerLives(steps: seq<Step>, o: OwnerId)
    requires Run(steps).Some? && Live(Run(steps).value, o)
    ensures var s := Run(steps).value;
            s.bgTask == Some(o) && s.stopEvent == Some(s.owners[o].stop) && forall p: OwnerId :: Live(s, p) ==> p == o
  {
    RunsKeep(steps);
  }

  /** A session implies a live owner that keeps it open, and a connected or disconnecting transport. */
  lemma SessionsAreOwned(steps: seq<Step>)
    requires Run(steps).Some? && Run(steps).value.session.Some?
    ensures var s := Run(steps).value;
            && Live(s, s.session.value) && s.owners[s.session.value].pc.Waiting?
            && (s.status.Connected? || s.status.Disconnecting?)
  {
    RunsKeep(steps);
  }

  /** After a connect that raised, or a disconnect, no owner lives and no session is left. */
  lemma NothingIsLeftBehind(steps: seq<Step>)
    requires Run(steps).Some?
    requires var s := Run(steps).value; s.caller == Idle(ConnectRaised) || s.caller == Idle(DisconnectReturned)
    ensures var s := Run(steps).value;
            && (forall o: OwnerId :: !Live(s, o)) && s.session.None? && s.bgTask.None?
            && s.status == if s.caller.last.ConnectRaised? then Error else Disconnected
  {
    RunsKeep(steps);
  }

  /**
   Between calls, a transport that says it is connected has a session exactly when its owner still waits: an owner
   that died after reporting ready leaves the status behind.
   */
  lemma ConnectedHasSessionIffOwnerWaits(steps: seq<Step>)
    requires Run(steps).Some? && Run(steps).value.caller.Idle? && Run(steps).value.status.Connected?
    ensures var s := Run(steps).value;
            s.bgTask.Some? && s.bgTask.value < |s.owners|
            && (s.session.Some? <==> s.owners[s.bgTask.value].pc.Waiting?)
  {
    RunsKeep(steps);
  }

  lemma DeadOwnerStaysConnected()
    ensures var steps := [Connect, Opens(0), ReadyWakes, Dies(0)];
            Run(steps).Some? && Run(steps).value.status.Connected? && Run(steps).value.session.None?
  {
    var steps := [Connect, Opens(0), ReadyWakes, Dies(0)];
    assert steps[..3] == [Connect, Opens(0), ReadyWakes];
    assert steps[..3][..2] == [Connect, Opens(0)];
    assert [Connect, Opens(0)][..1] == [Connect];
    assert [Connect][..0] == [];
    assert Run([Connect]) == Some(Do(START, Connect));
    assert Run([Connect, Opens(0)]) == Some(Do(Do(START, Connect), Opens(0)));
    assert Run(steps[..3]).Some?;
  }

  // ------------------------------------------------------------------
  // Progress
  // ------------------------------------------------------------------

  /** A caller in the middle of a call, or an owner not finished, always has a step some task can take. */
  lemma NoDeadlock(steps: seq<Step>)
    requires Run(steps).Some?
    requires var s := Run(steps).value; !s.caller.Idle?
    ensures exists step :: Enabled(Run(steps).value, step) && !step.Connect? && !step.Disconnect? && !step.Dies? && !step.OpenFails?
  {
    RunsKeep(steps);
    var s := Run(steps).value;
    var o := s.bgTask.value;
    match s.owners[o].pc
    case Opening => assert Enabled(s, Opens(o));
    case Closing => assert Enabled(s, Closes(o));
    case Waiting => assert Enabled(s, if s.caller.AwaitReady? then ReadyWakes else Stops(o));
    case Finished => assert Enabled(s, if s.caller.AwaitReady? then ReadyWakes else OwnerWakes);
  }

  function CallerRank(pc: CallerPc): nat {
    match pc
    case Idle(_) => 0
    case AwaitReady(_) => 2
    case AwaitOwner(_) => 1
  }

  function OwnerRank(pc: OwnerPc): nat {
    match pc
    case Opening => 3
    case Waiting => 2
    case Closing => 1
    case Finished => 0
  }

  function Rank(s: State): nat {
    CallerRank(s.caller)
    + if s.bgTask.Some? && s.bgTask.value < |s.owners| then OwnerRank(s.owners[s.bgTask.value].pc) else 0
  }

  /** Every step but a new call brings the current one closer to its end, so no call goes on for ever. */
  lemma CallsEnd(steps: seq<Step>, step: Step)
    requires Run(steps).Some? && Enabled(Run(steps).value, step) && !step.Connect? && !step.Disconnect?
    ensures Rank(Do(Run(steps).value, step)) < Rank(Run(steps).value) <= 5
  {
    RunsKeep(steps);
    var s := Run(steps).value;
    if step.Opens? || step.OpenFails? || step.Stops? || step.Dies? || step.Closes? {
      assert Live(s, step.o);
    }
  }
}
