/** What a disconnect does to the pool, turn by turn and over a whole run. */
module SessionClosing {
  import opened Prelude
  import opened SessionPool
  import Obo = OboExchange

  /**
   A turn finishes the transport the disconnect waits for, or takes the next key, its transport and its lock out of the
   pool.
   */
  lemma DisconnectTurn(p: Pool, o: Obo.State, u: Setup, d: nat)
    requires PooledOk(p) && Enabled(p, o, Close(d))
    ensures var p', closer := PoolAfter(p, o, u, Close(d)), p.closers[d];
            && p'.callers == p.callers && p'.holders == p.holders && d < |p'.closers|
            && (closer.closing.Some? ==>
                  && !p'.heap[closer.closing.value].connected && p'.closers[d] == closer.(closing := None)
                  && p'.transports == p.transports && p'.locks == p.locks)
            && (closer.closing.None? && closer.keys != [] ==>
                  var key := closer.keys[0];
                  && key !in p'.transports && key !in p'.locks && p'.heap == p.heap
                  && (forall other | other != key ::
                        && (other in p'.transports <==> other in p.transports)
                        && (other in p.transports ==> p'.transports[other] == p.transports[other]))
                  && p'.closers[d].keys == closer.keys[1..]
                  && (if key in p.transports then p'.closers[d].closing == Some(p.transports[key])
                      else p'.closers[d].closing.None?))
  {
  }

  /** Inside its lock a caller gets the key's pooled transport as it is if that is connected; otherwise it connects it. */
  lemma ConnectedTransportsAreReused(s: State, u: Setup, c: CallerId)
    requires Isolated(s, u) && Enabled(s.pool, s.obo, Resume(c)) && s.pool.callers[c].pc.HasLock?
    ensures var p, p', caller := s.pool, Do(s, u, Resume(c)).pool, s.pool.callers[c];
            var key := caller.Key();
            && c < |p'.callers| && key in p'.transports && p'.transports[key] < |p'.heap|
            && var x := p'.transports[key];
            && (key in p.transports ==> x == p.transports[key] && |p'.heap| == |p.heap|)
            && (key !in p.transports ==> x == |p.heap|)
            && (if key in p.transports && p.heap[x].connected
                then p'.callers[c].pc == Got(x) && p'.heap == p.heap
                else
                  && p'.callers[c].pc == Connecting(caller.pc.lock, x)
                  && p'.heap[x].connects == (if x < |p.heap| then p.heap[x].connects else [])
                                            + [Connect(caller.context, caller.auth)])
  {
  }

  /** The disconnects started in a run, in order. */
  function Drops(steps: seq<Step>): seq<Step> {
    if steps == [] then []
    else
      var last := steps[|steps| - 1];
      Drops(steps[..|steps| - 1]) + (if last.Drop? then [last] else [])
  }

  /** The key that the `d`-th disconnect takes out of the pool in this step, if it takes one. */
  function Taken(p: Pool, step: Step, d: nat): seq<SessionKey> {
    if step == Close(d) && d < |p.closers| && p.closers[d].closing.None? && p.closers[d].keys != []
    then [p.closers[d].keys[0]] else []
  }

  /** The keys the `d`-th disconnect has taken out of the pool so far, in order. */
  function PoppedBy(steps: seq<Step>, u: Setup, d: nat): seq<SessionKey> {
    if steps == [] then []
    else
      var before, last := Run(steps[..|steps| - 1], u), steps[|steps| - 1];
      PoppedBy(steps[..|steps| - 1], u, d) + (if before.Some? then Taken(before.value.pool, last, d) else [])
  }

  /** What a disconnect was asked for, against what it took and what it still has to take. */
  predicate Accounts(asked: Step, taken: seq<SessionKey>, closer: Closer) {
    && asked.Drop? && closer.swallows == asked.swallows
    && taken + closer.keys <= asked.keys
    && (asked.swallows ==> taken + closer.keys == asked.keys)
  }

  lemma ClosersMove(p: Pool, o: Obo.State, u: Setup, step: Step)
    requires Enabled(p, o, step)
    ensures var after := PoolAfter(p, o, u, step).closers;
            && (step.Drop? ==> after == p.closers + [Closer(step.keys, None, step.swallows)])
            && (step.Close? ==>
                  |after| == |p.closers| && forall d: nat :: d < |p.closers| && d != step.d ==> after[d] == p.closers[d])
            && (step.CloseRaises? ==> after == p.closers[step.d := CloseRaised(p, step.d).closers[step.d]])
            && (!step.Drop? && !step.Close? && !step.CloseRaises? ==> after == p.closers)
  {
    if ByCaller(step) {
      CallersHop(p, o, u, step);
    }
  }

  lemma TurnAccounts(p: Pool, d: nat, asked: Step, taken: seq<SessionKey>)
    requires d < |p.closers| && (p.closers[d].closing.Some? ==> p.closers[d].closing.value < |p.heap|)
    requires Accounts(asked, taken, p.closers[d])
    ensures d < |Closed(p, d).closers| && Accounts(asked, taken + Taken(p, Close(d), d), Closed(p, d).closers[d])
  {
    var closer := p.closers[d];
    if closer.closing.None? && closer.keys != [] {
      assert (taken + [closer.keys[0]]) + closer.keys[1..] == taken + closer.keys;
    } else {
      assert taken + [] == taken;
    }
  }

  lemma RaiseAccounts(p: Pool, d: nat, asked: Step, taken: seq<SessionKey>)
    requires d < |p.closers| && Accounts(asked, taken, p.closers[d])
    ensures Accounts(asked, taken, CloseRaised(p, d).closers[d])
  {
    assert taken <= taken + p.closers[d].keys && taken + [] == taken;
  }

  lemma StepAccounts(p: Pool, o: Obo.State, u: Setup, step: Step, d: nat, asked: Step, taken: seq<SessionKey>)
    requires Enabled(p, o, step) && d < |p.closers| && Accounts(asked, taken, p.closers[d])
    ensures d < |PoolAfter(p, o, u, step).closers|
            && Accounts(asked, taken + Taken(p, step, d), PoolAfter(p, o, u, step).closers[d])
  {
    ClosersMove(p, o, u, step);
    assert taken + [] == taken;
    if step == Close(d) {
      TurnAccounts(p, d, asked, taken);
    } else if step == CloseRaises(d) {
      RaiseAccounts(p, d, asked, taken);
    }
  }

  lemma NewDisconnectAccounts(p: Pool, o: Obo.State, u: Setup, step: Step)
    requires Enabled(p, o, step) && step.Drop?
    ensures var after := PoolAfter(p, o, u, step).closers;
            |after| == |p.closers| + 1 && Accounts(step, [], after[|p.closers|])
  {
    assert [] + step.keys == step.keys;
  }

  /**
   In every run, what a disconnect has taken out of the pool and what it still has to take is, in order, what it was
   asked for: all of it for `disconnect_all`, whatever raises; a beginning of it for `disconnect`, which an error ends.
   */
  lemma {:induction false} DisconnectsTakeWhatTheyWereAskedFor(steps: seq<Step>, u: Setup, d: nat)
    requires Run(steps, u).Some?
    ensures |Drops(steps)| == |Run(steps, u).value.pool.closers|
    ensures d < |Drops(steps)| ==> Accounts(Drops(steps)[d], PoppedBy(steps, u, d), Run(steps, u).value.pool.closers[d])
    ensures d >= |Drops(steps)| ==> PoppedBy(steps, u, d) == []
  {
    if steps == [] {
    } else {
      var front, last := steps[..|steps| - 1], steps[|steps| - 1];
      var before := Run(front, u).value;
      DisconnectsTakeWhatTheyWereAskedFor(front, u, d);
      ClosersMove(before.pool, before.obo, u, last);
      if d < |Drops(front)| {
        StepAccounts(before.pool, before.obo, u, last, d, Drops(front)[d], PoppedBy(front, u, d));
      } else if last.Drop? {
        NewDisconnectAccounts(before.pool, before.obo, u, last);
      }
    }
  }
}
