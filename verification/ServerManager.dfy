/** `ServerManager.get_session` and `disconnect`, cut at their awaits: a method is one atomic step of the pool. */
module ServerManager {
  import opened Prelude
  import opened SessionPool
  import Obo = OboExchange

  class Manager {
    const setup: Setup
    var transports: map<SessionKey, TransportId>
    var locks: map<SessionKey, LockId>
    var nextLock: LockId
    var globalHolder: Option<CallerId>
    var holders: map<LockId, CallerId>
    /** Every transport object ever created, and every task that uses the pool. */
    var heap: seq<Transport>
    var callers: seq<Caller>
    var closers: seq<Closer>
    ghost var obo: Obo.State

    ghost function View(): State
      reads this
    {
      State(obo, Pool(transports, locks, nextLock, globalHolder, holders, heap, callers, closers))
    }

    ghost predicate Valid()
      reads this
    {
      Isolated(View(), setup)
    }

    constructor (setup: Setup)
      ensures Valid() && View() == START && this.setup == setup
    {
      this.setup := setup;
      transports, locks, nextLock, globalHolder, holders := map[], map[], 0, None, map[];
      heap, callers, closers, obo := [], [], [], Obo.START;
      new;
      StartIsOk(setup);
    }

    method Goto(c: CallerId, pc: Pc)
      requires c < |callers|
      modifies this`callers
      ensures callers == old(View()).pool.At(c, pc)
    {
      callers := callers[c := callers[c].(pc := pc)];
    }

    /**
     One segment of `get_session` up to the connect: looking the server up, finding or making the key's lock, entering
     it, or pooling a transport if there is none and connecting it unless it is connected.
     */
    method Resume(c: CallerId)
      requires Valid() && Enabled(View().pool, obo, Step.Resume(c))
      requires BeforeLock(callers[c].pc) || callers[c].pc.HasLock?
      modifies this
      ensures Valid() && View() == Do(old(View()), setup, Step.Resume(c))
    {
      StepKeepsIsolation(View(), setup, Step.Resume(c));
      var key := callers[c].Key();
      match callers[c].pc {
        case Ready =>
          if callers[c].server in setup.servers {
            globalHolder := Some(c);
            Goto(c, HasGlobal);
          } else {
            Goto(c, Failed);
          }
        case HasGlobal =>
          if key !in locks {
            locks := locks[key := nextLock];
            nextLock := nextLock + 1;
          }
          globalHolder := None;
          Goto(c, WantLock(locks[key]));
        case WantLock(lock) =>
          holders := holders[lock := c];
          Goto(c, HasLock(lock));
        case HasLock(_) => TakeTransport(c);
      }
    }

    method TakeTransport(c: CallerId)
      requires c < |callers| && callers[c].pc.HasLock?
      requires callers[c].Key() in transports ==> transports[callers[c].Key()] < |heap|
      modifies this
      ensures View() == State(obo, TookLock(old(View()).pool, c)) && obo == old(obo)
    {
      var lock, key := callers[c].pc.lock, callers[c].Key();
      if key !in transports {
        transports := transports[key := |heap|];
        heap := heap + [Transport(key, false, [])];
      }
      var x := transports[key];
      if heap[x].connected {
        holders := holders - {lock};
        Goto(c, Got(x));
      } else {
        var made := heap[x].connects + [Connect(callers[c].context, callers[c].auth)];
        heap := heap[x := heap[x].(connects := made)];
        Goto(c, Connecting(lock, x));
      }
    }

    method ConnectReturned(c: CallerId)
      requires Valid() && Enabled(View().pool, obo, Connected(c))
      modifies this
      ensures Valid() && View() == Do(old(View()), setup, Connected(c))
    {
      StepKeepsIsolation(View(), setup, Connected(c));
      var pc := callers[c].pc;
      heap := heap[pc.transport := heap[pc.transport].(connected := true)];
      holders := holders - {pc.lock};
      Goto(c, Got(pc.transport));
    }

    /** One turn of the loop in `disconnect` and `disconnect_all`. */
    method PopNext(d: nat)
      requires Valid() && Enabled(View().pool, obo, Close(d))
      modifies this
      ensures Valid() && View() == Do(old(View()), setup, Close(d))
    {
      StepKeepsIsolation(View(), setup, Close(d));
      var closer := closers[d];
      if closer.closing.Some? {
        heap := heap[closer.closing.value := heap[closer.closing.value].(connected := false)];
        closers := closers[d := closer.(closing := None)];
      } else if closer.keys != [] {
        var key := closer.keys[0];
        var popped := if key in transports then Some(transports[key]) else None;
        transports := transports - {key};
        locks := locks - {key};
        closers := closers[d := closer.(keys := closer.keys[1..], closing := popped)];
      }
    }
  }
}
