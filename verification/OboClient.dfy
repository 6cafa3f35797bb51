/** `OBOClient.exchange_token`, cut at its awaits: a method is what one task does between two of them. */
module OboClient {
  import opened Prelude
  import opened OboExchange

  class Client {
    const ttl: int
    var now: real
    var cache: map<CacheKey, Token>
    var locks: map<CacheKey, LockId>
    var nextLock: LockId
    var globalHolder: Option<TaskId>
    var holders: map<LockId, TaskId>
    var tasks: seq<Task>
    /** The token endpoint's own record of its requests. */
    var log: seq<Exchange>

    ghost function View(): State
      reads this
    {
      State(now, cache, locks, nextLock, globalHolder, holders, tasks, log)
    }

    ghost predicate Valid()
      reads this
    {
      Inv(View(), ttl)
    }

    constructor (ttl: int)
      ensures Valid() && View() == START && this.ttl == ttl
    {
      this.ttl, now := ttl, 0.0;
      cache, locks, nextLock, globalHolder, holders := map[], map[], 0, None, map[];
      tasks, log := [], [];
    }

    method IsExpired(token: Token) returns (r: bool)
      ensures r <==> now - token.issuedAt >= (token.expiresIn - ttl) as real
    {
      var age := now - token.issuedAt;
      r := age >= (token.expiresIn - ttl) as real;
    }

    method Cached(key: CacheKey) returns (r: Option<Token>)
      ensures r == if View().Hit(key, ttl) then Some(cache[key]) else None
    {
      if key !in cache {
        return None;
      }
      var expired := IsExpired(cache[key]);
      return if expired then None else Some(cache[key]);
    }

    method Goto(t: TaskId, pc: Pc)
      requires t < |tasks|
      modifies this`tasks
      ensures tasks == old(View()).At(t, pc)
    {
      tasks := tasks[t := tasks[t].(pc := pc)];
    }

    /** A look into the cache: before any lock, or inside the key's lock, where a miss sends the exchange request. */
    method Look(t: TaskId)
      requires Valid() && Enabled(View(), Resume(t)) && (tasks[t].pc.Start? || tasks[t].pc.HasLock?)
      modifies this
      ensures Valid() && View() == Do(old(View()), ttl, Resume(t))
    {
      StepKeeps(View(), ttl, Resume(t));
      var pc, key := tasks[t].pc, tasks[t].request.Key();
      var cached := Cached(key);
      if pc.HasLock? && cached.None? {
        var seen := if key in cache then Some(cache[key]) else None;
        log := log + [Exchange(tasks[t].request, t, now, seen, Pending)];
        Goto(t, Exchanging(pc.lock, |log| - 1));
        return;
      }
      if pc.HasLock? {
        holders := holders - {pc.lock};
      }
      Goto(t, if cached.Some? then Returned(cached.value, now) else WantGlobal);
    }

    /** Into the global lock, out of it with the key's lock found or made, and into that lock. */
    method Enter(t: TaskId)
      requires Valid() && Enabled(View(), Resume(t)) && !tasks[t].pc.Start? && !tasks[t].pc.HasLock?
      modifies this
      ensures Valid() && View() == Do(old(View()), ttl, Resume(t))
    {
      StepKeeps(View(), ttl, Resume(t));
      var pc, key := tasks[t].pc, tasks[t].request.Key();
      if pc.WantGlobal? {
        globalHolder := Some(t);
        Goto(t, HasGlobal);
      } else if pc.WantLock? {
        holders := holders[pc.lock := t];
        Goto(t, HasLock(pc.lock));
      } else {
        if key !in locks {
          locks := locks[key := nextLock];
          nextLock := nextLock + 1;
        }
        globalHolder := None;
        Goto(t, WantLock(locks[key]));
      }
    }

    /** The endpoint answered with a token: it is stored under the key and returned. */
    method StoreToken(t: TaskId, access: string, expiresIn: int)
      requires Valid() && Enabled(View(), Respond(t, access, expiresIn))
      modifies this
      ensures Valid() && View() == Do(old(View()), ttl, Respond(t, access, expiresIn))
    {
      StepKeeps(View(), ttl, Respond(t, access, expiresIn));
      var pc, token := tasks[t].pc, Token(access, expiresIn, now);
      log := Settle(log, pc.entry, Stored(token));
      cache := cache[tasks[t].request.Key() := token];
      holders := holders - {pc.lock};
      Goto(t, Returned(token, now));
    }

    /** An exception leaves the `async with` blocks it is inside of; the cache is not touched. */
    method Unwind(t: TaskId)
      requires Valid() && Enabled(View(), Raise(t))
      modifies this
      ensures Valid() && View() == Do(old(View()), ttl, Raise(t)) && cache == old(cache)
    {
      StepKeeps(View(), ttl, Raise(t));
      var pc := tasks[t].pc;
      if pc.HasGlobal? {
        globalHolder := None;
      } else if pc.HasLock? || pc.Exchanging? {
        holders := holders - {pc.lock};
      }
      if pc.Exchanging? {
        log := Settle(log, pc.entry, Failed);
      }
      Goto(t, Raised);
    }
  }
}
