/**
 The token-exchange cache as a state machine: any number of tasks, one atomic step between two awaits, arbitrary
 interleaving. A task may raise at any await, which covers a failed exchange and a cancelled caller alike.
 */
module OboExchange {
  import opened Prelude
  import opened Sorting

  datatype CacheKey = CacheKey(subjectId: string, audience: string, scopes: seq<string>)

  function FromParams(subjectId: string, audience: string, scopes: seq<string>): CacheKey {
    CacheKey(subjectId, audience, Sort(TextLe, scopes))
  }

  /** Two requests share a cache entry exactly when they differ at most in the order of their scopes. */
  lemma KeysAgreeUpToScopeOrder(subject: string, audience: string, scopes: seq<string>,
                                subject': string, audience': string, scopes': seq<string>)
    ensures FromParams(subject, audience, scopes) == FromParams(subject', audience', scopes')
       <==> subject == subject' && audience == audience' && multiset(scopes) == multiset(scopes')
  {
    TextLeIsAnOrder();
    SortIsCanonical(TextLe, scopes, scopes');
  }

  datatype Token = Token(access: string, expiresIn: int, issuedAt: real)

  /** Expired, or within `ttl` seconds of expiry. */
  predicate Expired(token: Token, now: real, ttl: int) {
    now - token.issuedAt >= (token.expiresIn - ttl) as real
  }

  datatype Request = Request(subjectToken: string, subjectId: string, audience: string, scopes: seq<string>)
  {
    function Key(): CacheKey { FromParams(subjectId, audience, scopes) }
  }

  type TaskId = nat
  type LockId = nat

  datatype Pc =
    | Start
    | WantGlobal
    | HasGlobal
    | WantLock(lock: LockId)
    | HasLock(lock: LockId)
    | Exchanging(lock: LockId, entry: nat)
    | Returned(token: Token, at: real)
    | Raised

  datatype Task = Task(request: Request, pc: Pc)
  {
    predicate Live() { !pc.Returned? && !pc.Raised? }

    predicate Inside(lock: LockId) { (pc.HasLock? || pc.Exchanging?) && pc.lock == lock }
  }

  datatype Outcome = Pending | Failed | Stored(token: Token)

  /** One request to the token endpoint: who made it, when, and what the cache then held. */
  datatype Exchange = Exchange(request: Request, task: TaskId, began: real, seen: Option<Token>, outcome: Outcome)
  {
    function Key(): CacheKey { request.Key() }
  }

  datatype State = State(
    now: real,
    cache: map<CacheKey, Token>,
    locks: map<CacheKey, LockId>,
    nextLock: LockId,
    globalHolder: Option<TaskId>,
    holders: map<LockId, TaskId>,
    tasks: seq<Task>,
    log: seq<Exchange>)
  {
    function Cached(key: CacheKey): Option<Token> {
      if key in cache then Some(cache[key]) else None
    }

    predicate Hit(key: CacheKey, ttl: int) {
      key in cache && !Expired(cache[key], now, ttl)
    }

    function At(t: TaskId, pc: Pc): seq<Task>
      requires t < |tasks|
    {
      tasks[t := tasks[t].(pc := pc)]
    }
  }

  const START := State(0.0, map[], map[], 0, None, map[], [], [])

  datatype Step =
    | Tick(elapsed: real)
    | Arrive(request: Request)
    | Resume(t: TaskId)
    | Respond(t: TaskId, access: string, expiresIn: int)
    | Raise(t: TaskId)

  predicate Enabled(s: State, step: Step) {
    match step
    case Tick(elapsed) => elapsed >= 0.0
    case Arrive(_) => true
    case Resume(t) =>
      && t < |s.tasks|
      && match s.tasks[t].pc {
        case Start | HasGlobal | HasLock(_) => true
        case WantGlobal => s.globalHolder.None?
        case WantLock(lock) => lock !in s.holders
        case _ => false
      }
    case Respond(t, access, _) => t < |s.tasks| && s.tasks[t].pc.Exchanging? && s.tasks[t].pc.entry < |s.log| && access != ""
    case Raise(t) =>
      t < |s.tasks| && s.tasks[t].Live() && (s.tasks[t].pc.Exchanging? ==> s.tasks[t].pc.entry < |s.log|)
  }

  function Settle(log: seq<Exchange>, i: nat, outcome: Outcome): seq<Exchange>
    requires i < |log|
  {
    log[i := log[i].(outcome := outcome)]
  }

  function Resumed(s: State, ttl: int, t: TaskId): State
    requires Enabled(s, Resume(t))
  {
    var task := s.tasks[t];
    var key := task.request.Key();
    match task.pc
    case Start =>
      if s.Hit(key, ttl) then s.(tasks := s.At(t, Returned(s.cache[key], s.now)))
      else s.(tasks := s.At(t, WantGlobal))
    case WantGlobal => s.(globalHolder := Some(t), tasks := s.At(t, HasGlobal))
    case HasGlobal =>
      if key in s.locks then s.(globalHolder := None, tasks := s.At(t, WantLock(s.locks[key])))
      else s.(locks := s.locks[key := s.nextLock], nextLock := s.nextLock + 1,
              globalHolder := None, tasks := s.At(t, WantLock(s.nextLock)))
    case WantLock(lock) => s.(holders := s.holders[lock := t], tasks := s.At(t, HasLock(lock)))
    case HasLock(lock) =>
      if s.Hit(key, ttl) then s.(holders := s.holders - {lock}, tasks := s.At(t, Returned(s.cache[key], s.now)))
      else s.(tasks := s.At(t, Exchanging(lock, |s.log|)),
              log := s.log + [Exchange(task.request, t, s.now, s.Cached(key), Pending)])
    case _ => s
  }

  function RaisedAt(s: State, t: TaskId): State
    requires Enabled(s, Raise(t))
  {
    var tasks := s.At(t, Raised);
    match s.tasks[t].pc
    case HasGlobal => s.(globalHolder := None, tasks := tasks)
    case HasLock(lock) => s.(holders := s.holders - {lock}, tasks := tasks)
    case Exchanging(lock, entry) =>
      s.(holders := s.holders - {lock}, tasks := tasks, log := Settle(s.log, entry, Failed))
    case _ => s.(tasks := tasks)
  }

  function Responded(s: State, t: TaskId, access: string, expiresIn: int): State
    requires Enabled(s, Respond(t, access, expiresIn))
  {
    var token := Token(access, expiresIn, s.now);
    var pc := s.tasks[t].pc;
    s.(cache := s.cache[s.tasks[t].request.Key() := token], holders := s.holders - {pc.lock},
       tasks := s.At(t, Returned(token, s.now)), log := Settle(s.log, pc.entry, Stored(token)))
  }

  function Do(s: State, ttl: int, step: Step): State
    requires Enabled(s, step)
  {
    match step
    case Tick(elapsed) => s.(now := s.now + elapsed)
    case Arrive(request) => s.(tasks := s.tasks + [Task(request, Start)])
    case Resume(t) => Resumed(s, ttl, t)
    case Respond(t, access, expiresIn) => Responded(s, t, access, expiresIn)
    case Raise(t) => RaisedAt(s, t)
  }

  // ------------------------------------------------------------------
  // The invariant
  // ------------------------------------------------------------------

  /** Entry `i` of the log is an exchange for `key` that stored `token`. */
  predicate Source(log: seq<Exchange>, i: nat, key: CacheKey, token: Token) {
    i < |log| && log[i].Key() == key && log[i].outcome == Stored(token)
  }

  /** A returned token came from an exchange for the task's key: its own, or one not near expiry when checked. */
  predicate Justifies(log: seq<Exchange>, i: nat, t: TaskId, key: CacheKey, token: Token, at: real, ttl: int) {
    Source(log, i, key, token) && (log[i].task == t || !Expired(token, at, ttl))
  }

  predicate IsLast(log: seq<Exchange>, i: nat)
    requires i < |log|
  {
    forall j :: i < j < |log| ==> log[j].Key() != log[i].Key()
  }

  ghost predicate TaskOk(s: State, ttl: int, t: TaskId)
    requires t < |s.tasks|
  {
    var key := s.tasks[t].request.Key();
    match s.tasks[t].pc
    case Start | WantGlobal | Raised => true
    case HasGlobal => s.globalHolder == Some(t)
    case WantLock(lock) => key in s.locks && s.locks[key] == lock
    case HasLock(lock) => key in s.locks && s.locks[key] == lock && lock in s.holders && s.holders[lock] == t
    case Exchanging(lock, entry) =>
      && key in s.locks && s.locks[key] == lock && lock in s.holders && s.holders[lock] == t
      && entry < |s.log| && s.log[entry].task == t && s.log[entry].Key() == key && s.log[entry].outcome == Pending
    case Returned(token, at) => exists i: nat :: Justifies(s.log, i, t, key, token, at, ttl)
  }

  ghost predicate HolderOk(s: State, lock: LockId)
    requires lock in s.holders
  {
    s.holders[lock] < |s.tasks| && s.tasks[s.holders[lock]].Inside(lock)
  }

  ghost predicate EntryOk(s: State, ttl: int, i: nat)
    requires i < |s.log|
  {
    var e := s.log[i];
    && (e.seen.Some? ==> Expired(e.seen.value, e.began, ttl))
    && (e.outcome.Pending? ==>
          && e.task < |s.tasks| && s.tasks[e.task].pc.Exchanging? && s.tasks[e.task].pc.entry == i
          && IsLast(s.log, i))
    && (e.outcome.Stored? && IsLast(s.log, i) ==> s.Cached(e.Key()) == Some(e.outcome.token))
  }

  predicate Consecutive(log: seq<Exchange>, i: nat, j: nat) {
    i < j < |log| && log[i].Key() == log[j].Key() && forall m :: i < m < j ==> log[m].Key() != log[i].Key()
  }

  /** The second exchange was needed: the first failed, or its stored token was near expiry when the second began. */
  predicate Accounted(first: Exchange, second: Exchange, ttl: int) {
    || first.outcome.Failed?
    || (first.outcome.Stored? && second.seen == Some(first.outcome.token) && Expired(first.outcome.token, second.began, ttl))
  }

  /** A key has one lock and a lock has one key. */
  ghost predicate LocksOk(s: State) {
    && (forall key :: key in s.locks ==> s.locks[key] < s.nextLock)
    && (forall key, key' :: key in s.locks && key' in s.locks && s.locks[key] == s.locks[key'] ==> key == key')
  }

  ghost predicate HoldersOk(s: State) {
    && (s.globalHolder.Some? ==> s.globalHolder.value < |s.tasks| && s.tasks[s.globalHolder.value].pc.HasGlobal?)
    && (forall lock :: lock in s.holders ==> HolderOk(s, lock))
  }

  ghost predicate TasksOk(s: State, ttl: int) {
    forall t: TaskId :: t < |s.tasks| ==> TaskOk(s, ttl, t)
  }

  ghost predicate EntriesOk(s: State, ttl: int) {
    forall i: nat :: i < |s.log| ==> EntryOk(s, ttl, i)
  }

  ghost predicate HasSource(s: State, key: CacheKey)
    requires key in s.cache
  {
    exists i: nat :: Source(s.log, i, key, s.cache[key])
  }

  ghost predicate CacheOk(s: State) {
    forall key :: key in s.cache ==> HasSource(s, key)
  }

  ghost predicate AllAccounted(s: State, ttl: int) {
    forall i: nat, j: nat :: Consecutive(s.log, i, j) ==> Accounted(s.log[i], s.log[j], ttl)
  }

  ghost predicate Inv(s: State, ttl: int) {
    LocksOk(s) && HoldersOk(s) && TasksOk(s, ttl) && EntriesOk(s, ttl) && CacheOk(s) && AllAccounted(s, ttl)
  }

  // ------------------------------------------------------------------
  // Every step keeps it
  // ------------------------------------------------------------------

  /** Two states that agree on every task but one, which changes its program counter only. */
  ghost predicate Moves(s: State, s': State, t: TaskId) {
    && t < |s.tasks| && |s'.tasks| == |s.tasks| && s'.tasks[t].request == s.tasks[t].request
    && (forall u: TaskId :: u < |s.tasks| && u != t ==> s'.tasks[u] == s.tasks[u])
  }

  lemma SameLogKeeps(s: State, s': State, ttl: int, t: TaskId)
    requires EntriesOk(s, ttl) && CacheOk(s) && AllAccounted(s, ttl)
    requires Moves(s, s', t) && s'.log == s.log && s'.cache == s.cache
    requires !s.tasks[t].pc.Exchanging?
    ensures EntriesOk(s', ttl) && CacheOk(s') && AllAccounted(s', ttl)
  {
    forall i: nat | i < |s'.log| ensures EntryOk(s', ttl, i) {
      assert EntryOk(s, ttl, i);
    }
    forall key | key in s'.cache ensures HasSource(s', key) {
      assert HasSource(s, key);
    }
  }

  lemma HitIsJustified(s: State, ttl: int, t: TaskId, key: CacheKey)
    requires CacheOk(s) && s.Hit(key, ttl)
    ensures exists i: nat :: Justifies(s.log, i, t, key, s.cache[key], s.now, ttl)
  {
    assert HasSource(s, key);
    var i: nat :| Source(s.log, i, key, s.cache[key]);
    assert Justifies(s.log, i, t, key, s.cache[key], s.now, ttl);
  }

  /** What task `t` may do to shared state without disturbing the others. */
  ghost predicate Undisturbed(s: State, s': State, t: TaskId) {
    && (forall key :: key in s.locks ==> key in s'.locks && s'.locks[key] == s.locks[key])
    && (forall lock :: lock in s.holders && s.holders[lock] != t ==> lock in s'.holders && s'.holders[lock] == s.holders[lock])
    && (forall u: TaskId :: u != t && s.globalHolder == Some(u) ==> s'.globalHolder == Some(u))
    && |s'.log| >= |s.log|
    && (forall i: nat :: i < |s.log| ==> s'.log[i].request == s.log[i].request && s'.log[i].task == s.log[i].task)
    && (forall i: nat :: i < |s.log| && s.log[i].task != t ==> s'.log[i] == s.log[i])
    && (forall i: nat :: i < |s.log| && s.log[i].outcome.Stored? ==> s'.log[i] == s.log[i])
  }

  lemma OthersStayOk(s: State, s': State, ttl: int, t: TaskId)
    requires TasksOk(s, ttl) && Moves(s, s', t) && Undisturbed(s, s', t) && TaskOk(s', ttl, t)
    ensures TasksOk(s', ttl)
  {
    forall u: TaskId | u < |s'.tasks| ensures TaskOk(s', ttl, u) {
      if u != t {
        assert TaskOk(s, ttl, u);
        if s.tasks[u].pc.Returned? {
          var key, pc := s.tasks[u].request.Key(), s.tasks[u].pc;
          var i: nat :| Justifies(s.log, i, u, key, pc.token, pc.at, ttl);
          assert Justifies(s'.log, i, u, key, pc.token, pc.at, ttl);
        }
      }
    }
  }

  lemma HoldersStayOk(s: State, s': State, t: TaskId)
    requires HoldersOk(s) && Moves(s, s', t)
    requires forall lock :: lock in s'.holders && s'.holders[lock] != t ==> lock in s.holders && s.holders[lock] == s'.holders[lock]
    requires forall lock :: lock in s'.holders && s'.holders[lock] == t ==> s'.tasks[t].Inside(lock)
    requires s'.globalHolder == s.globalHolder || s'.globalHolder == None || s'.globalHolder == Some(t)
    requires s'.globalHolder == Some(t) ==> s'.tasks[t].pc.HasGlobal?
    ensures HoldersOk(s')
  {
    forall lock | lock in s'.holders ensures HolderOk(s', lock) {
      if s'.holders[lock] != t {
        assert HolderOk(s, lock);
      }
    }
  }

  lemma StartKeeps(s: State, ttl: int, t: TaskId)
    requires Inv(s, ttl) && Enabled(s, Resume(t)) && s.tasks[t].pc.Start?
    ensures Inv(Resumed(s, ttl, t), ttl)
  {
    var s', key := Resumed(s, ttl, t), s.tasks[t].request.Key();
    OnlyInsideHolds(s, t);
    SameLogKeeps(s, s', ttl, t);
    HoldersStayOk(s, s', t);
    if s.Hit(key, ttl) {
      HitIsJustified(s, ttl, t, key);
    }
    OthersStayOk(s, s', ttl, t);
  }

  /** A task holds no lock but the one its program counter names. */
  lemma OnlyInsideHolds(s: State, t: TaskId)
    requires HoldersOk(s) && t < |s.tasks|
    ensures forall lock :: lock in s.holders && s.holders[lock] == t ==> s.tasks[t].Inside(lock)
    ensures s.globalHolder == Some(t) ==> s.tasks[t].pc.HasGlobal?
  {
    forall lock | lock in s.holders && s.holders[lock] == t ensures s.tasks[t].Inside(lock) {
      assert HolderOk(s, lock);
    }
  }

  lemma WantGlobalKeeps(s: State, ttl: int, t: TaskId)
    requires Inv(s, ttl) && Enabled(s, Resume(t)) && s.tasks[t].pc.WantGlobal?
    ensures Inv(Resumed(s, ttl, t), ttl)
  {
    var s' := Resumed(s, ttl, t);
    OnlyInsideHolds(s, t);
    SameLogKeeps(s, s', ttl, t);
    HoldersStayOk(s, s', t);
    OthersStayOk(s, s', ttl, t);
  }

  lemma HasGlobalKeeps(s: State, ttl: int, t: TaskId)
    requires Inv(s, ttl) && Enabled(s, Resume(t)) && s.tasks[t].pc.HasGlobal?
    ensures Inv(Resumed(s, ttl, t), ttl)
  {
    var s' := Resumed(s, ttl, t);
    assert TaskOk(s, ttl, t);
    OnlyInsideHolds(s, t);
    SameLogKeeps(s, s', ttl, t);
    HoldersStayOk(s, s', t);
    OthersStayOk(s, s', ttl, t);
  }

  lemma WantLockKeeps(s: State, ttl: int, t: TaskId)
    requires Inv(s, ttl) && Enabled(s, Resume(t)) && s.tasks[t].pc.WantLock?
    ensures Inv(Resumed(s, ttl, t), ttl)
  {
    var s' := Resumed(s, ttl, t);
    assert TaskOk(s, ttl, t);
    OnlyInsideHolds(s, t);
    SameLogKeeps(s, s', ttl, t);
    HoldersStayOk(s, s', t);
    OthersStayOk(s, s', ttl, t);
  }

  lemma SecondLookHitKeeps(s: State, ttl: int, t: TaskId)
    requires Inv(s, ttl) && Enabled(s, Resume(t)) && s.tasks[t].pc.HasLock?
    requires s.Hit(s.tasks[t].request.Key(), ttl)
    ensures Inv(Resumed(s, ttl, t), ttl)
  {
    var s' := Resumed(s, ttl, t);
    assert TaskOk(s, ttl, t);
    OnlyInsideHolds(s, t);
    SameLogKeeps(s, s', ttl, t);
    HoldersStayOk(s, s', t);
    HitIsJustified(s, ttl, t, s.tasks[t].request.Key());
    OthersStayOk(s, s', ttl, t);
  }

  /** While a task is inside a key's lock but not exchanging, no exchange for that key is in flight. */
  lemma NonePendingFor(s: State, ttl: int, t: TaskId, i: nat)
    requires Inv(s, ttl) && t < |s.tasks| && s.tasks[t].pc.HasLock? && i < |s.log|
    requires s.log[i].Key() == s.tasks[t].request.Key()
    ensures !s.log[i].outcome.Pending?
  {
    assert TaskOk(s, ttl, t) && EntryOk(s, ttl, i);
    var u := s.log[i].task;
    assert u < |s.tasks| ==> TaskOk(s, ttl, u);
  }

  lemma BeginKeepsLog(s: State, ttl: int, t: TaskId)
    requires Inv(s, ttl) && Enabled(s, Resume(t)) && s.tasks[t].pc.HasLock?
    requires !s.Hit(s.tasks[t].request.Key(), ttl)
    ensures EntriesOk(Resumed(s, ttl, t), ttl)
  {
    var s', key := Resumed(s, ttl, t), s.tasks[t].request.Key();
    forall i: nat | i < |s'.log| ensures EntryOk(s', ttl, i) {
      if i < |s.log| {
        assert EntryOk(s, ttl, i) && s'.log[i] == s.log[i];
        if s.log[i].outcome.Pending? {
          if s.log[i].Key() == key {
            NonePendingFor(s, ttl, t, i);
          }
          assert IsLast(s'.log, i);
        } else if IsLast(s'.log, i) {
          assert IsLast(s.log, i) by {
            forall j | i < j < |s.log| ensures s.log[j].Key() != s.log[i].Key() { assert s'.log[j] == s.log[j]; }
          }
        }
      }
    }
  }

  lemma BeginIsAccounted(s: State, ttl: int, t: TaskId)
    requires Inv(s, ttl) && Enabled(s, Resume(t)) && s.tasks[t].pc.HasLock?
    requires !s.Hit(s.tasks[t].request.Key(), ttl)
    ensures AllAccounted(Resumed(s, ttl, t), ttl)
  {
    var s', n := Resumed(s, ttl, t), |s.log|;
    forall i: nat, j: nat | Consecutive(s'.log, i, j) ensures Accounted(s'.log[i], s'.log[j], ttl) {
      assert s'.log[i] == s.log[i];
      if j < n {
        assert forall m :: i < m < j ==> s'.log[m] == s.log[m];
        assert Consecutive(s.log, i, j);
      } else {
        NonePendingFor(s, ttl, t, i);
        assert IsLast(s.log, i) by {
          forall m | i < m < n ensures s.log[m].Key() != s.log[i].Key() { assert s'.log[m] == s.log[m]; }
        }
        assert EntryOk(s, ttl, i);
      }
    }
  }

  lemma BeginKeeps(s: State, ttl: int, t: TaskId)
    requires Inv(s, ttl) && Enabled(s, Resume(t)) && s.tasks[t].pc.HasLock?
    requires !s.Hit(s.tasks[t].request.Key(), ttl)
    ensures Inv(Resumed(s, ttl, t), ttl)
  {
    var s' := Resumed(s, ttl, t);
    assert TaskOk(s, ttl, t);
    BeginKeepsLog(s, ttl, t);
    BeginIsAccounted(s, ttl, t);
    forall key | key in s'.cache ensures HasSource(s', key) {
      assert HasSource(s, key);
      var i: nat :| Source(s.log, i, key, s.cache[key]);
      assert Source(s'.log, i, key, s'.cache[key]);
    }
    OnlyInsideHolds(s, t);
    HoldersStayOk(s, s', t);
    OthersStayOk(s, s', ttl, t);
  }

  /** An exchange that ends, either way, was pending and the last for its key. */
  ghost predicate Settles(s: State, s': State, t: TaskId, entry: nat, outcome: Outcome) {
    && Moves(s, s', t) && s.tasks[t].pc.Exchanging? && s.tasks[t].pc.entry == entry && !outcome.Pending?
    && entry < |s.log| && s.log[entry].task == t && s.log[entry].Key() == s.tasks[t].request.Key()
    && s.log[entry].outcome.Pending? && IsLast(s.log, entry) && s'.log == Settle(s.log, entry, outcome)
    && s'.cache == if outcome.Stored? then s.cache[s.tasks[t].request.Key() := outcome.token] else s.cache
  }

  lemma SettleKeepsKeys(log: seq<Exchange>, entry: nat, outcome: Outcome)
    requires entry < |log|
    ensures var after := Settle(log, entry, outcome);
            && |after| == |log| && (forall i: nat :: i < |log| ==> after[i].Key() == log[i].Key())
            && (forall i: nat :: i < |log| ==> IsLast(after, i) == IsLast(log, i))
            && (forall i: nat, j: nat :: Consecutive(after, i, j) ==> Consecutive(log, i, j))
  {
    var after := Settle(log, entry, outcome);
    assert forall i: nat :: i < |log| ==> after[i].Key() == log[i].Key();
  }

  lemma SettleKeepsEntries(s: State, s': State, ttl: int, t: TaskId, entry: nat, outcome: Outcome)
    requires Settles(s, s', t, entry, outcome) && EntriesOk(s, ttl)
    ensures EntriesOk(s', ttl)
  {
    SettleKeepsKeys(s.log, entry, outcome);
    forall i: nat | i < |s'.log| ensures EntryOk(s', ttl, i) {
      assert EntryOk(s, ttl, i);
    }
  }

  lemma SettleKeepsCache(s: State, s': State, t: TaskId, entry: nat, outcome: Outcome)
    requires Settles(s, s', t, entry, outcome) && CacheOk(s)
    ensures CacheOk(s')
  {
    forall k | k in s'.cache ensures HasSource(s', k) {
      if outcome.Stored? && k == s.tasks[t].request.Key() {
        assert Source(s'.log, entry, k, s'.cache[k]);
      } else {
        assert HasSource(s, k);
        var i: nat :| Source(s.log, i, k, s.cache[k]);
        assert Source(s'.log, i, k, s'.cache[k]);
      }
    }
  }

  lemma SettleKeepsAccounts(s: State, s': State, ttl: int, t: TaskId, entry: nat, outcome: Outcome)
    requires Settles(s, s', t, entry, outcome) && AllAccounted(s, ttl)
    ensures AllAccounted(s', ttl)
  {
    SettleKeepsKeys(s.log, entry, outcome);
    forall i: nat, j: nat | Consecutive(s'.log, i, j) ensures Accounted(s'.log[i], s'.log[j], ttl) {
      assert Consecutive(s.log, i, j) && Accounted(s.log[i], s.log[j], ttl);
      assert i != entry;
    }
  }

  lemma SettleKeepsLog(s: State, s': State, ttl: int, t: TaskId, entry: nat, outcome: Outcome)
    requires Settles(s, s', t, entry, outcome) && EntriesOk(s, ttl) && CacheOk(s) && AllAccounted(s, ttl)
    ensures EntriesOk(s', ttl) && CacheOk(s') && AllAccounted(s', ttl)
  {
    SettleKeepsEntries(s, s', ttl, t, entry, outcome);
    SettleKeepsCache(s, s', t, entry, outcome);
    SettleKeepsAccounts(s, s', ttl, t, entry, outcome);
  }

  lemma RespondKeeps(s: State, ttl: int, t: TaskId, access: string, expiresIn: int)
    requires Inv(s, ttl) && Enabled(s, Respond(t, access, expiresIn))
    ensures Inv(Responded(s, t, access, expiresIn), ttl)
  {
    var s', token := Responded(s, t, access, expiresIn), Token(access, expiresIn, s.now);
    assert TaskOk(s, ttl, t) && EntryOk(s, ttl, s.tasks[t].pc.entry);
    SettleKeepsLog(s, s', ttl, t, s.tasks[t].pc.entry, Stored(token));
    OnlyInsideHolds(s, t);
    HoldersStayOk(s, s', t);
    assert Justifies(s'.log, s.tasks[t].pc.entry, t, s.tasks[t].request.Key(), token, s.now, ttl);
    OthersStayOk(s, s', ttl, t);
  }

  lemma ExchangeFails(s: State, ttl: int, t: TaskId)
    requires Inv(s, ttl) && Enabled(s, Raise(t)) && s.tasks[t].pc.Exchanging?
    ensures Inv(RaisedAt(s, t), ttl)
  {
    var s' := RaisedAt(s, t);
    assert TaskOk(s, ttl, t) && EntryOk(s, ttl, s.tasks[t].pc.entry);
    SettleKeepsLog(s, s', ttl, t, s.tasks[t].pc.entry, Failed);
    OnlyInsideHolds(s, t);
    HoldersStayOk(s, s', t);
    OthersStayOk(s, s', ttl, t);
  }

  lemma RaiseKeeps(s: State, ttl: int, t: TaskId)
    requires Inv(s, ttl) && Enabled(s, Raise(t)) && !s.tasks[t].pc.Exchanging?
    ensures Inv(RaisedAt(s, t), ttl)
  {
    var s' := RaisedAt(s, t);
    assert TaskOk(s, ttl, t);
    SameLogKeeps(s, s', ttl, t);
    OnlyInsideHolds(s, t);
    HoldersStayOk(s, s', t);
    OthersStayOk(s, s', ttl, t);
  }

  lemma ArriveKeeps(s: State, ttl: int, request: Request)
    requires Inv(s, ttl)
    ensures Inv(s.(tasks := s.tasks + [Task(request, Start)]), ttl)
  {
    var s' := s.(tasks := s.tasks + [Task(request, Start)]);
    forall t: TaskId | t < |s'.tasks| ensures TaskOk(s', ttl, t) {
      assert t < |s.tasks| ==> TaskOk(s, ttl, t);
    }
    forall lock | lock in s'.holders ensures HolderOk(s', lock) {
      assert HolderOk(s, lock);
    }
    forall i: nat | i < |s'.log| ensures EntryOk(s', ttl, i) {
      assert EntryOk(s, ttl, i);
    }
    forall key | key in s'.cache ensures HasSource(s', key) {
      assert HasSource(s, key);
    }
  }

  lemma TickKeeps(s: State, ttl: int, elapsed: real)
    requires Inv(s, ttl)
    ensures Inv(s.(now := s.now + elapsed), ttl)
  {
    var s' := s.(now := s.now + elapsed);
    forall t: TaskId | t < |s'.tasks| ensures TaskOk(s', ttl, t) {
      assert TaskOk(s, ttl, t);
    }
    forall lock | lock in s'.holders ensures HolderOk(s', lock) {
      assert HolderOk(s, lock);
    }
    forall i: nat | i < |s'.log| ensures EntryOk(s', ttl, i) {
      assert EntryOk(s, ttl, i);
    }
    forall key | key in s'.cache ensures HasSource(s', key) {
      assert HasSource(s, key);
    }
  }

  lemma StepKeeps(s: State, ttl: int, step: Step)
    requires Inv(s, ttl) && Enabled(s, step)
    ensures Inv(Do(s, ttl, step), ttl)
  {
    match step
    case Tick(elapsed) => TickKeeps(s, ttl, elapsed);
    case Arrive(request) => ArriveKeeps(s, ttl, request);
    case Respond(t, access, expiresIn) => RespondKeeps(s, ttl, t, access, expiresIn);
    case Raise(t) => if s.tasks[t].pc.Exchanging? { ExchangeFails(s, ttl, t); } else { RaiseKeeps(s, ttl, t); }
    case Resume(t) =>
      match s.tasks[t].pc
      case Start => StartKeeps(s, ttl, t);
      case WantLock(_) => WantLockKeeps(s, ttl, t);
      case HasLock(_) =>
        if s.Hit(s.tasks[t].request.Key(), ttl) { SecondLookHitKeeps(s, ttl, t); } else { BeginKeeps(s, ttl, t); }
      case WantGlobal => WantGlobalKeeps(s, ttl, t);
      case HasGlobal => HasGlobalKeeps(s, ttl, t);
      case _ =>
  }

  // ------------------------------------------------------------------
  // Every run
  // ------------------------------------------------------------------

  /** The state after some steps, if each is enabled where it is taken. */
  function Run(steps: seq<Step>, ttl: int): Option<State> {
    if steps == [] then Some(START)
    else
      var before, last := Run(steps[..|steps| - 1], ttl), steps[|steps| - 1];
      if before.Some? && Enabled(before.value, last) then Some(Do(before.value, ttl, last)) else None
  }

  predicate Runs(steps: seq<Step>, ttl: int, s: State) {
    Run(steps, ttl) == Some(s)
  }

  lemma {:induction false} RunsKeep(steps: seq<Step>, ttl: int, s: State)
    requires Runs(steps, ttl, s)
    ensures Inv(s, ttl)
  {
    if steps == [] {
    } else {
      var front, last := steps[..|steps| - 1], steps[|steps| - 1];
      var before := Run(front, ttl).value;
      RunsKeep(front, ttl, before);
      StepKeeps(before, ttl, last);
    }
  }

  /** In every run, at most one exchange per cache key is in flight. */
  lemma SingleFlight(steps: seq<Step>, ttl: int, s: State, i: nat, j: nat)
    requires Runs(steps, ttl, s) && i < |s.log| && j < |s.log|
    requires s.log[i].outcome.Pending? && s.log[j].outcome.Pending? && s.log[i].Key() == s.log[j].Key()
    ensures i == j
  {
    RunsKeep(steps, ttl, s);
    assert EntryOk(s, ttl, i) && EntryOk(s, ttl, j);
  }

  /**
   Two exchanges for one key, with none between: the first failed, or the second found the token the first stored, which
   by then had at most `ttl` seconds of its life left.
   */
  lemma ExchangesAreAccountedFor(steps: seq<Step>, ttl: int, s: State, i: nat, j: nat)
    requires Runs(steps, ttl, s) && Consecutive(s.log, i, j)
    ensures var first, second := s.log[i], s.log[j];
            || first.outcome.Failed?
            || (first.outcome.Stored?
                && var token := first.outcome.token;
                   && second.seen == Some(token)
                   && second.began - token.issuedAt >= (token.expiresIn - ttl) as real)
  {
    RunsKeep(steps, ttl, s);
  }

  /** Entry `i` is an exchange of the same subject, audience and scopes (in some order) that stored `token`. */
  ghost predicate Supplied(log: seq<Exchange>, i: nat, request: Request, token: Token) {
    && i < |log| && log[i].outcome == Stored(token)
    && log[i].request.subjectId == request.subjectId && log[i].request.audience == request.audience
    && multiset(log[i].request.scopes) == multiset(request.scopes)
  }

  lemma TokenIsForItsRequest(s: State, ttl: int, t: TaskId)
    requires Inv(s, ttl) && t < |s.tasks| && s.tasks[t].pc.Returned?
    ensures var pc := s.tasks[t].pc;
            exists i: nat :: Supplied(s.log, i, s.tasks[t].request, pc.token)
                             && (s.log[i].task == t || pc.at - pc.token.issuedAt < (pc.token.expiresIn - ttl) as real)
  {
    assert TaskOk(s, ttl, t);
    var request, pc := s.tasks[t].request, s.tasks[t].pc;
    var i: nat :| Justifies(s.log, i, t, request.Key(), pc.token, pc.at, ttl);
    var own := s.log[i].request;
    KeysAgreeUpToScopeOrder(own.subjectId, own.audience, own.scopes, request.subjectId, request.audience, request.scopes);
    assert Supplied(s.log, i, request, pc.token);
  }

  /**
   In every run, a returned token came from an exchange for the same subject, audience and scopes: the task's own, or
   one whose token had more than `ttl` seconds of its life left when the task looked.
   */
  lemma ReturnedTokensAreForTheirRequest(steps: seq<Step>, ttl: int, s: State, t: TaskId)
    requires Runs(steps, ttl, s) && t < |s.tasks| && s.tasks[t].pc.Returned?
    ensures var pc := s.tasks[t].pc;
            exists i: nat :: Supplied(s.log, i, s.tasks[t].request, pc.token)
                             && (s.log[i].task == t || pc.at - pc.token.issuedAt < (pc.token.expiresIn - ttl) as real)
  {
    RunsKeep(steps, ttl, s);
    TokenIsForItsRequest(s, ttl, t);
  }

  /** The clock of a run: the time its ticks add up to. */
  function Elapsed(steps: seq<Step>): real {
    if steps == [] then 0.0
    else Elapsed(steps[..|steps| - 1]) + (if steps[|steps| - 1].Tick? then steps[|steps| - 1].elapsed else 0.0)
  }

  lemma {:induction false} ClockIsElapsed(steps: seq<Step>, ttl: int, s: State)
    requires Runs(steps, ttl, s)
    ensures s.now == Elapsed(steps)
  {
    if steps == [] {
    } else {
      var front, last := steps[..|steps| - 1], steps[|steps| - 1];
      ClockIsElapsed(front, ttl, Run(front, ttl).value);
      assert last.Tick? || Do(Run(front, ttl).value, ttl, last).now == Run(front, ttl).value.now;
    }
  }

  /** An answer is stored under the task's key, stamped with the moment it arrived, and returned at that moment. */
  lemma AnswersAreStampedOnArrival(steps: seq<Step>, ttl: int, before: State, t: TaskId, access: string, expiresIn: int)
    requires Runs(steps, ttl, before) && Enabled(before, Respond(t, access, expiresIn))
    ensures var s, token := Do(before, ttl, Respond(t, access, expiresIn)), Token(access, expiresIn, Elapsed(steps));
            && s.tasks[t].pc == Returned(token, Elapsed(steps))
            && s.Cached(before.tasks[t].request.Key()) == Some(token)
            && exists i: nat :: i < |s.log| && s.log[i].task == t && s.log[i].outcome == Stored(token)
  {
    ClockIsElapsed(steps, ttl, before);
    RunsKeep(steps, ttl, before);
    assert TaskOk(before, ttl, t);
    var entry, s := before.tasks[t].pc.entry, Do(before, ttl, Respond(t, access, expiresIn));
    assert s.log[entry].task == t && s.log[entry].outcome == Stored(Token(access, expiresIn, before.now));
  }

  /**
   A look finds its key's token with more than `ttl` seconds of its life left: it is returned at once, without a request
   and without a lock. Otherwise the first look goes for the locks, and the second sends the task's own request.
   */
  lemma LooksUseFreshTokens(s: State, ttl: int, t: TaskId)
    requires Enabled(s, Resume(t)) && (s.tasks[t].pc.Start? || s.tasks[t].pc.HasLock?)
    ensures var s', task := Do(s, ttl, Resume(t)), s.tasks[t];
            var key := task.request.Key();
            var young := key in s.cache && s.now - s.cache[key].issuedAt < (s.cache[key].expiresIn - ttl) as real;
            && s'.cache == s.cache && s'.globalHolder == s.globalHolder
            && (young ==> s'.tasks[t].pc == Returned(s.cache[key], s.now) && s'.log == s.log
                          && s'.holders == if task.pc.HasLock? then s.holders - {task.pc.lock} else s.holders)
            && (!young && task.pc.Start? ==> s'.tasks[t].pc == WantGlobal && s'.log == s.log && s'.holders == s.holders)
            && (!young && task.pc.HasLock? ==>
                  && s'.tasks[t].pc == Exchanging(task.pc.lock, |s.log|) && s'.holders == s.holders
                  && s'.log == s.log + [Exchange(task.request, t, s.now, s.Cached(key), Pending)])
  {
  }

  /** Every entry of the log carries the request of the task that made it. */
  ghost predicate LogNamesRequests(s: State) {
    forall i: nat :: i < |s.log| ==> s.log[i].task < |s.tasks| && s.log[i].request == s.tasks[s.log[i].task].request
  }

  lemma ResumeNamesRequests(s: State, ttl: int, t: TaskId)
    requires LogNamesRequests(s) && Enabled(s, Resume(t))
    ensures LogNamesRequests(Resumed(s, ttl, t))
  {
  }

  lemma StepNamesRequests(s: State, ttl: int, step: Step)
    requires LogNamesRequests(s) && Enabled(s, step)
    ensures LogNamesRequests(Do(s, ttl, step))
  {
    if step.Resume? {
      ResumeNamesRequests(s, ttl, step.t);
    }
  }

  /**
   In every run, what is sent to the token endpoint is what the task was asked for: subject token, audience and scopes.
   */
  lemma {:induction false} ExchangesSendTheirTasksRequest(steps: seq<Step>, ttl: int, s: State)
    requires Runs(steps, ttl, s)
    ensures LogNamesRequests(s)
  {
    if steps == [] {
    } else {
      var front, last := steps[..|steps| - 1], steps[|steps| - 1];
      ExchangesSendTheirTasksRequest(front, ttl, Run(front, ttl).value);
      StepNamesRequests(Run(front, ttl).value, ttl, last);
    }
  }

  /** Tasks keep their requests, finished exchanges their outcomes, keys their locks. */
  ghost predicate Remembers(s: State, s': State) {
    && |s'.tasks| >= |s.tasks| && (forall t: TaskId :: t < |s.tasks| ==> s'.tasks[t].request == s.tasks[t].request)
    && |s'.log| >= |s.log| && (forall i: nat :: i < |s.log| && s.log[i].outcome.Stored? ==> s'.log[i] == s.log[i])
    && (forall key :: key in s.locks ==> key in s'.locks && s'.locks[key] == s.locks[key])
  }

  lemma ResumeRemembers(s: State, ttl: int, t: TaskId)
    requires Enabled(s, Resume(t))
    ensures Remembers(s, Resumed(s, ttl, t))
  {
  }

  lemma HistoryStays(s: State, ttl: int, step: Step)
    requires Inv(s, ttl) && Enabled(s, step)
    ensures Remembers(s, Do(s, ttl, step))
  {
    if step.Resume? {
      ResumeRemembers(s, ttl, step.t);
    } else if step.Respond? || step.Raise? {
      assert TaskOk(s, ttl, step.t);
    }
  }

  /** Once created, the lock of a key is the same in the rest of the run. */
  lemma {:induction false} LocksNeverChange(steps: seq<Step>, ttl: int, n: nat, key: CacheKey)
    requires Run(steps, ttl).Some? && n <= |steps|
    ensures Run(steps[..n], ttl).Some?
    ensures var before, after := Run(steps[..n], ttl).value.locks, Run(steps, ttl).value.locks;
            key in before ==> key in after && after[key] == before[key]
  {
    if n == |steps| {
      assert steps[..n] == steps;
    } else {
      var front := steps[..|steps| - 1];
      LocksNeverChange(front, ttl, n, key);
      assert front[..n] == steps[..n];
      RunsKeep(front, ttl, Run(front, ttl).value);
      HistoryStays(Run(front, ttl).value, ttl, steps[|steps| - 1]);
    }
  }

  lemma SomeTaskCanMoveIn(s: State, ttl: int, t: TaskId)
    requires Inv(s, ttl) && t < |s.tasks| && s.tasks[t].Live()
    ensures exists u: TaskId :: Enabled(s, Resume(u)) || Enabled(s, Respond(u, "token", 0))
  {
    assert TaskOk(s, ttl, t);
    var pc := s.tasks[t].pc;
    if pc.Exchanging? {
      InsideCanMove(s, ttl, t);
    } else if pc.WantGlobal? && s.globalHolder.Some? {
      assert Enabled(s, Resume(s.globalHolder.value));
    } else if pc.WantLock? && pc.lock in s.holders {
      assert HolderOk(s, pc.lock);
      InsideCanMove(s, ttl, s.holders[pc.lock]);
    } else {
      assert Enabled(s, Resume(t));
    }
  }

  /** While a task is live, some task can take a step that is neither a failure nor the clock: there is no deadlock. */
  lemma SomeTaskCanMove(steps: seq<Step>, ttl: int, s: State, t: TaskId)
    requires Runs(steps, ttl, s) && t < |s.tasks| && s.tasks[t].Live()
    ensures exists u: TaskId :: Enabled(s, Resume(u)) || Enabled(s, Respond(u, "token", 0))
  {
    RunsKeep(steps, ttl, s);
    SomeTaskCanMoveIn(s, ttl, t);
  }

  lemma InsideCanMove(s: State, ttl: int, u: TaskId)
    requires Inv(s, ttl) && u < |s.tasks| && (s.tasks[u].pc.HasLock? || s.tasks[u].pc.Exchanging?)
    ensures Enabled(s, Resume(u)) || Enabled(s, Respond(u, "token", 0))
  {
    assert TaskOk(s, ttl, u);
  }

  /** Steps a task still has ahead of it, at most. */
  function Rank(pc: Pc): nat {
    match pc
    case Start => 6
    case WantGlobal => 5
    case HasGlobal => 4
    case WantLock(_) => 3
    case HasLock(_) => 2
    case Exchanging(_, _) => 1
    case Returned(_, _) => 0
    case Raised => 0
  }

  function Work(tasks: seq<Task>): nat {
    if tasks == [] then 0 else Work(tasks[..|tasks| - 1]) + Rank(tasks[|tasks| - 1].pc)
  }

  lemma {:induction false} WorkOfUpdate(tasks: seq<Task>, t: TaskId, pc: Pc)
    requires t < |tasks|
    ensures Work(tasks[t := tasks[t].(pc := pc)]) == Work(tasks) - Rank(tasks[t].pc) + Rank(pc)
  {
    var n, after := |tasks| - 1, tasks[t := tasks[t].(pc := pc)];
    if t == n {
      assert after[..n] == tasks[..n];
    } else {
      assert after[..n] == tasks[..n][t := tasks[t].(pc := pc)];
      WorkOfUpdate(tasks[..n], t, pc);
    }
  }

  lemma ResumeIsOneMove(s: State, ttl: int, t: TaskId)
    requires Enabled(s, Resume(t))
    ensures exists pc :: Resumed(s, ttl, t).tasks == s.At(t, pc) && Rank(pc) < Rank(s.tasks[t].pc)
  {
    var after := Resumed(s, ttl, t).tasks;
    assert after == s.At(t, after[t].pc);
  }

  /** Apart from arrivals and the clock, every step uses up work, so no run spins. */
  lemma StepsUseUpWork(s: State, ttl: int, step: Step)
    requires Enabled(s, step) && !step.Tick? && !step.Arrive?
    ensures Work(Do(s, ttl, step).tasks) < Work(s.tasks)
  {
    if step.Resume? {
      ResumeIsOneMove(s, ttl, step.t);
      var pc :| Resumed(s, ttl, step.t).tasks == s.At(step.t, pc) && Rank(pc) < Rank(s.tasks[step.t].pc);
      WorkOfUpdate(s.tasks, step.t, pc);
    } else {
      WorkOfUpdate(s.tasks, step.t, if step.Raise? then Raised else Returned(Token(step.access, step.expiresIn, s.now), s.now));
    }
  }

  /** A request alone: five steps, an answer, and its token. */
  ghost predicate Alone(ttl: int, request: Request, o: seq<State>) {
    && |o| == 7 && o[0] == Do(START, ttl, Arrive(request))
    && (forall k: nat :: k < 5 ==> Enabled(o[k], Resume(0)) && o[k + 1] == Do(o[k], ttl, Resume(0)))
    && Enabled(o[5], Respond(0, "token", 0)) && o[6] == Do(o[5], ttl, Respond(0, "token", 0))
    && |o[6].tasks| == 1 && o[6].tasks[0].pc.Returned?
  }

  lemma LoneRequestReturns(ttl: int, request: Request) returns (o: seq<State>)
    ensures Alone(ttl, request, o)
  {
    var o0 := Do(START, ttl, Arrive(request));
    var o1 := Do(o0, ttl, Resume(0));
    var o2 := Do(o1, ttl, Resume(0));
    var o3 := Do(o2, ttl, Resume(0));
    var o4 := Do(o3, ttl, Resume(0));
    var o5 := Do(o4, ttl, Resume(0));
    o := [o0, o1, o2, o3, o4, o5, Do(o5, ttl, Respond(0, "token", 0))];
  }
}
