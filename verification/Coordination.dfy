/**
 Redis coordination: a lock is a key holding its owner's token until it expires, a semaphore is a counter that
 expires. Time passes, holders disappear, and old handles may be replayed at any moment.
 */
module Coordination {
  import opened Outcomes

  datatype LockEntry = LockEntry(token: string, expiresAt: int)

  datatype SlotEntry = SlotEntry(count: int, expiresAt: int)

  /** Times are in milliseconds. */
  datatype Store = Store(now: int, locks: map<string, LockEntry>, slots: map<string, SlotEntry>)

  /** A key past its expiry time reads as absent. */
  function LockAt(s: Store, key: string): Option<LockEntry> {
    if key in s.locks && s.now < s.locks[key].expiresAt then Some(s.locks[key]) else None
  }

  function CountAt(s: Store, key: string): int {
    if key in s.slots && s.now < s.slots[key].expiresAt then s.slots[key].count else 0
  }

  // ---------------------------------------------------------------- the scripts

  /** `SET key token NX PX ttl`; the server refuses a non-positive expiry. */
  function Acquired(s: Store, key: string, token: string, ttlMs: int): Option<Store> {
    if ttlMs > 0 && LockAt(s, key).None?
        then Some(s.(locks := s.locks[key := LockEntry(token, s.now + ttlMs)])) else None
  }

  predicate Owns(s: Store, key: string, token: string) {
    LockAt(s, key).Some? && LockAt(s, key).value.token == token
  }

  function ReleasedLock(s: Store, key: string, token: string): Store {
    if Owns(s, key, token) then s.(locks := s.locks - {key}) else s
  }

  /** `PEXPIRE` with a non-positive time deletes the key. */
  function Extended(s: Store, key: string, token: string, ttlMs: int): Store {
    if !Owns(s, key, token) then s
    else if ttlMs <= 0 then s.(locks := s.locks - {key})
    else s.(locks := s.locks[key := LockEntry(token, s.now + ttlMs)])
  }

  /** Increment and refresh the expiry, unless the counter is at the limit; `EXPIRE` with no time left drops the key. */
  function SlotAcquired(s: Store, key: string, limit: int, ttl: int): Option<Store> {
    var current := CountAt(s, key);
    if current >= limit then None
    else if ttl <= 0 then Some(s.(slots := s.slots - {key}))
    else Some(s.(slots := s.slots[key := SlotEntry(current + 1, s.now + ttl)]))
  }

  function SlotReleased(s: Store, key: string): Store {
    var current := CountAt(s, key);
    if current <= 0 then s else s.(slots := s.slots[key := s.slots[key].(count := current - 1)])
  }

  // ---------------------------------------------------------------- locks over whole runs

  /** What the holder of a handle may believe: the lock is its own until then. A released handle believes nothing. */
  datatype Handle = Handle(key: string, believedUntil: int)

  datatype LockEvent =
    | Wait(elapsed: nat)
    | Acquire(key: string, token: string, ttlMs: int)
    | Release(token: string)
    | Extend(token: string, ttlMs: int)

  datatype LockSystem = LockSystem(store: Store, handles: map<string, Handle>)

  /** Tokens are drawn fresh; handles are kept for ever, so any of them can be replayed at any later time. */
  function LockStep(s: LockSystem, e: LockEvent): LockSystem {
    match e
    case Wait(d) => s.(store := s.store.(now := s.store.now + d))
    case Acquire(key, token, ttlMs) =>
      if token in s.handles then s
      else
        (match Acquired(s.store, key, token, ttlMs)
         case None => s
         case Some(store) => LockSystem(store, s.handles[token := Handle(key, s.store.now + ttlMs)]))
    case Release(token) =>
      if token !in s.handles then s
      else
        var h := s.handles[token];
        LockSystem(ReleasedLock(s.store, h.key, token), s.handles[token := h.(believedUntil := s.store.now)])
    case Extend(token, ttlMs) =>
      if token !in s.handles then s
      else
        var h := s.handles[token];
        LockSystem(Extended(s.store, h.key, token, ttlMs),
                   if Owns(s.store, h.key, token)
                   then s.handles[token := h.(believedUntil := s.store.now + (if ttlMs > 0 then ttlMs else 0))]
                   else s.handles)
  }

  function LockRun(events: seq<LockEvent>): LockSystem {
    if events == [] then LockSystem(Store(0, map[], map[]), map[])
    else LockStep(LockRun(events[..|events| - 1]), events[|events| - 1])
  }

  ghost predicate Believes(s: LockSystem, token: string) {
    token in s.handles && s.store.now < s.handles[token].believedUntil
  }

  /** Belief and the stored key agree, token by token. */
  ghost predicate LockInv(s: LockSystem) {
    BeliefsHold(s) && EntriesOwned(s)
  }

  /** A holder that believes its lock live does hold it, until exactly the instant it believes. */
  ghost predicate BeliefsHold(s: LockSystem) {
    forall t :: t in s.handles && s.store.now < s.handles[t].believedUntil ==>
      LockAt(s.store, s.handles[t].key) == Some(LockEntry(t, s.handles[t].believedUntil))
  }

  /** Every live key belongs to a handed-out token that believes the same expiry. */
  ghost predicate EntriesOwned(s: LockSystem) {
    forall k :: LockAt(s.store, k).Some? ==>
      var t := LockAt(s.store, k).value.token;
      t in s.handles && s.handles[t] == Handle(k, LockAt(s.store, k).value.expiresAt)
  }

  lemma LockStepKeepsBeliefs(s: LockSystem, e: LockEvent)
    requires BeliefsHold(s) && EntriesOwned(s)
    ensures BeliefsHold(LockStep(s, e))
  {
  }

  lemma LockStepKeepsEntries(s: LockSystem, e: LockEvent)
    requires BeliefsHold(s) && EntriesOwned(s)
    ensures EntriesOwned(LockStep(s, e))
  {
    var t := LockStep(s, e);
    forall k | LockAt(t.store, k).Some?
      ensures var owner := LockAt(t.store, k).value.token;
              owner in t.handles && t.handles[owner] == Handle(k, LockAt(t.store, k).value.expiresAt)
    {
      if LockAt(s.store, k) == LockAt(t.store, k) {
        assert s.handles[LockAt(s.store, k).value.token].key == k;
      }
    }
  }

  lemma LockStepKeepsInv(s: LockSystem, e: LockEvent)
    requires LockInv(s)
    ensures LockInv(LockStep(s, e))
  {
    LockStepKeepsBeliefs(s, e);
    LockStepKeepsEntries(s, e);
  }

  lemma {:induction false} LockRunInv(events: seq<LockEvent>)
    ensures LockInv(LockRun(events))
  {
    if events != [] {
      LockRunInv(events[..|events| - 1]);
      LockStepKeepsInv(LockRun(events[..|events| - 1]), events[|events| - 1]);
    }
  }

  /**
   Mutual exclusion from the holders' side: at no moment of any run do two handles on one lock both believe they hold
   it, and the one that does is the stored owner.
   */
  lemma AtMostOneOwner(events: seq<LockEvent>, t: string, u: string)
    requires Believes(LockRun(events), t)
    ensures var s := LockRun(events); Owns(s.store, s.handles[t].key, t)
    ensures var s := LockRun(events);
            Believes(s, u) && s.handles[u].key == s.handles[t].key ==> u == t
  {
    LockRunInv(events);
  }

  /** A handle past its time, replayed however much later, moves no key: release and extend both report nothing done. */
  lemma StaleHandleIsHarmless(events: seq<LockEvent>, t: string, ttlMs: int)
    requires t in LockRun(events).handles && !Believes(LockRun(events), t)
    ensures var s := LockRun(events);
            && !Owns(s.store, s.handles[t].key, t)
            && LockStep(s, Release(t)).store == s.store
            && LockStep(s, Extend(t, ttlMs)) == s
  {
    LockRunInv(events);
  }

  // ---------------------------------------------------------------- slots over whole runs

  datatype SlotEvent = Pass(elapsed: nat) | Take(ttl: int) | Give

  /**
   One semaphore with a fixed limit. `out` counts slots taken and not given back, crashed holders included; `dropped`
   is how many counted slots have ever vanished with an expiring key, and `unmatched` how many of those are still out.
   */
  datatype SlotSystem = SlotSystem(store: Store, out: int, dropped: int, unmatched: int)

  const SEM := "sem"

  function SlotStep(s: SlotSystem, limit: int, e: SlotEvent): SlotSystem {
    match e
    case Pass(d) =>
      var store := s.store.(now := s.store.now + d);
      var lost := CountAt(s.store, SEM) - CountAt(store, SEM);
      SlotSystem(store, s.out, s.dropped + lost, s.unmatched + lost)
    case Take(ttl) =>
      (match SlotAcquired(s.store, SEM, limit, ttl)
       case None => s
       case Some(store) =>
         var lost := CountAt(s.store, SEM) + 1 - CountAt(store, SEM);
         SlotSystem(store, s.out + 1, s.dropped + lost, s.unmatched + lost))
    case Give =>
      if s.out <= 0 then s  // only a holder gives a slot back, and only once
      else
        var store := SlotReleased(s.store, SEM);
        SlotSystem(store, s.out - 1, s.dropped, if CountAt(s.store, SEM) <= 0 then s.unmatched - 1 else s.unmatched)
  }

  function SlotRun(limit: int, events: seq<SlotEvent>): SlotSystem {
    if events == [] then SlotSystem(Store(0, map[], map[]), 0, 0, 0)
    else SlotStep(SlotRun(limit, events[..|events| - 1]), limit, events[|events| - 1])
  }

  ghost predicate SlotInv(s: SlotSystem, limit: int) {
    var count := CountAt(s.store, SEM);
    && 0 <= count && (count > 0 ==> count <= limit)
    && (SEM in s.store.slots ==> s.store.slots[SEM].count >= 0)
    && s.out == count + s.unmatched
    && 0 <= s.unmatched <= s.dropped
  }

  lemma {:induction false} SlotRunInv(limit: int, events: seq<SlotEvent>)
    ensures SlotInv(SlotRun(limit, events), limit)
  {
    if events != [] {
      SlotRunInv(limit, events[..|events| - 1]);
    }
  }

  /**
   The counter stays between zero and the limit, and the slots still out exceed it by exactly those that expiry has
   dropped from the count and nobody has yet given back. So without an expiry at most `limit` slots are ever out.
   */
  lemma SlotTheorem(limit: int, events: seq<SlotEvent>)
    requires limit >= 0
    ensures var s := SlotRun(limit, events);
            && 0 <= CountAt(s.store, SEM) <= limit
            && s.out == CountAt(s.store, SEM) + s.unmatched
            && 0 <= s.unmatched <= s.dropped
            && (s.dropped == 0 ==> s.out == CountAt(s.store, SEM) && s.out <= limit)
  {
    SlotRunInv(limit, events);
  }

  /**
   A slot is handed out past the limit exactly when the counter has room and dropped slots still out fill that room.
   */
  lemma TakeOverAdmitsIff(limit: int, events: seq<SlotEvent>, ttl: int)
    requires limit >= 0
    ensures var s := SlotRun(limit, events);
            var t := SlotStep(s, limit, Take(ttl));
            t.out > s.out && t.out > limit <==>
            CountAt(s.store, SEM) < limit && s.unmatched >= limit - CountAt(s.store, SEM)
  {
    SlotRunInv(limit, events);
  }

  function Takes(n: nat, ttl: int): seq<SlotEvent> {
    seq(n, _ => Take(ttl))
  }

  lemma {:induction false} Filled(limit: int, n: nat, ttl: int)
    requires n <= limit && ttl >= 1
    ensures SlotRun(limit, Takes(n, ttl))
         == SlotSystem(Store(0, map[], if n == 0 then map[] else map[SEM := SlotEntry(n, ttl)]), n, 0, 0)
  {
    if n > 0 {
      assert Takes(n, ttl)[..n - 1] == Takes(n - 1, ttl);
      Filled(limit, n - 1, ttl);
    }
  }

  lemma SlotRunSnoc(limit: int, events: seq<SlotEvent>, e: SlotEvent)
    ensures SlotRun(limit, events + [e]) == SlotStep(SlotRun(limit, events), limit, e)
  {
    assert (events + [e])[..|events|] == events;
  }

  /** For every limit it happens: fill the semaphore, let its key expire, and one more slot is handed out. */
  lemma ExpiryOverAdmits(limit: nat, ttl: nat)
    requires limit >= 1 && ttl >= 1
    ensures var s := SlotRun(limit, Takes(limit, ttl) + [Pass(ttl)] + [Take(ttl)]);
            s.out == limit + 1 && s.dropped == limit && CountAt(s.store, SEM) == 1
  {
    Filled(limit, limit, ttl);
    SlotRunSnoc(limit, Takes(limit, ttl), Pass(ttl));
    SlotRunSnoc(limit, Takes(limit, ttl) + [Pass(ttl)], Take(ttl));
  }

  // ---------------------------------------------------------------- the coordinator as mutable state

  datatype LockHandle = LockHandle(key: string, token: string, ttlSeconds: real)

  /** `int(x)`: the fraction is dropped, towards zero. */
  function Truncated(x: real): int {
    if x >= 0.0 then x.Floor else -((-x).Floor)
  }

  function Milliseconds(seconds: real): int {
    Truncated(seconds * 1000.0)
  }

  function Later(s: Store, elapsed: nat): Store {
    s.(now := s.now + elapsed)
  }

  /** A whole number of milliseconds fits a truncated length of time exactly when it fits the length itself. */
  lemma FitsTruncated(elapsed: nat, x: real)
    ensures elapsed < Truncated(x) <==> (elapsed + 1) as real <= x
  {
  }

  /** A lock is granted exactly when it is free and asked for at least a millisecond. */
  lemma LockGrantedIff(s: Store, key: string, token: string, seconds: real)
    ensures Acquired(s, key, token, Milliseconds(seconds)).Some? <==>
            1000.0 * seconds >= 1.0 && (key in s.locks ==> s.now >= s.locks[key].expiresAt)
  {
    FitsTruncated(0, seconds * 1000.0);
  }

  /**
   A lock taken for some seconds is its owner's at every whole millisecond whose successor still fits into them, and
   from then on free; no other key is touched.
   */
  lemma LockLasts(s: Store, key: string, token: string, seconds: real, elapsed: nat)
    requires Acquired(s, key, token, Milliseconds(seconds)).Some?
    ensures var t := Later(Acquired(s, key, token, Milliseconds(seconds)).value, elapsed);
            && (Owns(t, key, token) <==> elapsed as real <= 1000.0 * seconds - 1.0)
            && (LockAt(t, key).None? <==> elapsed as real > 1000.0 * seconds - 1.0)
            && forall k :: k != key ==> LockAt(t, k) == LockAt(Later(s, elapsed), k)
  {
    FitsTruncated(elapsed, seconds * 1000.0);
  }

  /** And the same of a lock extended by its owner, counted from the extension. */
  lemma ExtensionLasts(s: Store, key: string, token: string, seconds: real, elapsed: nat)
    requires Owns(s, key, token)
    ensures var t := Later(Extended(s, key, token, Milliseconds(seconds)), elapsed);
            && (Owns(t, key, token) <==> elapsed as real <= 1000.0 * seconds - 1.0)
            && (LockAt(t, key).None? <==> elapsed as real > 1000.0 * seconds - 1.0)
            && forall k :: k != key ==> LockAt(t, k) == LockAt(Later(s, elapsed), k)
  {
    FitsTruncated(elapsed, seconds * 1000.0);
    FitsTruncated(0, seconds * 1000.0);
  }

  /** A release frees the owner's lock at once, and nobody else's. */
  lemma ReleaseFrees(s: Store, key: string, token: string, k: string)
    ensures LockAt(ReleasedLock(s, key, token), k)
         == if k == key && Owns(s, key, token) then None else LockAt(s, k)
  {
  }

  function WholeSeconds(seconds: real): int {
    Truncated(seconds) * 1000
  }

  /**
   A slot taken counts, with those before it, for as many whole seconds as were asked for; less than one second keeps
   nothing.
   */
  lemma SlotLasts(s: Store, key: string, limit: int, seconds: real, elapsed: nat)
    requires SlotAcquired(s, key, limit, WholeSeconds(seconds)).Some?
    ensures CountAt(s, key) < limit
    ensures var t := Later(SlotAcquired(s, key, limit, WholeSeconds(seconds)).value, elapsed);
            CountAt(t, key) == if (elapsed / 1000 + 1) as real <= seconds then CountAt(s, key) + 1 else 0
  {
    FitsTruncated(elapsed / 1000, seconds);
  }

  /** A slot given back lowers the count by one while the key lives, and neither shortens nor prolongs its life. */
  lemma SlotGivenBack(s: Store, key: string, elapsed: nat)
    ensures var before, after := CountAt(Later(s, elapsed), key), CountAt(Later(SlotReleased(s, key), elapsed), key);
            after == if before > 0 then before - 1 else before
  {
  }

  class Coordinator {
    var now: int
    var locks: map<string, LockEntry>
    var slots: map<string, SlotEntry>

    constructor ()
      ensures Value() == Store(0, map[], map[])
    {
      now, locks, slots := 0, map[], map[];
    }

    function Value(): Store
      reads this
    {
      Store(now, locks, slots)
    }

    method AcquireLock(key: string, token: string, ttlSeconds: real) returns (handle: Option<LockHandle>)
      modifies this
      ensures match Acquired(old(Value()), key, token, Milliseconds(ttlSeconds))
              case Some(s) => Value() == s && handle == Some(LockHandle(key, token, ttlSeconds))
              case None => Value() == old(Value()) && handle == None
    {
      var ttlMs := Milliseconds(ttlSeconds);
      if ttlMs <= 0 || (key in locks && now < locks[key].expiresAt) {
        return None;
      }
      locks := locks[key := LockEntry(token, now + ttlMs)];
      handle := Some(LockHandle(key, token, ttlSeconds));
    }

    method ReleaseLock(handle: LockHandle) returns (released: bool)
      modifies this
      ensures Value() == ReleasedLock(old(Value()), handle.key, handle.token)
      ensures released == old(Owns(Value(), handle.key, handle.token))
    {
      released := IsLive(handle.key) && locks[handle.key].token == handle.token;
      if released {
        locks := locks - {handle.key};
      }
    }

    predicate IsLive(key: string)
      reads this
    {
      key in locks && now < locks[key].expiresAt
    }

    /** A zero ttl falls back to the handle's own; any other that is no whole millisecond deletes the key. */
    method ExtendLock(handle: LockHandle, ttlSeconds: Option<real>) returns (extended: bool)
      modifies this
      ensures var ttl := if ttlSeconds.Some? && ttlSeconds.value != 0.0 then ttlSeconds.value else handle.ttlSeconds;
              Value() == Extended(old(Value()), handle.key, handle.token, Milliseconds(ttl))
      ensures extended == old(Owns(Value(), handle.key, handle.token))
      ensures extended && ttlSeconds.Some? && 0.0 < ttlSeconds.value < 0.001 ==> LockAt(Value(), handle.key) == None
    {
      var ttl := if ttlSeconds.Some? && ttlSeconds.value != 0.0 then ttlSeconds.value else handle.ttlSeconds;
      var ttlMs := Milliseconds(ttl);
      extended := IsLive(handle.key) && locks[handle.key].token == handle.token;
      if extended {
        if ttlMs <= 0 {
          locks := locks - {handle.key};
        } else {
          locks := locks[handle.key := LockEntry(handle.token, now + ttlMs)];
        }
      }
    }

    /** Slots expire by whole seconds. */
    method AcquireSlot(key: string, limit: int, ttlSeconds: real) returns (acquired: bool)
      modifies this
      ensures match SlotAcquired(old(Value()), key, limit, WholeSeconds(ttlSeconds))
              case Some(s) => acquired && Value() == s
              case None => !acquired && Value() == old(Value())
    {
      var current := if key in slots && now < slots[key].expiresAt then slots[key].count else 0;
      if current >= limit {
        return false;
      }
      var ttl := Truncated(ttlSeconds) * 1000;
      slots := if ttl <= 0 then slots - {key} else slots[key := SlotEntry(current + 1, now + ttl)];
      acquired := true;
    }

    method ReleaseSlot(key: string) returns (remaining: int)
      modifies this
      ensures Value() == SlotReleased(old(Value()), key)
      ensures remaining == if CountAt(old(Value()), key) <= 0 then 0 else CountAt(Value(), key)
    {
      var current := if key in slots && now < slots[key].expiresAt then slots[key].count else 0;
      if current <= 0 {
        return 0;
      }
      slots := slots[key := slots[key].(count := current - 1)];
      remaining := current - 1;
    }
  }
}
