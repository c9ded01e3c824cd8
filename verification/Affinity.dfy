// The session affinity cache: bindings with a sliding time to live, retained
// a while after they expire, and swept opportunistically.
module Affinity {
  import opened Wrappers

  const GC_EVERY: nat := 1024
  const MAX_DURATION: nat := 0xFFFF_FFFF_FFFF_FFFF * 1_000_000_000 + 999_999_999

  datatype Lookup<V> = Hit(value: V) | Expired | Unknown

  datatype Entry<V> = Entry(value: V, stampedAt: nat)

  // `retained` is measured from the last touch, like `ttl`.
  datatype Settings = Settings(ttl: nat, retained: nat)

  function Max(a: nat, b: nat): nat {
    if a >= b then a else b
  }

  function SaturatingAdd(a: nat, b: nat): nat {
    if a + b <= MAX_DURATION then a + b else MAX_DURATION
  }

  function Minus(a: nat, b: nat): nat {
    if a >= b then a - b else 0
  }

  // Legacy configuration gives an absolute retention; a policy plan gives the
  // retention that follows the time to live.
  function LegacySettings(ttl: nat, absolute: nat): Settings {
    Settings(ttl, Max(ttl, absolute))
  }

  function PlanSettings(ttl: nat, expired: nat): Settings {
    Settings(ttl, Max(ttl, SaturatingAdd(ttl, expired)))
  }

  function Age(e: Entry, now: nat): nat {
    Minus(now, e.stampedAt)
  }

  // What an entry answers; a stale one answers as if it were absent.
  function Answer<V>(s: Settings, e: Option<Entry<V>>, now: nat): Lookup<V> {
    match e
    case None => Unknown
    case Some(x) => if Age(x, now) < s.ttl then Hit(x.value) else if Age(x, now) < s.retained then Expired else Unknown
  }

  function Find<V>(entries: map<string, Entry<V>>, key: string): Option<Entry<V>> {
    if key in entries then Some(entries[key]) else None
  }

  // A binding is live for `ttl` after it was recorded, known until `retained`.
  lemma AnswerByAge<V>(s: Settings, e: Entry<V>, now: nat)
    ensures Answer(s, Some(e), now).Hit? <==> s.ttl > 0 && now < e.stampedAt + s.ttl
    ensures Answer(s, Some(e), now).Hit? ==> Answer(s, Some(e), now).value == e.value
    ensures Answer(s, Some(e), now).Unknown? <==>
              s.ttl <= (if now > e.stampedAt then now - e.stampedAt else 0) && s.retained <= (if now > e.stampedAt then now - e.stampedAt else 0)
    ensures Answer<V>(s, None, now) == Unknown
  {
  }

  // ---- The cache ----

  datatype Cache<V> = Cache(entries: map<string, Entry<V>>, ops: nat)

  function Purged<V>(s: Settings, entries: map<string, Entry<V>>, now: nat): map<string, Entry<V>> {
    map k | k in entries && Age(entries[k], now) < s.retained :: entries[k]
  }

  // One caller on its own sweeps at every 1024th operation.
  function Swept<V>(s: Settings, c: Cache<V>, now: nat): Cache<V> {
    if c.ops + 1 < GC_EVERY then c.(ops := c.ops + 1) else Cache(Purged(s, c.entries, now), 0)
  }

  // The second section of a lookup forgets an entry that is stale by then.
  function Without<V>(s: Settings, entries: map<string, Entry<V>>, key: string, now: nat): map<string, Entry<V>> {
    if key in entries && Age(entries[key], now) >= s.ttl && Age(entries[key], now) >= s.retained then entries - {key} else entries
  }

  function Forgotten<V>(s: Settings, c: Cache<V>, key: string, now: nat): Cache<V> {
    c.(entries := Without(s, c.entries, key, now))
  }

  class Affinity<V(==)> {
    const settings: Settings
    var entries: map<string, Entry<V>>
    var ops: nat

    constructor (settings: Settings)
      requires settings.ttl <= settings.retained
      ensures this.settings == settings && Contents() == Cache(map[], 0)
    {
      this.settings := settings;
      entries, ops := map[], 0;
    }

    function Contents(): Cache<V>
      reads this
    {
      Cache(entries, ops)
    }

    method MaybeSweep(now: nat)
      modifies this
      ensures Contents() == Swept(settings, old(Contents()), now)
    {
      ops := ops + 1;
      if ops < GC_EVERY {
        return;
      }
      ops := 0;
      entries := map k | k in entries && Age(entries[k], now) < settings.retained :: entries[k];
    }

    // The section under the read lock; a stale entry is left to the next one.
    method LookupShared(key: string, now: nat) returns (r: Option<Lookup<V>>)
      ensures r.Some? ==> r.value == Answer(settings, Find(entries, key), now)
      ensures r.None? <==> key in entries && Age(entries[key], now) >= settings.ttl && Age(entries[key], now) >= settings.retained
    {
      if key !in entries {
        return Some(Unknown);
      }
      var age := Age(entries[key], now);
      if age < settings.ttl {
        return Some(Hit(entries[key].value));
      }
      r := if age < settings.retained then Some(Expired) else None;
    }

    // The section under the write lock looks again.
    method LookupExclusive(key: string, now: nat) returns (r: Lookup<V>)
      modifies this
      ensures r == Answer(settings, Find(old(entries), key), now)
      ensures Contents() == Forgotten(settings, old(Contents()), key, now)
    {
      if key !in entries {
        return Unknown;
      }
      var age := Age(entries[key], now);
      if age < settings.ttl {
        return Hit(entries[key].value);
      }
      if age < settings.retained {
        return Expired;
      }
      entries := entries - {key};
      r := Unknown;
    }

    method Record(key: string, value: V, now: nat, stamp: nat)
      modifies this
      ensures Contents() == var c := Swept(settings, old(Contents()), now); c.(entries := c.entries[key := Entry(value, stamp)])
    {
      MaybeSweep(now);
      entries := entries[key := Entry(value, stamp)];
    }

    method Lookup(key: string, now: nat, later: nat) returns (r: Lookup<V>)
      requires settings.ttl <= settings.retained && now <= later
      modifies this
      ensures r == Answer(settings, Find(old(entries), key), now)
      ensures Contents() == LookedUp(settings, old(Contents()), key, now, later)
    {
      MaybeSweep(now);
      var shared := LookupShared(key, now);
      if shared.Some? {
        return shared.value;
      }
      r := LookupExclusive(key, later);
    }
  }

  function LookedUp<V>(s: Settings, c: Cache<V>, key: string, now: nat, later: nat): Cache<V> {
    var swept := Swept(s, c, now);
    if key in swept.entries && Age(swept.entries[key], now) >= s.ttl && Age(swept.entries[key], now) >= s.retained then
      Forgotten(s, swept, key, later)
    else swept
  }

  // ---- Refinement of the history ----

  // Any interleaving of the sections of many callers, on a clock that never
  // goes back. The counter is reset by a store of its own, so that with several
  // callers a sweep can fall anywhere.
  datatype Op<V> =
    | Sweep(at: nat)
    | Put(key: string, value: V, at: nat)
    | Forget(key: string, at: nat)

  function Applied<V>(s: Settings, entries: map<string, Entry<V>>, op: Op<V>): map<string, Entry<V>> {
    match op
    case Sweep(at) => Purged(s, entries, at)
    case Put(key, value, at) => entries[key := Entry(value, at)]
    case Forget(key, at) => Without(s, entries, key, at)
  }

  function After<V>(s: Settings, ops: seq<Op<V>>): map<string, Entry<V>> {
    if ops == [] then map[] else Applied(s, After(s, ops[..|ops| - 1]), ops[|ops| - 1])
  }

  // What one caller does is such a history: a sweep or nothing, then a lookup
  // or a record.
  lemma LookupIsOps<V>(s: Settings, c: Cache<V>, key: string, now: nat, later: nat)
    requires s.ttl <= s.retained
    ensures var swept := if c.ops + 1 < GC_EVERY then c.entries else Applied(s, c.entries, Sweep(now));
            && Swept(s, c, now).entries == swept
            && LookedUp(s, c, key, now, later).entries in {swept, Applied(s, swept, Forget(key, later))}
  {
  }

  // The last binding recorded for `key`, whatever was swept since.
  function LastPut<V>(ops: seq<Op<V>>, key: string): Option<Entry<V>> {
    if ops == [] then None
    else
      var last := ops[|ops| - 1];
      if last.Put? && last.key == key then Some(Entry(last.value, last.at)) else LastPut(ops[..|ops| - 1], key)
  }

  predicate ClockRuns<V>(ops: seq<Op<V>>, now: nat) {
    && (forall i :: 0 <= i < |ops| ==> ops[i].at <= now)
    && (forall i, j :: 0 <= i < j < |ops| ==> ops[i].at <= ops[j].at)
  }

  // Whatever was recorded and forgotten before, and whenever it was swept, a
  // lookup answers as the last record of its key demands.
  lemma {:induction false} CacheRefinesHistory<V>(s: Settings, ops: seq<Op<V>>, key: string, now: nat)
    requires s.ttl <= s.retained && ClockRuns(ops, now)
    ensures Answer(s, Find(After(s, ops), key), now) == Answer(s, LastPut(ops, key), now)
  {
    StaleOrHeld(s, ops, key, now);
  }

  // The cache holds the last record, or that record is stale for good.
  lemma {:induction false} StaleOrHeld<V>(s: Settings, ops: seq<Op<V>>, key: string, now: nat)
    requires s.ttl <= s.retained && ClockRuns(ops, now)
    ensures var held := Find(After(s, ops), key);
            held == LastPut(ops, key) || (held == None && Answer(s, LastPut(ops, key), now) == Unknown)
  {
    if ops != [] {
      var before, last := ops[..|ops| - 1], ops[|ops| - 1];
      StaleOrHeld(s, before, key, last.at);
      var held := Find(After(s, before), key);
      if held.None? && LastPut(before, key).Some? {
        assert Age(LastPut(before, key).value, now) >= Age(LastPut(before, key).value, last.at);
      }
    }
  }

  // ---- The two kinds of settings ----

  // A legacy retention and the plan with the remainder behave identically.
  lemma LegacyIsPlan(ttl: nat, absolute: nat)
    requires ttl <= MAX_DURATION && absolute <= MAX_DURATION
    ensures LegacySettings(ttl, absolute) == PlanSettings(ttl, Minus(absolute, ttl))
    ensures LegacySettings(ttl, absolute).ttl <= LegacySettings(ttl, absolute).retained
  {
  }

  // Conversely a plan behaves as some legacy setting, also one that saturates.
  lemma PlanIsLegacy(ttl: nat, expired: nat)
    requires ttl <= MAX_DURATION
    ensures PlanSettings(ttl, expired) == LegacySettings(ttl, SaturatingAdd(ttl, expired))
    ensures forall now: nat, stamp: nat ::
              Answer(PlanSettings(ttl, expired), Some(Entry(true, stamp)), now) == Expired
              <==> ttl <= Minus(now, stamp) < SaturatingAdd(ttl, expired)
  {
  }
}
