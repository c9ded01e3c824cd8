// The health of one account: every failure in a row doubles its cooldown, up
// to sixteen times the base, and a success clears it.
module AccountHandle {
  import opened Wrappers

  type ProviderId = nat
  datatype Tier = Active | Fallback

  const MAX_FAILURES: nat := 0xFFFF_FFFF
  // The longest representable duration, in nanoseconds.
  const MAX_DURATION: nat := 0xFFFF_FFFF_FFFF_FFFF * 1_000_000_000 + 999_999_999

  function Min(a: nat, b: nat): nat {
    if a <= b then a else b
  }

  function Pow2(n: nat): nat {
    if n == 0 then 1 else 2 * Pow2(n - 1)
  }

  function Healthy(cooldown: Option<nat>, now: nat): bool {
    match cooldown case None => true case Some(t) => now >= t
  }

  class Handle {
    const id: string
    const provider: ProviderId
    const tier: Tier
    var cooldownUntil: Option<nat>
    var failures: nat

    constructor (id: string, provider: ProviderId, tier: Tier)
      ensures this.id == id && this.provider == provider && this.tier == tier
      ensures cooldownUntil == None && failures == 0
    {
      this.id, this.provider, this.tier := id, provider, tier;
      cooldownUntil, failures := None, 0;
    }

    function IsHealthy(now: nat): bool
      reads this
    {
      Healthy(cooldownUntil, now)
    }

    method MarkFailure(now: nat, base: nat)
      requires failures <= MAX_FAILURES
      modifies this
      ensures failures == Min(old(failures) + 1, MAX_FAILURES)
      ensures cooldownUntil == Some(now + Penalty(base, failures))
    {
      failures := Min(failures + 1, MAX_FAILURES);
      var multiplier, shift := 1, Min(failures, 5) - 1;
      for i := 0 to shift
        invariant multiplier == Pow2(i)
      {
        multiplier := 2 * multiplier;
      }
      cooldownUntil := Some(now + Min(base * multiplier, MAX_DURATION));
    }

    method MarkSuccess()
      modifies this
      ensures failures == 0 && cooldownUntil == None
    {
      failures, cooldownUntil := 0, None;
    }
  }

  function Penalty(base: nat, failures: nat): nat
    requires failures > 0
  {
    Min(base * Pow2(Min(failures, 5) - 1), MAX_DURATION)
  }

  // The penalty never shrinks while failures go on, and is bounded.
  lemma PenaltyGrows(base: nat, f: nat)
    requires f > 0
    ensures Penalty(base, f) <= Penalty(base, f + 1) <= Min(16 * base, MAX_DURATION)
    ensures f < 5 && 2 * Penalty(base, f) <= MAX_DURATION ==> Penalty(base, f + 1) == 2 * Penalty(base, f)
    ensures f >= 5 ==> Penalty(base, f) == Min(16 * base, MAX_DURATION)
  {
    assert Pow2(0) == 1 && Pow2(1) == 2 && Pow2(2) == 4 && Pow2(3) == 8 && Pow2(4) == 16;
    if f == 1 {
    } else if f == 2 {
    } else if f == 3 {
    } else if f == 4 {
    }
  }

  // ---- The health after any history ----

  datatype Event = Failure(at: nat, base: nat) | Success

  datatype Record = Record(cooldown: Option<nat>, failures: nat)

  // One marking, as the methods perform it.
  function Marked(r: Record, e: Event): Record {
    match e
    case Success => Record(None, 0)
    case Failure(at, base) =>
      var f := Min(r.failures + 1, MAX_FAILURES);
      Record(Some(at + Penalty(base, f)), f)
  }

  function After(events: seq<Event>): Record {
    if events == [] then Record(None, 0) else Marked(After(events[..|events| - 1]), events[|events| - 1])
  }

  // How many failures in a row the history ends with.
  function Streak(events: seq<Event>): nat {
    if events == [] || events[|events| - 1].Success? then 0 else 1 + Streak(events[..|events| - 1])
  }

  // An account is in cooldown exactly while the penalty for its current streak
  // of failures has not passed since the last of them.
  lemma {:induction false} HealthFollowsStreak(events: seq<Event>, now: nat)
    ensures After(events).failures == Min(Streak(events), MAX_FAILURES)
    ensures Healthy(After(events).cooldown, now)
       <==> (Streak(events) > 0 ==>
               var last := events[|events| - 1]; now >= last.at + Penalty(last.base, Streak(events)))
  {
    if events != [] {
      HealthFollowsStreak(events[..|events| - 1], now);
      var last := events[|events| - 1];
      if last.Failure? {
        assert Min(Min(Streak(events), MAX_FAILURES), 5) == Min(Streak(events), 5);
      }
    }
  }
}
