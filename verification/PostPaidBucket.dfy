/**
 The post-paid token limiter of pkg/engines/limiter/token_limiter.go: requests pass while the balance is
 positive, and the tokens they used are deducted afterwards, so the balance may go negative.
 */
module PostPaidBucket {
  import opened Prelude
  import opened TokenBucket

  /** written: when EXPIRE was last set; last only moves when tokens were refilled. */
  datatype Account = Account(tokens: int, last: int, written: int)

  /** int64(float64(elapsed) * rate) for a non-negative product. */
  function Refill(c: Config, a: Account, now: int): Account {
    var last := Min(a.last, now);
    var gain := Gain(c, now - last);
    if gain > 0 then a.(tokens := Min(c.burst, a.tokens + gain), last := now) else a.(last := last)
  }

  function Allowed(c: Config, a: Option<Account>, now: int): bool {
    a.None? || Refill(c, a.value, now).tokens > 0
  }

  function Deduct(c: Config, a: Option<Account>, used: int, now: int): Option<Account> {
    if used <= 0 then a
    else
      match a
      case None => Some(Account(c.burst - used, now, now))
      case Some(b) =>
        var r := Refill(c, b, now);
        Some(Account(r.tokens - used, r.last, now))
  }

  /** The key as Redis shows it: gone ttl seconds after the last write. */
  function Shown(ttl: int, a: Option<Account>, now: int): Option<Account> {
    if a.Some? && now < a.value.written + ttl then a else None
  }

  class TokenLimiter {
    const config: Config
    const ttl: int
    var hash: Option<Account>

    constructor (config: Config, ttl: int)
      ensures this.config == config && this.ttl == ttl && hash == None
    {
      this.config, this.ttl, hash := config, ttl, None;
    }

    /** allow: reads only. */
    method Allow(now: int) returns (ok: bool)
      requires Sensible(config)
      ensures ok == Allowed(config, Shown(ttl, hash, now), now)
    {
      if hash.None? || now >= hash.value.written + ttl {
        return true;
      }
      var tokens, lastRefill := hash.value.tokens, hash.value.last;
      if lastRefill > now {
        lastRefill := now;
      }
      var elapsed := now - lastRefill;
      var tokensToAdd := (elapsed as real * config.rate).Floor;
      assert tokensToAdd == Gain(config, elapsed);
      if tokensToAdd > 0 {
        tokens := tokens + tokensToAdd;
        if tokens > config.burst {
          tokens := config.burst;
        }
      }
      return tokens > 0;
    }

    /** deduction. */
    method Deduction(used: int, now: int)
      requires Sensible(config)
      modifies `hash
      ensures hash == if used <= 0 then old(hash) else Deduct(config, Shown(ttl, old(hash), now), used, now)
    {
      if used <= 0 {
        return;
      }
      var tokens, lastRefill;
      if hash.None? || now >= hash.value.written + ttl {
        tokens, lastRefill := config.burst - used, now;
      } else {
        tokens, lastRefill := hash.value.tokens, hash.value.last;
        if lastRefill > now {
          lastRefill := now;
        }
        var elapsed := now - lastRefill;
        var tokensToAdd := (elapsed as real * config.rate).Floor;
        assert tokensToAdd == Gain(config, elapsed);
        if tokensToAdd > 0 {
          tokens := tokens + tokensToAdd;
          if tokens > config.burst {
            tokens := config.burst;
          }
          lastRefill := now;
        }
        tokens := tokens - used;
      }
      hash := Some(Account(tokens, lastRefill, now));
    }
  }

  // ----- The balance in plain arithmetic -----

  /** With what has flowed in since its last refill, the balance is at least n, and the bucket can hold as much. */
  predicate Worth(c: Config, a: Option<Account>, now: int, n: int) {
    c.burst >= n && (a.Some? ==> a.value.tokens as real + c.rate * (now - a.value.last) as real >= n as real)
  }

  lemma RefillExactly(c: Config, b: Account, now: int, n: int)
    requires Sensible(c) && WellFormed(c, Some(b), now)
    ensures Refill(c, b, now).tokens >= n <==> Worth(c, Some(b), now, n)
    ensures Refill(c, b, now).last == if c.rate * (now - b.last) as real >= 1.0 then now else b.last
  {
    var x, gain := c.rate * (now - b.last) as real, Gain(c, now - b.last);
    assert (now - b.last) as real * c.rate == x;
    assert gain as real <= x < gain as real + 1.0;
    assert x >= 0.0;
  }

  /** A check passes exactly when the balance is worth a token. */
  lemma AllowedExactly(c: Config, a: Option<Account>, now: int)
    requires Sensible(c) && c.burst >= 1 && WellFormed(c, a, now)
    ensures Allowed(c, a, now) <==> Worth(c, a, now, 1)
  {
    if a.Some? {
      RefillExactly(c, a.value, now, 1);
    }
  }

  /**
   A deduction takes exactly what was used off what the balance was worth, below zero if need be, and
   restarts the refill only when whole tokens had flowed in.
   */
  lemma DeductedExactly(c: Config, a: Option<Account>, used: int, now: int, n: int)
    requires Sensible(c) && WellFormed(c, a, now) && used > 0
    ensures var r := Deduct(c, a, used, now);
      && r.Some? && r.value.written == now
      && (r.value.tokens >= n <==> Worth(c, a, now, n + used))
      && r.value.last == (if a.None? || c.rate * (now - a.value.last) as real >= 1.0 then now else a.value.last)
  {
    if a.Some? {
      RefillExactly(c, a.value, now, n + used);
    }
  }

  // ----- Expiry -----

  predicate WellFormed(c: Config, a: Option<Account>, now: int) {
    a.Some? ==> a.value.tokens <= c.burst && a.value.last <= a.value.written <= now
  }

  /**
   An expired key is indistinguishable from a kept one, for every deduction, exactly when the kept balance
   would by now be full: a larger debt is forgiven by expiry.
   */
  lemma ForgivenExactly(c: Config, b: Account, used: int, now: int)
    requires Sensible(c) && c.burst >= 1 && WellFormed(c, Some(b), now) && used > 0
    ensures (Deduct(c, None, used, now).value.tokens == Deduct(c, Some(b), used, now).value.tokens)
      <==> b.tokens + Gain(c, now - b.last) >= c.burst
  {
    GainMonotone(c, 0, now - b.last);
  }

  /** The TTL in whole seconds: twice the time an empty bucket needs to fill. */
  predicate DoubleFillTtl(c: Config, ttl: int) {
    c.rate > 0.0 && ttl >= 1 && ttl as real * c.rate >= 2.0 * c.burst as real
  }

  /** One use of the limiter: a check or a deduction. */
  datatype Action = Check(now: int) | Pay(used: int, now: int)

  /** The account after the actions, and the answers of the checks; without a ttl the key never expires. */
  function Play(c: Config, ttl: Option<int>, acts: seq<Action>): (Option<Account>, seq<bool>) {
    if acts == [] then (None, [])
    else
      var (a, answers) := Play(c, ttl, acts[..|acts| - 1]);
      match acts[|acts| - 1]
      case Check(now) =>
        (a, answers + [Allowed(c, if ttl.Some? then Shown(ttl.value, a, now) else a, now)])
      case Pay(used, now) =>
        if used <= 0 then (a, answers)
        else (Deduct(c, if ttl.Some? then Shown(ttl.value, a, now) else a, used, now), answers)
  }

  predicate Ordered(acts: seq<Action>) {
    forall i, j :: 0 <= i <= j < |acts| ==> acts[i].now <= acts[j].now
  }

  /** After every action the stored balance is at least -burst. */
  predicate DebtBounded(c: Config, acts: seq<Action>) {
    forall n :: 0 <= n <= |acts| ==> BoundedAt(c, acts, n)
  }

  predicate BoundedAt(c: Config, acts: seq<Action>, n: nat)
    requires n <= |acts|
  {
    var a := Play(c, None, acts[..n]).0;
    a.Some? ==> a.value.tokens >= -c.burst
  }

  lemma DeductWellFormed(c: Config, a: Option<Account>, used: int, now: int)
    requires Sensible(c) && WellFormed(c, a, now) && used > 0
    ensures WellFormed(c, Deduct(c, a, used, now), now)
  {
  }

  predicate Expired(ttl: int, a: Option<Account>, now: int) {
    a.Some? && now >= a.value.written + ttl
  }

  /** Action k does not meet an expired key, or the key's balance would do as well as a full one. */
  predicate Harmless(c: Config, ttl: int, acts: seq<Action>, k: nat)
    requires k < |acts|
  {
    var a, now := Play(c, None, acts[..k]).0, acts[k].now;
    Expired(ttl, a, now) ==>
      match acts[k]
      case Check(_) => a.value.tokens + Gain(c, now - a.value.last) > 0
      case Pay(used, _) => used <= 0 || a.value.tokens + Gain(c, now - a.value.last) >= c.burst
  }

  predicate AllHarmless(c: Config, ttl: int, acts: seq<Action>) {
    forall k :: 0 <= k < |acts| ==> Harmless(c, ttl, acts, k)
  }

  /** With and without expiry, the account and all answers are the same after n actions. */
  predicate AlikeAt(c: Config, ttl: int, acts: seq<Action>, n: nat)
    requires n <= |acts|
  {
    Play(c, Some(ttl), acts[..n]) == Play(c, None, acts[..n])
  }

  predicate AlwaysAlike(c: Config, ttl: int, acts: seq<Action>) {
    forall n :: 0 <= n <= |acts| ==> AlikeAt(c, ttl, acts, n)
  }

  lemma {:induction false} PlayWellFormed(c: Config, acts: seq<Action>)
    requires Sensible(c) && Ordered(acts)
    ensures acts != [] ==> WellFormed(c, Play(c, None, acts).0, acts[|acts| - 1].now)
    decreases |acts|
  {
    hide Deduct;
    if acts != [] {
      var n := |acts| - 1;
      PlayWellFormed(c, acts[..n]);
      if acts[n].Pay? && acts[n].used > 0 {
        assert n > 0 ==> acts[n - 1].now <= acts[n].now;
        DeductWellFormed(c, Play(c, None, acts[..n]).0, acts[n].used, acts[n].now);
      }
    }
  }

  /** Meeting an expired key: a check answers yes, a deduction starts from a full bucket. */
  lemma ExpiredStep(c: Config, ttl: int, b: Account, used: int, now: int)
    requires c.burst >= 1 && DoubleFillTtl(c, ttl) && WellFormed(c, Some(b), now) && Expired(ttl, Some(b), now)
    ensures Allowed(c, Some(b), now) <==> b.tokens + Gain(c, now - b.last) > 0
    ensures used > 0 ==>
      (Deduct(c, None, used, now) == Deduct(c, Some(b), used, now) <==> b.tokens + Gain(c, now - b.last) >= c.burst)
  {
    ExpiredGain(c, ttl, b, now);
  }

  lemma ExpiredGain(c: Config, ttl: int, b: Account, now: int)
    requires c.burst >= 1 && DoubleFillTtl(c, ttl) && WellFormed(c, Some(b), now) && now >= b.written + ttl
    ensures Gain(c, now - b.last) >= 2 * c.burst
  {
    var x := (now - b.last) as real;
    assert x >= ttl as real;
    assert x * c.rate >= ttl as real * c.rate;
  }

  /**
   Over every ordered run, expiry goes unnoticed at every moment if and only if no check meets an expired
   key that would still be in debt, and no deduction one that would not yet be full.
   */
  lemma {:induction false} UnnoticedExactly(c: Config, ttl: int, acts: seq<Action>)
    requires c.burst >= 1 && DoubleFillTtl(c, ttl) && Ordered(acts)
    ensures AlwaysAlike(c, ttl, acts) <==> AllHarmless(c, ttl, acts)
    decreases |acts|
  {
    hide Harmless, AlikeAt;
    if acts == [] {
      NothingPlayed(c, ttl, acts);
    } else {
      var n := |acts| - 1;
      UnnoticedExactly(c, ttl, acts[..n]);
      AlikeSnoc(c, ttl, acts);
      HarmlessSnoc(c, ttl, acts);
      if AlwaysAlike(c, ttl, acts[..n]) {
        assert AlikeAt(c, ttl, acts[..n], n);
        NextAlike(c, ttl, acts);
      }
    }
  }

  lemma NothingPlayed(c: Config, ttl: int, acts: seq<Action>)
    requires acts == []
    ensures AlikeAt(c, ttl, acts, 0)
  {
  }

  lemma AlikeSnoc(c: Config, ttl: int, acts: seq<Action>)
    requires acts != []
    ensures AlwaysAlike(c, ttl, acts) <==>
      AlwaysAlike(c, ttl, acts[..|acts| - 1]) && AlikeAt(c, ttl, acts, |acts|)
  {
    hide Play;
    var init := acts[..|acts| - 1];
    forall n | 0 <= n <= |init| ensures AlikeAt(c, ttl, init, n) == AlikeAt(c, ttl, acts, n) {
      assert init[..n] == acts[..n];
    }
  }

  lemma HarmlessSnoc(c: Config, ttl: int, acts: seq<Action>)
    requires acts != []
    ensures AllHarmless(c, ttl, acts) <==>
      AllHarmless(c, ttl, acts[..|acts| - 1]) && Harmless(c, ttl, acts, |acts| - 1)
  {
    hide Play, Gain;
    var init := acts[..|acts| - 1];
    forall k | 0 <= k < |init| ensures Harmless(c, ttl, init, k) == Harmless(c, ttl, acts, k) {
      assert init[..k] == acts[..k];
    }
  }

  lemma NextAlike(c: Config, ttl: int, acts: seq<Action>)
    requires c.burst >= 1 && DoubleFillTtl(c, ttl) && Ordered(acts) && acts != []
    requires AlikeAt(c, ttl, acts[..|acts| - 1], |acts| - 1)
    ensures AlikeAt(c, ttl, acts, |acts|) <==> Harmless(c, ttl, acts, |acts| - 1)
  {
    hide Deduct, Allowed, Gain;
    var n := |acts| - 1;
    var init, now := acts[..n], acts[n].now;
    assert init[..n] == init && acts[..|acts|] == acts;
    var a := Play(c, None, init).0;
    PlayWellFormed(c, init);
    assert n > 0 ==> acts[n - 1].now <= now;
    if Expired(ttl, a, now) {
      ExpiredStep(c, ttl, a.value, if acts[n].Pay? then acts[n].used else 0, now);
      NoneAllowed(c, now);
      SameAnswer(Play(c, None, init).1, true, Allowed(c, a, now));
    }
  }

  lemma SameAnswer(answers: seq<bool>, x: bool, y: bool)
    ensures answers + [x] == answers + [y] <==> x == y
  {
    assert (answers + [x])[|answers|] == x && (answers + [y])[|answers|] == y;
  }

  lemma NoneAllowed(c: Config, now: int)
    ensures Allowed(c, None, now)
  {
  }

  /**
   In particular it goes unnoticed while the debt never exceeds the burst: every check answers alike and
   every balance is the same as if the key never expired.
   */
  lemma TtlUnobservableWithinBurst(c: Config, ttl: int, acts: seq<Action>)
    requires c.burst >= 1 && DoubleFillTtl(c, ttl) && Ordered(acts) && DebtBounded(c, acts)
    ensures AlwaysAlike(c, ttl, acts) && Play(c, Some(ttl), acts) == Play(c, None, acts)
  {
    hide Play, Gain;
    forall k | 0 <= k < |acts| ensures Harmless(c, ttl, acts, k) {
      var a := Play(c, None, acts[..k]).0;
      assert BoundedAt(c, acts, k);
      PlayNotEmpty(c, acts[..k]);
      PlayWellFormed(c, acts[..k]);
      if Expired(ttl, a, acts[k].now) {
        assert acts[k - 1].now <= acts[k].now;
        ExpiredGain(c, ttl, a.value, acts[k].now);
      }
    }
    UnnoticedExactly(c, ttl, acts);
    assert AlikeAt(c, ttl, acts, |acts|) && acts[..|acts|] == acts;
  }

  lemma PlayNotEmpty(c: Config, acts: seq<Action>)
    ensures Play(c, None, acts).0.Some? ==> acts != []
  {
  }

  /** And it is noticed by any check that meets an expired key in debt: the debt is forgiven. */
  lemma DebtForgiven(c: Config, ttl: int, acts: seq<Action>, k: nat)
    requires c.burst >= 1 && DoubleFillTtl(c, ttl) && Ordered(acts) && k < |acts|
    requires acts[k].Check? && Expired(ttl, Play(c, None, acts[..k]).0, acts[k].now)
    requires !Allowed(c, Play(c, None, acts[..k]).0, acts[k].now)
    ensures !AlwaysAlike(c, ttl, acts)
  {
    hide Play, Gain, AlwaysAlike;
    var a := Play(c, None, acts[..k]).0;
    PlayNotEmpty(c, acts[..k]);
    PlayWellFormed(c, acts[..k]);
    assert acts[k - 1].now <= acts[k].now;
    ExpiredStep(c, ttl, a.value, 0, acts[k].now);
    assert !Harmless(c, ttl, acts, k);
    UnnoticedExactly(c, ttl, acts);
  }
}
