/**
 One token bucket as the Lua scripts keep it (pkg/engines/limiter/request_limiter.go:152-182): whole
 tokens, refilled by the floor of elapsed time times rate, written only when a request is admitted.
 Times are whole seconds; a missing key stands for a full bucket.
 */
module TokenBucket {
  import opened Prelude

  datatype Config = Config(burst: int, rate: real)

  datatype Entry = Entry(tokens: int, last: int)

  predicate Sensible(c: Config) {
    c.burst >= 0 && c.rate >= 0.0
  }

  predicate Sane(c: Config, e: Option<Entry>) {
    e.Some? ==> 0 <= e.value.tokens <= c.burst
  }

  function Gain(c: Config, elapsed: int): int {
    (elapsed as real * c.rate).Floor
  }

  /** The tokens available at time now. */
  function Level(c: Config, e: Option<Entry>, now: int): int {
    match e
    case None => Min(c.burst, c.burst + Gain(c, 0))
    case Some(b) => Min(c.burst, b.tokens + Gain(c, now - b.last))
  }

  predicate NotBefore(e: Option<Entry>, now: int) {
    e.Some? ==> e.value.last <= now
  }

  // ----- Any sequence of admissions -----

  /** The bucket after admissions at the given times. */
  function Drained(c: Config, e: Option<Entry>, admits: seq<int>): Option<Entry> {
    if admits == [] then e
    else
      var before := Drained(c, e, admits[..|admits| - 1]);
      var now := admits[|admits| - 1];
      Some(Entry(Level(c, before, now) - 1, now))
  }

  /** Each admission found a token, and time does not run backwards. */
  predicate Admissible(c: Config, e: Option<Entry>, admits: seq<int>) {
    admits == [] ||
    (var before, now := Drained(c, e, admits[..|admits| - 1]), admits[|admits| - 1];
     Admissible(c, e, admits[..|admits| - 1]) && NotBefore(before, now) && Level(c, before, now) >= 1)
  }

  lemma NoAdmits(c: Config, e: Option<Entry>)
    ensures Drained(c, e, []) == e && Admissible(c, e, [])
  {
  }

  /** One more admission. */
  lemma AdmitOnce(c: Config, e: Option<Entry>, admits: seq<int>, now: int)
    ensures var before := Drained(c, e, admits);
      && Drained(c, e, admits + [now]) == Some(Entry(Level(c, before, now) - 1, now))
      && (Admissible(c, e, admits + [now]) <==>
          Admissible(c, e, admits) && NotBefore(before, now) && Level(c, before, now) >= 1)
  {
    hide Level;
    assert (admits + [now])[..|admits|] == admits;
  }

  lemma GainMonotone(c: Config, a: int, b: int)
    requires Sensible(c) && a <= b
    ensures Gain(c, a) <= Gain(c, b)
    ensures 0 <= a ==> 0 <= Gain(c, a)
  {
    assert a as real * c.rate <= b as real * c.rate;
  }

  lemma GainAdds(c: Config, a: int, b: int)
    ensures Gain(c, a) + Gain(c, b) <= Gain(c, a + b)
  {
    assert (a + b) as real * c.rate == a as real * c.rate + b as real * c.rate;
  }

  /** Tokens stay between 0 and burst over every admissible run. */
  lemma {:induction false} StaysSane(c: Config, e: Option<Entry>, admits: seq<int>)
    requires Sensible(c) && Sane(c, e) && Admissible(c, e, admits)
    ensures Sane(c, Drained(c, e, admits))
    decreases |admits|
  {
    if admits != [] {
      StaysSane(c, e, admits[..|admits| - 1]);
    }
  }

  /** What is spent after the first admission comes out of what flowed in since. */
  lemma {:induction false} SpentSinceFirst(c: Config, e: Option<Entry>, admits: seq<int>)
    requires Sensible(c) && Sane(c, e) && Admissible(c, e, admits) && admits != []
    ensures var r := Drained(c, e, admits);
      && r == Some(Entry(r.value.tokens, admits[|admits| - 1]))
      && admits[0] <= admits[|admits| - 1]
      && 0 <= r.value.tokens <= c.burst - |admits| + Gain(c, admits[|admits| - 1] - admits[0])
    decreases |admits|
  {
    var n := |admits| - 1;
    if n == 0 {
      GainMonotone(c, 0, 0);
    } else {
      var init := admits[..n];
      SpentSinceFirst(c, e, init);
      GainAdds(c, admits[n - 1] - admits[0], admits[n] - admits[n - 1]);
    }
  }

  /** The window bound: within t1..t2 at most burst + floor(rate * (t2 - t1)) requests are admitted. */
  lemma WindowBound(c: Config, e: Option<Entry>, admits: seq<int>, t1: int, t2: int)
    requires Sensible(c) && Sane(c, e) && Admissible(c, e, admits) && t1 <= t2
    requires admits != [] ==> t1 <= admits[0] && admits[|admits| - 1] <= t2
    ensures |admits| <= c.burst + Gain(c, t2 - t1)
  {
    GainMonotone(c, 0, t2 - t1);
    if admits != [] {
      SpentSinceFirst(c, e, admits);
      GainMonotone(c, admits[|admits| - 1] - admits[0], t2 - t1);
    }
  }

  /** ceil(1/rate) seconds after the last admission there is a token again. */
  lemma AdmittedAfterPause(c: Config, b: Entry, now: int)
    requires c.burst >= 1 && c.rate > 0.0 && Sane(c, Some(b)) && (now - b.last) as real * c.rate >= 1.0
    ensures Level(c, Some(b), now) >= 1
  {
  }

  // ----- Expiry -----

  function Ceil(x: real): int {
    -(-x).Floor
  }

  /** The TTL the constructors choose for a bucket with a positive limit. */
  function TtlOf(c: Config): int
    requires c.rate > 0.0
  {
    Max(1, Ceil(c.burst as real / c.rate) + 1)
  }

  /** What the key holds at time now when EXPIRE was set to ttl at the last write. */
  function Visible(ttl: int, e: Option<Entry>, now: int): Option<Entry> {
    if e.Some? && now < e.value.last + ttl then e else None
  }

  lemma FullAfterTtl(c: Config, elapsed: int)
    requires c.burst >= 0 && c.rate > 0.0 && elapsed >= TtlOf(c)
    ensures Gain(c, elapsed) >= c.burst
  {
    var need := c.burst as real / c.rate;
    assert elapsed as real >= need;
    assert need * c.rate == c.burst as real;
    assert elapsed as real * c.rate >= need * c.rate;
  }

  /** Expiry cannot be seen: a key old enough to be gone would by now be full anyway. */
  lemma TtlUnobservable(c: Config, e: Option<Entry>, now: int)
    requires c.burst >= 0 && c.rate > 0.0 && Sane(c, e)
    ensures Level(c, Visible(TtlOf(c), e, now), now) == Level(c, e, now)
  {
    if e.Some? && now >= e.value.last + TtlOf(c) {
      FullAfterTtl(c, now - e.value.last);
      assert Gain(c, 0) == 0;
    }
  }

  /** Exactly when an expired key with balance tokens and age elapsed is indistinguishable from a full one. */
  lemma ExpiryExactlyUnobservable(c: Config, tokens: int, elapsed: int)
    ensures Level(c, Some(Entry(tokens, 0)), elapsed) == Level(c, None, elapsed) <==> Gain(c, elapsed) >= c.burst - tokens
  {
    assert Gain(c, 0) == 0;
  }
}
