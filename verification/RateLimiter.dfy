/** The token-bucket rate limiter: its eviction of idle buckets can be observed exactly if the burst exceeds
    ten minutes of refill, and it bounds the calls allowed in any window.  Clock readings are seconds, as reals. */
module RateLimiter {
  import opened Sequences
  import Domain

  const MAX_BUCKETS := 20000
  const IDLE_LIMIT := 600.0

  datatype Bucket = Bucket(tokens: real, last: real)

  type Table = map<Id, Bucket>

  /** `rate` is in tokens per second. */
  datatype Config = Config(perMin: int, burst: int, rate: real) {
    function Burst(): real { burst as real }
    predicate Valid() { perMin >= 1 && burst >= 1 && rate == perMin as real / 60.0 }
  }

  /** A limiter is disabled for a non-positive rate; a non-positive burst means one minute's worth. */
  function NewConfig(perMin: int, burst: int): (c: Option<Config>)
    ensures c.None? <==> perMin <= 0
    ensures c.Some? ==> c.value.Valid() && c.value.perMin == perMin
    ensures c.Some? ==> c.value.burst == if burst <= 0 then perMin else burst
  {
    if perMin <= 0 then None else Some(Config(perMin, if burst <= 0 then perMin else burst, perMin as real / 60.0))
  }

  function Min(a: real, b: real): real {
    if a > b then b else a
  }

  /** The tokens of a bucket at time `now`. */
  function Refilled(c: Config, b: Bucket, now: real): real {
    Min(b.tokens + Gain(c, now - b.last), c.Burst())
  }

  /** What is refilled in `elapsed` seconds, before the cap. */
  function Gain(c: Config, elapsed: real): real {
    elapsed * c.rate
  }

  lemma GainIsZero(c: Config)
    ensures Gain(c, 0.0) == 0.0
  {
  }

  lemma GainAdds(c: Config, x: real, y: real)
    requires c.Valid()
    ensures Gain(c, x + y) == Gain(c, x) + Gain(c, y)
    ensures x >= 0.0 ==> Gain(c, x) >= 0.0
  {
  }

  lemma TenMinutes(c: Config, elapsed: real)
    requires c.Valid() && elapsed > IDLE_LIMIT
    ensures Gain(c, elapsed) >= 10.0 * c.perMin as real
  {
    GainAdds(c, IDLE_LIMIT, elapsed - IDLE_LIMIT);
  }

  /** Nothing is refilled in no time. */
  lemma RefilledNow(c: Config, b: Bucket)
    requires b.tokens <= c.Burst()
    ensures Refilled(c, b, b.last) == b.tokens
  {
    GainIsZero(c);
  }

  function Swept(t: Table, now: real): Table {
    map k | k in t && now - t[k].last <= IDLE_LIMIT :: t[k]
  }

  /** A call on a known key. */
  function Spend(c: Config, t: Table, key: Id, now: real): (Table, bool)
    requires key in t
  {
    var tokens := Refilled(c, t[key], now);
    if tokens >= 1.0 then (t[key := Bucket(tokens - 1.0, now)], true) else (t[key := Bucket(tokens, now)], false)
  }

  /** One call.  The real limiter evicts: a new key triggers a sweep when the table is large.  The plain one,
      its reference, never forgets a bucket. */
  function Allow(c: Config, evicts: bool, t: Table, key: Id, now: real): (Table, bool) {
    if key in t then Spend(c, t, key, now)
    else ((if evicts && |t| > MAX_BUCKETS then Swept(t, now) else t)[key := Bucket(c.Burst() - 1.0, now)], true)
  }

  class Limiter {
    const config: Config
    var buckets: Table

    constructor (c: Config)
      requires c.Valid()
      ensures config == c && buckets == map[]
    {
      config, buckets := c, map[];
    }

    method SweepLocked(now: real)
      modifies this
      ensures buckets == Swept(old(buckets), now)
    {
      var rest := buckets.Keys;
      while rest != {}
        invariant rest <= old(buckets).Keys
        invariant buckets == map k | k in old(buckets) && (k in rest || now - old(buckets)[k].last <= IDLE_LIMIT) :: old(buckets)[k]
        decreases |rest|
      {
        var k :| k in rest;
        rest := rest - {k};
        if now - buckets[k].last > IDLE_LIMIT {
          buckets := buckets - {k};
        }
      }
    }

    method AllowKey(key: Id, now: real) returns (ok: bool)
      modifies this
      ensures var (table, answer) := Allow(config, true, old(buckets), key, now); buckets == table && ok == answer
    {
      if key !in buckets {
        if |buckets| > MAX_BUCKETS {
          SweepLocked(now);
        }
        buckets := buckets[key := Bucket(config.Burst() - 1.0, now)];
        return true;
      }
      var b := buckets[key];
      var tokens := b.tokens + Gain(config, now - b.last);
      if tokens > config.Burst() {
        tokens := config.Burst();
      }
      assert tokens == Refilled(config, b, now);
      if tokens >= 1.0 {
        buckets := buckets[key := Bucket(tokens - 1.0, now)];
        return true;
      }
      buckets := buckets[key := Bucket(tokens, now)];
      return false;
    }
  }

  // ---------------------------------------------------------------- runs

  datatype Call = Call(key: Id, at: real)

  ghost predicate Monotone(calls: seq<Call>, start: real) {
    && (forall i :: 0 <= i < |calls| ==> calls[i].at >= start)
    && (forall i, j :: 0 <= i <= j < |calls| ==> calls[i].at <= calls[j].at)
  }

  function Answers(c: Config, evicts: bool, t: Table, calls: seq<Call>): (r: seq<bool>)
    ensures |r| == |calls|
    decreases |calls|
  {
    if calls == [] then []
    else
      var (t', ok) := Allow(c, evicts, t, calls[0].key, calls[0].at);
      [ok] + Answers(c, evicts, t', calls[1..])
  }

  function TableAfter(c: Config, evicts: bool, t: Table, calls: seq<Call>): Table
    decreases |calls|
  {
    if calls == [] then t else TableAfter(c, evicts, Allow(c, evicts, t, calls[0].key, calls[0].at).0, calls[1..])
  }

  lemma {:induction false} TableAppend(c: Config, evicts: bool, t: Table, xs: seq<Call>, ys: seq<Call>)
    ensures TableAfter(c, evicts, t, xs + ys) == TableAfter(c, evicts, TableAfter(c, evicts, t, xs), ys)
    decreases |xs|
  {
    if xs == [] {
      assert xs + ys == ys;
    } else {
      assert (xs + ys)[1..] == xs[1..] + ys;
      TableAppend(c, evicts, Allow(c, evicts, t, xs[0].key, xs[0].at).0, xs[1..], ys);
    }
  }

  lemma {:induction false} AnswersAppend(c: Config, evicts: bool, t: Table, xs: seq<Call>, ys: seq<Call>)
    ensures Answers(c, evicts, t, xs + ys) == Answers(c, evicts, t, xs) + Answers(c, evicts, TableAfter(c, evicts, t, xs), ys)
    decreases |xs|
  {
    if xs == [] {
      assert xs + ys == ys;
    } else {
      assert (xs + ys)[1..] == xs[1..] + ys;
      AnswersAppend(c, evicts, Allow(c, evicts, t, xs[0].key, xs[0].at).0, xs[1..], ys);
    }
  }

  ghost predicate TableOk(c: Config, t: Table, now: real) {
    forall k :: k in t ==> 0.0 <= t[k].tokens <= c.Burst() && t[k].last <= now
  }

  // ---------------------------------------------------------------- one call

  /** What a key has refilled by `now`, before the cap. */
  function Grown(c: Config, b: Bucket, now: real): real {
    b.tokens + (now - b.last) * (c.perMin as real / 60.0)
  }

  /** A call is allowed exactly if its key is new or has refilled a token; a known key keeps what is left, up to the burst,
      and a new one gets a full bucket less one, for which a table of more than 20000 keys drops those idle for more than
      ten minutes. */
  lemma AllowExactly(c: Config, t: Table, key: Id, now: real)
    requires c.Valid()
    ensures Allow(c, true, t, key, now).1 <==> key !in t || Grown(c, t[key], now) >= 1.0
    ensures var t', full := Allow(c, true, t, key, now).0, c.burst as real;
            && key in t'
            && t'[key] == (if key !in t then Bucket(full - 1.0, now)
                           else
                             var n := if Grown(c, t[key], now) > full then full else Grown(c, t[key], now);
                             Bucket(if n >= 1.0 then n - 1.0 else n, now))
            && (forall k :: k != key ==> (k in t' <==> k in t && (key !in t && |t| > 20000 ==> now - t[k].last <= 600.0)))
            && (forall k :: k != key && k in t' ==> t'[k] == t[k])
  {
  }

  /** Calls on `key` are at least the time of one token apart, also from its bucket. */
  ghost predicate Spaced(c: Config, t: Table, calls: seq<Call>, key: Id)
    requires c.Valid()
  {
    && (forall i, j :: 0 <= i < j < |calls| && calls[i].key == key && calls[j].key == key ==>
          calls[j].at - calls[i].at >= 60.0 / c.perMin as real)
    && (forall i :: 0 <= i < |calls| && calls[i].key == key && key in t ==> calls[i].at - t[key].last >= 60.0 / c.perMin as real)
  }

  lemma OneTokenLater(c: Config, b: Bucket, now: real)
    requires c.Valid() && b.tokens >= 0.0 && now - b.last >= 60.0 / c.perMin as real
    ensures Grown(c, b, now) >= 1.0
  {
    var m := c.perMin as real;
    TimesAtLeast(now - b.last, 60.0 / m, m / 60.0);
    assert 60.0 / m * (m / 60.0) == 1.0;
  }

  lemma TimesAtLeast(x: real, y: real, r: real)
    requires x >= y && r >= 0.0
    ensures x * r >= y * r
  {
    assert (x - y) * r >= 0.0;
  }

  lemma AllowKeeps(c: Config, t: Table, key: Id, now: real)
    requires c.Valid() && TableOk(c, t, now)
    ensures TableOk(c, Allow(c, true, t, key, now).0, now)
  {
    if key in t {
      SpendKeeps(c, t, key, now);
    }
  }

  lemma StaySpaced(c: Config, t: Table, calls: seq<Call>, key: Id)
    requires c.Valid() && calls != [] && Spaced(c, t, calls, key)
    ensures Spaced(c, Allow(c, true, t, calls[0].key, calls[0].at).0, calls[1..], key)
  {
    AllowExactly(c, t, calls[0].key, calls[0].at);
    var rest := calls[1..];
    assert forall i :: 0 <= i < |rest| ==> rest[i] == calls[i + 1];
  }

  /** A key that never calls faster than its rate is never turned down, whatever the other keys do. */
  lemma {:induction false} SpacedCallsPass(c: Config, t: Table, calls: seq<Call>, key: Id, now: real)
    requires c.Valid() && TableOk(c, t, now) && Monotone(calls, now) && Spaced(c, t, calls, key)
    ensures forall i :: 0 <= i < |calls| && calls[i].key == key ==> Answers(c, true, t, calls)[i]
    decreases |calls|
  {
    if calls != [] {
      var (t', ok) := Allow(c, true, t, calls[0].key, calls[0].at);
      AllowKeeps(c, t, calls[0].key, calls[0].at);
      StaySpaced(c, t, calls, key);
      SpacedCallsPass(c, t', calls[1..], key, calls[0].at);
      AllowExactly(c, t, calls[0].key, calls[0].at);
      if calls[0].key == key && key in t {
        OneTokenLater(c, t[key], calls[0].at);
      }
      assert Answers(c, true, t, calls) == [ok] + Answers(c, true, t', calls[1..]);
      forall i | 0 <= i < |calls| && calls[i].key == key ensures Answers(c, true, t, calls)[i] {
        assert i > 0 ==> calls[1..][i - 1] == calls[i];
      }
    }
  }

  // ---------------------------------------------------------------- eviction

  /** `e` is `p` with some buckets forgotten, all idle for more than the limit. */
  ghost predicate Forgets(e: Table, p: Table, now: real) {
    && (forall k :: k in e ==> k in p && p[k] == e[k])
    && (forall k :: k in p && k !in e ==> now - p[k].last > IDLE_LIMIT)
  }

  lemma RefillBounds(c: Config, b: Bucket, now: real)
    requires c.Valid() && 0.0 <= b.tokens <= c.Burst() && b.last <= now
    ensures 0.0 <= Refilled(c, b, now) <= c.Burst()
    ensures Refilled(c, b, now) <= b.tokens + Gain(c, now - b.last)
  {
    GainAdds(c, now - b.last, 0.0);
  }

  /** After ten idle minutes the bucket is full again, if it is not larger than ten minutes of refill. */
  lemma IdleIsFull(c: Config, b: Bucket, now: real)
    requires c.Valid() && c.burst <= 10 * c.perMin
    requires 0.0 <= b.tokens && now - b.last > IDLE_LIMIT
    ensures Refilled(c, b, now) == c.Burst()
  {
    TenMinutes(c, now - b.last);
  }

  lemma SpendKeeps(c: Config, t: Table, key: Id, now: real)
    requires c.Valid() && TableOk(c, t, now) && key in t
    ensures TableOk(c, Spend(c, t, key, now).0, now)
  {
    RefillBounds(c, t[key], now);
  }

  lemma AllowPlainKeeps(c: Config, t: Table, key: Id, now: real)
    requires c.Valid() && TableOk(c, t, now)
    ensures TableOk(c, Allow(c, false, t, key, now).0, now)
  {
    if key in t {
      SpendKeeps(c, t, key, now);
    }
  }

  /** One call answered alike, and the tables stay related. */
  lemma SameAnswer(c: Config, e: Table, p: Table, key: Id, now: real)
    requires c.Valid() && c.burst <= 10 * c.perMin && TableOk(c, p, now) && Forgets(e, p, now)
    ensures Allow(c, true, e, key, now).1 == Allow(c, false, p, key, now).1
    ensures Forgets(Allow(c, true, e, key, now).0, Allow(c, false, p, key, now).0, now)
  {
    if key !in e && key in p {
      IdleIsFull(c, p[key], now);
    }
  }

  lemma {:induction false} SameAnswers(c: Config, e: Table, p: Table, calls: seq<Call>, now: real)
    requires c.Valid() && c.burst <= 10 * c.perMin && TableOk(c, p, now) && Forgets(e, p, now) && Monotone(calls, now)
    ensures Answers(c, true, e, calls) == Answers(c, false, p, calls)
    decreases |calls|
  {
    if calls != [] {
      var key, at := calls[0].key, calls[0].at;
      SameAnswer(c, e, p, key, at);
      AllowPlainKeeps(c, p, key, at);
      SameAnswers(c, Allow(c, true, e, key, at).0, Allow(c, false, p, key, at).0, calls[1..], at);
    }
  }

  // ---------------------------------------------------------------- the rate bound

  /** How many of the calls on `key` were allowed. */
  function Allowed(calls: seq<Call>, answers: seq<bool>, key: Id): nat
    requires |answers| == |calls|
  {
    if calls == [] then 0
    else (if calls[0].key == key && answers[0] then 1 else 0) + Allowed(calls[1..], answers[1..], key)
  }

  /** What `key` could spend at time `now`. */
  function Level(c: Config, t: Table, key: Id, now: real): real {
    if key in t then Refilled(c, t[key], now) else c.Burst()
  }

  lemma LevelGrows(c: Config, t: Table, key: Id, now: real, later: real)
    requires c.Valid() && TableOk(c, t, now) && now <= later
    ensures Level(c, t, key, later) <= Level(c, t, key, now) + Gain(c, later - now)
    ensures 0.0 <= Level(c, t, key, later) <= c.Burst()
  {
    if key in t {
      var b := t[key];
      RefillBounds(c, b, later);
      assert later - b.last == (now - b.last) + (later - now);
      GainAdds(c, now - b.last, later - now);
    }
    GainAdds(c, later - now, 0.0);
  }

  lemma LevelIsBounded(c: Config, t: Table, key: Id, now: real)
    requires c.Valid() && TableOk(c, t, now)
    ensures Level(c, t, key, now) <= c.Burst()
  {
    LevelGrows(c, t, key, now, now);
  }

  lemma LevelAfter(c: Config, t: Table, key: Id, now: real, mine: Id)
    requires c.Valid() && TableOk(c, t, now)
    ensures var (t', ok) := Allow(c, false, t, key, now);
            Level(c, t', mine, now) == Level(c, t, mine, now) - (if key == mine && ok then 1.0 else 0.0)
  {
    var t' := Allow(c, false, t, key, now).0;
    if key in t {
      RefillBounds(c, t[key], now);
    }
    RefilledNow(c, t'[key]);
  }

  lemma {:induction false} PlainRateBound(c: Config, t: Table, calls: seq<Call>, key: Id, from: real, to: real)
    requires c.Valid() && TableOk(c, t, from) && Monotone(calls, from)
    requires from <= to && forall i :: 0 <= i < |calls| ==> calls[i].at <= to
    ensures Allowed(calls, Answers(c, false, t, calls), key) as real <= Level(c, t, key, from) + Gain(c, to - from)
    decreases |calls|
  {
    if calls == [] {
      LevelGrows(c, t, key, from, to);
      LevelGrows(c, t, key, from, from);
    } else {
      var at := calls[0].at;
      var t' := Allow(c, false, t, calls[0].key, at).0;
      LevelGrows(c, t, key, from, at);
      LevelAfter(c, t, calls[0].key, at, key);
      AllowPlainKeeps(c, t, calls[0].key, at);
      PlainRateBound(c, t', calls[1..], key, at, to);
      assert to - from == (to - at) + (at - from);
      GainAdds(c, to - at, at - from);
    }
  }

  lemma FullBound(c: Config, t: Table, calls: seq<Call>, key: Id, from: real, to: real)
    requires c.Valid() && TableOk(c, t, from) && Monotone(calls, from)
    requires from <= to && forall i :: 0 <= i < |calls| ==> calls[i].at <= to
    ensures Allowed(calls, Answers(c, false, t, calls), key) as real <= c.Burst() + Gain(c, to - from)
  {
    var level, gain := Level(c, t, key, from), Gain(c, to - from);
    assert level <= c.Burst() by {
      LevelIsBounded(c, t, key, from);
    }
    assert Allowed(calls, Answers(c, false, t, calls), key) as real <= level + gain by {
      PlainRateBound(c, t, calls, key, from, to);
    }
  }

  lemma {:induction false} PlainTableOk(c: Config, t: Table, calls: seq<Call>, from: real, to: real)
    requires c.Valid() && TableOk(c, t, from) && Monotone(calls, from)
    requires from <= to && forall i :: 0 <= i < |calls| ==> calls[i].at <= to
    ensures TableOk(c, TableAfter(c, false, t, calls), to)
    decreases |calls|
  {
    if calls != [] {
      AllowPlainKeeps(c, t, calls[0].key, calls[0].at);
      PlainTableOk(c, Allow(c, false, t, calls[0].key, calls[0].at).0, calls[1..], calls[0].at, to);
    }
  }

  /** Cutting a run: the answers in a window are those of a plain limiter started with some well-formed table. */
  lemma WindowAnswers(c: Config, before: seq<Call>, window: seq<Call>)
    requires c.Valid() && c.burst <= 10 * c.perMin && Monotone(before + window, 0.0)
    ensures Answers(c, true, map[], before + window)[|before|..] == Answers(c, false, TableAfter(c, false, map[], before), window)
  {
    SameAnswers(c, map[], map[], before + window, 0.0);
    AnswersAppend(c, false, map[], before, window);
  }

  /** The run `before + window` reaches time `from` with `before` and time `to` with `window`. */
  ghost predicate Cut(before: seq<Call>, window: seq<Call>, from: real, to: real) {
    && Monotone(before + window, 0.0)
    && 0.0 <= from <= to
    && (forall i :: 0 <= i < |before| ==> before[i].at <= from)
    && (forall i :: 0 <= i < |window| ==> from <= window[i].at <= to)
  }

  lemma CutIsMonotone(before: seq<Call>, window: seq<Call>, from: real, to: real)
    requires Cut(before, window, from, to)
    ensures Monotone(before, 0.0) && Monotone(window, from)
  {
    var calls := before + window;
    assert forall i :: 0 <= i < |before| ==> before[i] == calls[i];
    assert forall i :: 0 <= i < |window| ==> window[i] == calls[|before| + i];
  }

  /** The number of calls on `key` that the window of a run lets through. */
  ghost function AllowedIn(c: Config, before: seq<Call>, window: seq<Call>, key: Id): nat {
    Allowed(window, Answers(c, true, map[], before + window)[|before|..], key)
  }

  /** In any window of a run, a key is allowed at most the burst plus the refill of the window. */
  lemma RateBound(c: Config, before: seq<Call>, window: seq<Call>, key: Id, from: real, to: real)
    requires c.Valid() && c.burst <= 10 * c.perMin && Cut(before, window, from, to)
    ensures AllowedIn(c, before, window, key) as real <= c.Burst() + Gain(c, to - from)
  {
    CutIsMonotone(before, window, from, to);
    WindowAnswers(c, before, window);
    PlainTableOk(c, map[], before, 0.0, from);
    FullBound(c, TableAfter(c, false, map[], before), window, key, from, to);
  }

  // ---------------------------------------------------------------- when eviction shows

  function Repeat(key: Id, at: real, n: nat): seq<Call> {
    seq(n, _ => Call(key, at))
  }

  function Inserts(keys: seq<Id>, at: real): seq<Call> {
    seq(|keys|, i requires 0 <= i < |keys| => Call(keys[i], at))
  }

  /** `n` calls at one moment take `n` tokens and are all allowed. */
  lemma {:induction false} RepeatSpends(c: Config, evicts: bool, t: Table, key: Id, at: real, n: nat)
    requires key in t && t[key].last == at && n as real <= t[key].tokens <= c.Burst()
    ensures TableAfter(c, evicts, t, Repeat(key, at, n)) == t[key := Bucket(t[key].tokens - n as real, at)]
    ensures Allowed(Repeat(key, at, n), Answers(c, evicts, t, Repeat(key, at, n)), key) == n
    decreases n
  {
    var level := t[key].tokens;
    if n == 0 {
      assert t[key := Bucket(level, at)] == t;
    } else {
      var t' := t[key := Bucket(level - 1.0, at)];
      RefilledNow(c, t[key]);
      assert Allow(c, evicts, t, key, at) == (t', true);
      assert Repeat(key, at, n)[1..] == Repeat(key, at, n - 1);
      RepeatSpends(c, evicts, t', key, at, n - 1);
      assert t'[key := Bucket(level - n as real, at)] == t[key := Bucket(level - n as real, at)];
    }
  }

  /** New keys up to the size that triggers a sweep only add their own buckets. */
  lemma {:induction false} InsertsAdd(c: Config, evicts: bool, t: Table, keys: seq<Id>, at: real)
    requires NoDup(keys) && (forall k :: k in keys ==> k !in t) && |t| + |keys| <= MAX_BUCKETS + 1
    ensures var t' := TableAfter(c, evicts, t, Inserts(keys, at));
            && |t'| == |t| + |keys|
            && (forall k :: k in t' <==> k in t || k in keys)
            && (forall k :: k in t ==> t'[k] == t[k])
            && (forall k :: k in keys ==> t'[k].last == at)
    decreases |keys|
  {
    if keys != [] {
      var t1 := t[keys[0] := Bucket(c.Burst() - 1.0, at)];
      assert Inserts(keys, at)[1..] == Inserts(keys[1..], at);
      assert keys[0] in keys;
      assert Allow(c, evicts, t, keys[0], at).0 == t1;
      assert |t1| == |t| + 1;
      assert forall k :: k in keys[1..] ==> k in keys && k != keys[0];
      InsertsAdd(c, evicts, t1, keys[1..], at);
      assert forall k :: k in keys <==> k == keys[0] || k in keys[1..];
    }
  }

  /** The table after the first of a burst of calls on a new key. */
  lemma FirstOfBurst(c: Config, t: Table, key: Id, at: real)
    requires c.Valid() && key !in t && |t| <= MAX_BUCKETS
    ensures Allow(c, true, t, key, at) == (t[key := Bucket(c.Burst() - 1.0, at)], true)
    ensures Repeat(key, at, c.burst) == [Call(key, at)] + Repeat(key, at, c.burst - 1)
  {
  }

  /** A key without a bucket may spend the whole burst at once. */
  lemma FreshBurst(c: Config, t: Table, key: Id, at: real)
    requires c.Valid() && key !in t && |t| <= MAX_BUCKETS
    ensures TableAfter(c, true, t, Repeat(key, at, c.burst)) == t[key := Bucket(0.0, at)]
    ensures Allowed(Repeat(key, at, c.burst), Answers(c, true, t, Repeat(key, at, c.burst)), key) == c.burst
  {
    var t1 := t[key := Bucket(c.Burst() - 1.0, at)];
    var calls, rest := Repeat(key, at, c.burst), Repeat(key, at, c.burst - 1);
    FirstOfBurst(c, t, key, at);
    assert calls[0] == Call(key, at) && calls[1..] == rest;
    RepeatSpends(c, true, t1, key, at, c.burst - 1);
    assert TableAfter(c, true, t, calls) == TableAfter(c, true, t1, rest);
    assert Answers(c, true, t, calls) == [true] + Answers(c, true, t1, rest);
    assert Answers(c, true, t, calls)[1..] == Answers(c, true, t1, rest);
  }

  lemma {:induction false} AllowedAppend(xs: seq<Call>, a: seq<bool>, ys: seq<Call>, b: seq<bool>, key: Id)
    requires |a| == |xs| && |b| == |ys|
    ensures Allowed(xs + ys, a + b, key) == Allowed(xs, a, key) + Allowed(ys, b, key)
    decreases |xs|
  {
    if xs == [] {
      assert xs + ys == ys && a + b == b;
    } else {
      assert (xs + ys)[1..] == xs[1..] + ys && (a + b)[1..] == a[1..] + b;
      AllowedAppend(xs[1..], a[1..], ys, b, key);
    }
  }

  function Crowd(): (keys: seq<Id>)
    ensures |keys| == MAX_BUCKETS
  {
    seq(MAX_BUCKETS, i requires 0 <= i < MAX_BUCKETS => "k" + Domain.Decimal(i))
  }

  lemma CrowdIsDistinct()
    ensures NoDup(Crowd())
    ensures "a" !in Crowd() && "z" !in Crowd()
  {
    var keys := Crowd();
    forall i, j | 0 <= i < j < |keys|
      ensures keys[i] != keys[j]
    {
      assert keys[i][1..] == Domain.Decimal(i) && keys[j][1..] == Domain.Decimal(j);
      if keys[i] == keys[j] {
        Domain.DecimalInjective(i, j);
      }
    }
    assert forall i :: 0 <= i < |keys| ==> keys[i][0] == 'k';
  }

  /** One key spends its burst, enough others arrive to fill the table, and just over ten minutes later another
      newcomer makes the limiter sweep. */
  function Prelude(c: Config): seq<Call>
    requires c.Valid()
  {
    Repeat("a", 0.0, c.burst) + Inserts(Crowd(), 0.0)
  }

  function Moment(c: Config): real
    requires c.Valid()
  {
    IDLE_LIMIT + 30.0 / c.perMin as real
  }

  /** Then the first key spends its burst again. */
  function Tail(c: Config): seq<Call>
    requires c.Valid()
  {
    [Call("z", Moment(c))] + Repeat("a", Moment(c), c.burst)
  }

  lemma PreludeFills(c: Config)
    requires c.Valid()
    ensures var t := TableAfter(c, true, map[], Prelude(c));
            |t| == MAX_BUCKETS + 1 && "z" !in t && forall k :: k in t ==> t[k].last == 0.0
  {
    CrowdIsDistinct();
    FreshBurst(c, map[], "a", 0.0);
    InsertsAdd(c, true, map["a" := Bucket(0.0, 0.0)], Crowd(), 0.0);
    TableAppend(c, true, map[], Repeat("a", 0.0, c.burst), Inserts(Crowd(), 0.0));
  }

  /** What is allowed in the parts of a run adds up. */
  lemma AllowedInParts(c: Config, t: Table, xs: seq<Call>, ys: seq<Call>, key: Id)
    ensures Allowed(xs + ys, Answers(c, true, t, xs + ys), key)
         == Allowed(xs, Answers(c, true, t, xs), key) + Allowed(ys, Answers(c, true, TableAfter(c, true, t, xs), ys), key)
  {
    AnswersAppend(c, true, t, xs, ys);
    AllowedAppend(xs, Answers(c, true, t, xs), ys, Answers(c, true, TableAfter(c, true, t, xs), ys), key);
  }

  lemma PreludeIsAllowed(c: Config)
    requires c.Valid()
    ensures Allowed(Prelude(c), Answers(c, true, map[], Prelude(c)), "a") >= c.burst
  {
    FreshBurst(c, map[], "a", 0.0);
    AllowedInParts(c, map[], Repeat("a", 0.0, c.burst), Inserts(Crowd(), 0.0), "a");
  }

  /** The sweep forgets every bucket, and so that the first key had spent everything. */
  lemma NewcomerSweeps(c: Config, t: Table)
    requires c.Valid() && |t| > MAX_BUCKETS && "z" !in t && forall k :: k in t ==> t[k].last == 0.0
    ensures TableAfter(c, true, t, [Call("z", Moment(c))]) == map["z" := Bucket(c.Burst() - 1.0, Moment(c))]
  {
    var at := Moment(c);
    assert Swept(t, at) == map[];
    assert [Call("z", at)][1..] == [];
    assert Allow(c, true, t, "z", at).0 == map["z" := Bucket(c.Burst() - 1.0, at)];
  }

  lemma TailIsAllowed(c: Config, t: Table)
    requires c.Valid() && |t| > MAX_BUCKETS && "z" !in t && forall k :: k in t ==> t[k].last == 0.0
    ensures Allowed(Tail(c), Answers(c, true, t, Tail(c)), "a") >= c.burst
  {
    NewcomerSweeps(c, t);
    FreshBurst(c, map["z" := Bucket(c.Burst() - 1.0, Moment(c))], "a", Moment(c));
    AllowedInParts(c, t, [Call("z", Moment(c))], Repeat("a", Moment(c), c.burst), "a");
  }

  lemma TwoMomentsAreCut(xs: seq<Call>, ys: seq<Call>, from: real, to: real)
    requires 0.0 <= from <= to
    requires forall i :: 0 <= i < |xs| ==> xs[i].at == from
    requires forall i :: 0 <= i < |ys| ==> ys[i].at == to
    ensures Cut([], xs + ys, from, to)
  {
    assert [] + (xs + ys) == xs + ys;
  }

  lemma WitnessIsCut(c: Config)
    requires c.Valid()
    ensures Cut([], Prelude(c) + Tail(c), 0.0, Moment(c))
  {
    TwoMomentsAreCut(Prelude(c), Tail(c), 0.0, Moment(c));
  }

  /** In that run the first key gets its burst twice. */
  lemma WitnessAllowsTwice(c: Config)
    requires c.Valid()
    ensures AllowedIn(c, [], Prelude(c) + Tail(c), "a") >= 2 * c.burst
  {
    PreludeFills(c);
    PreludeIsAllowed(c);
    TailIsAllowed(c, TableAfter(c, true, map[], Prelude(c)));
    AllowedInParts(c, map[], Prelude(c), Tail(c), "a");
    WholeRun(c, Prelude(c) + Tail(c), "a");
  }

  lemma WholeRun(c: Config, calls: seq<Call>, key: Id)
    ensures AllowedIn(c, [], calls, key) == Allowed(calls, Answers(c, true, map[], calls), key)
  {
    assert [] + calls == calls;
    assert Answers(c, true, map[], calls)[0..] == Answers(c, true, map[], calls);
  }

  lemma WitnessExceeds(c: Config)
    requires c.Valid() && c.burst > 10 * c.perMin
    ensures AllowedIn(c, [], Prelude(c) + Tail(c), "a") as real > c.Burst() + Gain(c, Moment(c) - 0.0)
  {
    WitnessAllowsTwice(c);
    var p := c.perMin as real;
    assert Gain(c, Moment(c) - 0.0) == 10.0 * p + 0.5 by {
      assert 30.0 / p * p == 30.0;
    }
  }

  /** The rate bound holds in every window of every run exactly if the burst is at most ten minutes of refill. */
  lemma RateBoundIff(c: Config)
    requires c.Valid()
    ensures (forall before, window, key, from, to :: Cut(before, window, from, to) ==>
               AllowedIn(c, before, window, key) as real <= c.Burst() + Gain(c, to - from))
            <==> c.burst <= 10 * c.perMin
  {
    if c.burst <= 10 * c.perMin {
      forall before, window, key, from, to | Cut(before, window, from, to)
        ensures AllowedIn(c, before, window, key) as real <= c.Burst() + Gain(c, to - from)
      {
        RateBound(c, before, window, key, from, to);
      }
    } else {
      WitnessIsCut(c);
      WitnessExceeds(c);
    }
  }

  /** The limiter answers every run of calls like one that never evicts, exactly under the same condition. */
  lemma EvictionIsTransparentIff(c: Config)
    requires c.Valid()
    ensures (forall calls :: Monotone(calls, 0.0) ==> Answers(c, true, map[], calls) == Answers(c, false, map[], calls))
            <==> c.burst <= 10 * c.perMin
  {
    if c.burst <= 10 * c.perMin {
      forall calls | Monotone(calls, 0.0)
        ensures Answers(c, true, map[], calls) == Answers(c, false, map[], calls)
      {
        SameAnswers(c, map[], map[], calls, 0.0);
      }
    } else {
      WitnessDiffers(c);
    }
  }

  lemma WitnessDiffers(c: Config)
    requires c.Valid() && c.burst > 10 * c.perMin
    ensures var calls := Prelude(c) + Tail(c);
            Monotone(calls, 0.0) && Answers(c, true, map[], calls) != Answers(c, false, map[], calls)
  {
    var calls := Prelude(c) + Tail(c);
    WitnessIsCut(c);
    WitnessExceeds(c);
    WholeRun(c, calls, "a");
    CutIsMonotone([], calls, 0.0, Moment(c));
    FullBound(c, map[], calls, "a", 0.0, Moment(c));
  }
}
