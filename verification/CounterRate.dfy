/** SNMP counter rates computed by the agent, which owns counter continuity:
    the last raw value and time of every sensor, the wrap of 32-bit counters,
    resets and the sanity ceiling. */
module CounterRate {
  import opened Options

  const WRAP: int := 0x1_0000_0000
  const CEILING: real := 125_000_000_000.0

  datatype Kind = Counter32 | Counter64 | Counter | Other

  /** A result's value: absent, not an integer, or an integer. */
  datatype Value = Missing | Garbled | Number(n: int)

  datatype Prev = Prev(raw: int, ts: real)

  /** The rate of a new raw value, `last` being the previous one. */
  function Rate(kind: Kind, last: Option<Prev>, raw: int, ts: real): Option<real> {
    if last.None? || ts - last.value.ts < 1.0 then None
    else
      var delta := raw - last.value.raw;
      if delta < 0 && kind != Counter32 then None
      else
        var rate := (if delta < 0 then delta + WRAP else delta) as real / (ts - last.value.ts);
        if rate > CEILING then None else Some(rate)
  }

  function Remember(kind: Kind, last: Option<Prev>, v: Value, ts: real): Option<Prev> {
    if kind == Other || v.Missing? then last
    else if v.Garbled? then None
    else Some(Prev(v.n, ts))
  }

  function Reported(kind: Kind, last: Option<Prev>, v: Value, ts: real): Option<real> {
    if kind == Other || !v.Number? then None else Rate(kind, last, v.n, ts)
  }

  lemma RateTimesElapsed(delta: int, elapsed: real)
    requires elapsed >= 1.0
    ensures delta as real / elapsed * elapsed == delta as real
    ensures delta >= 0 ==> 0.0 <= delta as real / elapsed <= delta as real
    ensures delta < 0 ==> delta as real / elapsed < 0.0
  {
    var q := delta as real / elapsed;
    assert q * elapsed == delta as real;
    if delta >= 0 {
      assert q >= 0.0;
      assert q * (elapsed - 1.0) >= 0.0;
    } else {
      assert q < 0.0;
    }
  }

  /** A reported rate is at most the ceiling, and negative only for a 32-bit
      counter that fell by more than a whole wrap, which no 32-bit value can. */
  lemma RateRange(kind: Kind, last: Prev, raw: int, ts: real)
    ensures var r := Rate(kind, Some(last), raw, ts);
            r.Some? ==> r.value <= 125_000_000_000.0 && (r.value < 0.0 <==> raw - last.raw < -4_294_967_296)
  {
    var delta := raw - last.raw;
    if ts - last.ts >= 1.0 { RateTimesElapsed(if delta < 0 then delta + WRAP else delta, ts - last.ts); }
  }

  /** Exactly when a rate is reported, and that it is the increase per second: a
      second has passed, the value has not fallen (a 32-bit counter may: it has
      wrapped), and the rate is at most 125 GB/s. */
  lemma ReportedIff(kind: Kind, last: Option<Prev>, raw: int, ts: real)
    ensures var r := Rate(kind, last, raw, ts);
            if last.None? || ts - last.value.ts < 1.0 || (raw < last.value.raw && kind != Counter32) then r.None?
            else
              var up := raw - last.value.raw + if raw < last.value.raw then 4_294_967_296 else 0;
              && (r.Some? <==> up as real <= 125_000_000_000.0 * (ts - last.value.ts))
              && (r.Some? ==> r.value * (ts - last.value.ts) == up as real)
  {
    if last.Some? && ts - last.value.ts >= 1.0 && !(raw < last.value.raw && kind != Counter32) {
      var up := raw - last.value.raw + if raw < last.value.raw then 4_294_967_296 else 0;
      Quotient(up as real, ts - last.value.ts, 125_000_000_000.0);
    }
  }

  lemma Quotient(a: real, b: real, c: real)
    requires b >= 1.0
    ensures a / b * b == a && (a / b <= c <==> a <= c * b)
  {
    var q := a / b;
    assert q * b == a;
    if q <= c { assert (c - q) * b >= 0.0; } else { assert (q - c) * b > 0.0; }
  }

  /** What is remembered: nothing new of an absent value or another type, nothing
      at all after a garbled one, and every integer, reported or not. */
  lemma RememberMeans(kind: Kind, last: Option<Prev>, v: Value, ts: real)
    ensures kind == Other || v == Missing ==> Remember(kind, last, v, ts) == last && Reported(kind, last, v, ts) == None
    ensures kind != Other && v == Garbled ==> Remember(kind, last, v, ts) == None && Reported(kind, last, v, ts) == None
    ensures kind != Other && v.Number? ==>
              Remember(kind, last, v, ts) == Some(Prev(v.n, ts)) && Reported(kind, last, v, ts) == Rate(kind, last, v.n, ts)
  {
  }

  // ---------------------------------------- against an unbounded counter

  /** How a device shows an unbounded count: modulo 2^32 for a 32-bit counter,
      modulo anything for the others. */
  predicate Modulus(kind: Kind, m: int) { m > 0 && (kind == Counter32 ==> m == WRAP) }

  /** Residues of a grown count. */
  lemma Residues(t0: nat, t1: nat, m: int)
    requires m > 0 && t0 <= t1
    ensures var delta := t1 % m - t0 % m;
            && (t1 - t0 < m <==> t1 - t0 == if delta < 0 then delta + m else delta)
  {
    var delta := t1 % m - t0 % m;
    var q := t1 / m - t0 / m;
    assert t1 - t0 == q * m + delta by {
      assert t1 == t1 / m * m + t1 % m;
      assert t0 == t0 / m * m + t0 % m;
      assert q * m == t1 / m * m - t0 / m * m;
    }
    assert q >= 0;
    if q >= 1 { assert q * m >= m; }
    if q >= 2 { assert q * m >= 2 * m; }
  }

  /** A reported rate times the elapsed time is the true increase exactly when
      the count grew by less than its modulus. */
  lemma RateIsExactIff(kind: Kind, t0: nat, s0: real, t1: nat, s1: real, m: int)
    requires Modulus(kind, m) && t0 <= t1
    ensures var r := Rate(kind, Some(Prev(t0 % m, s0)), t1 % m, s1);
            r.Some? ==> (r.value * (s1 - s0) == (t1 - t0) as real <==> t1 - t0 < m)
  {
    Residues(t0, t1, m);
    var delta := t1 % m - t0 % m;
    if s1 - s0 >= 1.0 { RateTimesElapsed(if delta < 0 then delta + WRAP else delta, s1 - s0); }
  }

  /** A 32-bit counter is always reported after a second: even a full wrap in
      one second stays below the ceiling. */
  lemma Counter32Reported(t0: nat, s0: real, t1: nat, s1: real)
    requires t0 <= t1
    ensures Rate(Counter32, Some(Prev(t0 % WRAP, s0)), t1 % WRAP, s1).Some? <==> s1 - s0 >= 1.0
  {
    var delta := t1 % WRAP - t0 % WRAP;
    if s1 - s0 >= 1.0 { RateTimesElapsed(if delta < 0 then delta + WRAP else delta, s1 - s0); }
  }

  // ------------------------------------------------------------------ runs

  /** What one probe cycle of a sensor sees of a count that truly is `total`. */
  datatype Observation = Read(total: nat, ts: real) | NoValue(ts: real) | BadValue(ts: real)

  function Shown(o: Observation, m: int): Value
    requires m > 0
  {
    match o
    case Read(total, _) => Number(total % m)
    case NoValue(_) => Missing
    case BadValue(_) => Garbled
  }

  /** The increase a report stands for. */
  function Volume(kind: Kind, last: Option<Prev>, o: Observation, m: int): real
    requires m > 0
  {
    var r := Reported(kind, last, Shown(o, m), o.ts);
    if r.Some? && last.Some? then r.value * (o.ts - last.value.ts) else 0.0
  }

  /** What all reports of a run add up to. */
  function Sum(kind: Kind, last: Option<Prev>, obs: seq<Observation>, m: int): real
    requires m > 0
    decreases |obs|
  {
    if obs == [] then 0.0
    else Volume(kind, last, obs[0], m) + Sum(kind, Remember(kind, last, Shown(obs[0], m), obs[0].ts), obs[1..], m)
  }

  function Missed(kind: Kind, last: Option<Prev>, at: nat, o: Observation, m: int): nat
    requires m > 0 && at <= After(at, o)
  {
    if o.Read? && Reported(kind, last, Shown(o, m), o.ts).None? then o.total - at else 0
  }

  /** The growth no report stands for: seen by a reading that was not reported. */
  function Lost(kind: Kind, last: Option<Prev>, at: nat, obs: seq<Observation>, m: int): nat
    requires m > 0 && Rising(at, obs)
    decreases |obs|
  {
    if obs == [] then 0
    else
      var next := Remember(kind, last, Shown(obs[0], m), obs[0].ts);
      Missed(kind, last, at, obs[0], m) + Lost(kind, next, After(at, obs[0]), obs[1..], m)
  }

  function After(at: nat, o: Observation): nat { if o.Read? then o.total else at }

  predicate Rising(at: nat, obs: seq<Observation>)
    decreases |obs|
  {
    obs != [] ==> at <= After(at, obs[0]) && Rising(After(at, obs[0]), obs[1..])
  }

  /** Between two readings the count grows by less than its modulus. */
  predicate Slow(at: nat, obs: seq<Observation>, m: int)
    decreases |obs|
  {
    obs != [] ==> After(at, obs[0]) - at < m && Slow(After(at, obs[0]), obs[1..], m)
  }

  function Final(at: nat, obs: seq<Observation>): nat
    decreases |obs|
  {
    if obs == [] then at else Final(After(at, obs[0]), obs[1..])
  }

  ghost predicate Tracks(last: Option<Prev>, at: nat, m: int)
    requires m > 0
  {
    last.Some? ==> last.value.raw == at % m
  }

  lemma OneReading(kind: Kind, last: Option<Prev>, at: nat, o: Observation, m: int)
    requires kind != Other && Modulus(kind, m) && Tracks(last, at, m) && at <= After(at, o) < at + m
    ensures Tracks(Remember(kind, last, Shown(o, m), o.ts), After(at, o), m)
    ensures Volume(kind, last, o, m) + Missed(kind, last, at, o, m) as real == (After(at, o) - at) as real
    ensures 0.0 <= Volume(kind, last, o, m)
  {
    if o.Read? && last.Some? {
      RateIsExactIff(kind, at, last.value.ts, o.total, o.ts, m);
      hide Rate;
    }
  }

  /** Conservation of traffic: over any run, resets, gaps and quick samples
      included, the reports add up to the true increase less what unreported
      readings saw; they never exceed it, and equal it exactly when every
      reading that saw growth was reported. */
  lemma {:induction false} ReportsAddUp(kind: Kind, last: Option<Prev>, at: nat, obs: seq<Observation>, m: int)
    requires kind != Other && Modulus(kind, m) && Tracks(last, at, m) && Rising(at, obs) && Slow(at, obs, m)
    ensures at <= Final(at, obs)
    ensures Sum(kind, last, obs, m) + Lost(kind, last, at, obs, m) as real == (Final(at, obs) - at) as real
    ensures 0.0 <= Sum(kind, last, obs, m) <= (Final(at, obs) - at) as real
    decreases |obs|
  {
    if obs != [] {
      var o := obs[0];
      var next := Remember(kind, last, Shown(o, m), o.ts);
      OneReading(kind, last, at, o, m);
      hide Volume, Missed, Remember, Modulus;
      ReportsAddUp(kind, next, After(at, o), obs[1..], m);
    }
  }

  // ------------------------------------------------------------- the class

  class Counters {
    var prev: map<string, Prev>

    constructor ()
      ensures prev == map[]
    {
      prev := map[];
    }

    function Last(key: string): Option<Prev> reads this {
      if key in prev then Some(prev[key]) else None
    }

    method CounterRate(key: string, kind: Kind, v: Value, ts: real) returns (rate: Option<real>)
      modifies this
      ensures rate == Reported(kind, old(Last(key)), v, ts)
      ensures Last(key) == Remember(kind, old(Last(key)), v, ts)
      ensures forall k :: k != key ==> Last(k) == old(Last(k))
    {
      if kind == Other || v.Missing? { return None; }
      if v.Garbled? {
        prev := prev - {key};
        return None;
      }
      var cur := v.n;
      var last := Last(key);
      prev := prev[key := Prev(cur, ts)];
      if last.None? { return None; }
      var elapsed := ts - last.value.ts;
      var delta := cur - last.value.raw;
      if elapsed < 1.0 { return None; }
      if delta < 0 {
        if kind == Counter32 { delta := delta + WRAP; } else { return None; }
      }
      var r := delta as real / elapsed;
      if r > CEILING { return None; }
      rate := Some(r);
    }

    /** Sensors removed by a config sync start afresh. */
    method Forget(removed: seq<string>)
      modifies this
      ensures forall k :: Last(k) == if k in removed then None else old(Last(k))
    {
      for i := 0 to |removed|
        invariant forall k :: Last(k) == if k in removed[..i] then None else old(Last(k))
      {
        prev := prev - {removed[i]};
      }
    }
  }
}
