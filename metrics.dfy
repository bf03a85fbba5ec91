/**
 * include/lmgd/source/metric.hpp: `source::Metric`, which hands a track's
 * samples to the downstream sink. Wide tracks forward every sample; all
 * others go through a repeat counter that forwards a value, then stays
 * silent until the value changes or the counter reaches `max_repeats`.
 *
 * The value type is generic (only equality is used); the constructor's
 * `max_repeats` argument, which the source never stores, is an explicit
 * parameter here.
 */
module Metrics {
  import opened Wrappers
  import opened Types

  /** The default of the constructor's `max_repeats` argument. */
  const DefaultMaxRepeats: int := 8

  /** A sample handed to the sink: a time stamp in nanoseconds and a value. */
  datatype Sample<V> = Sample(time: int, value: V)

  /** `repeat_`, and `last_value_` (`None` until it is first written). */
  datatype Counter<V> = Counter(repeat: int, last: Option<V>)

  /** `last_value_` is written before any send can read it. */
  predicate Written<V>(c: Counter<V>)
  {
    c.repeat != 0 ==> c.last.Some?
  }

  /** What one `send` does to the counter, and whether it forwards its value. */
  function SendStep<V(==)>(bw: Bandwidth, maxRepeats: int, c: Counter<V>, v: V): (o: (Counter<V>, bool))
    requires Written(c)
    ensures Written(o.0)
    ensures o.1 <==> bw == Wide || c.repeat == 0
    ensures bw == Wide ==> o.0 == c
    ensures o.1 && bw != Wide ==> o.0.last == Some(v)
    ensures 2 <= maxRepeats && 0 <= c.repeat < maxRepeats ==> 0 <= o.0.repeat < maxRepeats
  {
    if bw == Wide then (c, true)
    else if c.repeat == 0 then (Counter(1, Some(v)), true)
    else
      var n := c.repeat + 1;
      if v != c.last.value || n == maxRepeats then (Counter(0, c.last), false) else (Counter(n, c.last), false)
  }

  /** Consecutive sends: the final counter and the values forwarded, in order. */
  function Run<V(==)>(bw: Bandwidth, maxRepeats: int, c: Counter<V>, vs: seq<V>): (o: (Counter<V>, seq<V>))
    requires Written(c)
    ensures Written(o.0)
    ensures |o.1| <= |vs|
    ensures forall i | 0 <= i < |o.1| :: o.1[i] in vs
    decreases |vs|
  {
    if vs == [] then (c, [])
    else
      var s := SendStep(bw, maxRepeats, c, vs[0]);
      var rest := Run(bw, maxRepeats, s.0, vs[1..]);
      (rest.0, (if s.1 then [vs[0]] else []) + rest.1)
  }

  /** On a wide track every sample is forwarded, and the counter is never touched. */
  lemma {:induction false} WideForwardsEverything<V>(maxRepeats: int, c: Counter<V>, vs: seq<V>)
    requires Written(c)
    ensures Run(Wide, maxRepeats, c, vs) == (c, vs)
    decreases |vs|
  {
    if vs != [] {
      WideForwardsEverything(maxRepeats, c, vs[1..]);
      assert [vs[0]] + vs[1..] == vs;
    }
  }

  /** A value other than the last forwarded one resets the counter and is dropped; the next sample is forwarded. */
  lemma ChangeForwardsNext<V>(bw: Bandwidth, maxRepeats: int, c: Counter<V>, v: V, w: V)
    requires Written(c) && bw != Wide && c.repeat != 0 && v != c.last.value
    ensures SendStep(bw, maxRepeats, c, v) == (Counter(0, c.last), false)
    ensures Run(bw, maxRepeats, c, [v, w]).1 == [w]
  {
    var c1 := Counter(0, c.last);
    assert [v, w][1..] == [w];
    assert Run(bw, maxRepeats, c1, [w]).1 == [w] by {
      assert Run(bw, maxRepeats, Counter(1, Some(w)), []).1 == [];
    }
  }

  /** `n` copies of `v`. */
  function Constant<V>(v: V, n: nat): (vs: seq<V>)
    ensures |vs| == n && forall i | 0 <= i < n :: vs[i] == v
  {
    if n == 0 then [] else [v] + Constant(v, n - 1)
  }

  /** While the value stays the last one forwarded, a counter at `k > 0` counts up silently and wraps to 0 at `max_repeats`. */
  lemma {:induction false} SilentRun<V>(bw: Bandwidth, maxRepeats: int, k: int, v: V, n: nat)
    requires bw != Wide && 0 < k < maxRepeats && n <= maxRepeats - k
    ensures var o := Run(bw, maxRepeats, Counter(k, Some(v)), Constant(v, n));
      o.1 == [] && o.0 == Counter(if n == maxRepeats - k then 0 else k + n, Some(v))
    decreases n
  {
    if n > 0 {
      var vs := Constant(v, n);
      assert vs[1..] == Constant(v, n - 1);
      if k + 1 == maxRepeats {
        assert Run(bw, maxRepeats, Counter(0, Some(v)), vs[1..]) == (Counter(0, Some(v)), []);
      } else {
        SilentRun(bw, maxRepeats, k + 1, v, n - 1);
      }
    }
  }

  /** k is ceil(n / m): the least k with n <= k * m. */
  predicate IsCeiling(k: int, n: int, m: int)
  {
    n <= k * m < n + m
  }

  lemma CeilingStep(k: int, n: int, m: int)
    requires IsCeiling(k, n - m, m)
    ensures IsCeiling(k + 1, n, m)
  {
    assert (k + 1) * m == k * m + m;
  }

  /** The first send of a run, and the rest. */
  lemma RunCons<V>(bw: Bandwidth, maxRepeats: int, c: Counter<V>, vs: seq<V>)
    requires Written(c) && vs != []
    ensures var s := SendStep(bw, maxRepeats, c, vs[0]);
      Run(bw, maxRepeats, c, vs).1 == (if s.1 then [vs[0]] else []) + Run(bw, maxRepeats, s.0, vs[1..]).1
  {
  }

  /**
   * A constant value, fed to a counter at 0, is forwarded once per
   * `max_repeats` samples: `n` sends forward ceil(n / max_repeats) of them.
   */
  lemma {:induction false} ConstantForwardsOncePerWindow<V>(bw: Bandwidth, maxRepeats: int, last: Option<V>, v: V, n: nat)
    requires bw != Wide && 2 <= maxRepeats
    ensures IsCeiling(|Run(bw, maxRepeats, Counter(0, last), Constant(v, n)).1|, n, maxRepeats)
    decreases n
  {
    if n > 0 {
      var vs := Constant(v, n);
      var c1 := Counter(1, Some(v));
      var rest := Constant(v, n - 1);
      assert vs[0] == v && vs[1..] == rest;
      RunCons(bw, maxRepeats, Counter(0, last), vs);
      assert Run(bw, maxRepeats, Counter(0, last), vs).1 == [v] + Run(bw, maxRepeats, c1, rest).1;
      if n < maxRepeats {
        SilentRun(bw, maxRepeats, 1, v, n - 1);
        assert 1 * maxRepeats == maxRepeats;
      } else {
        var tail := Run(bw, maxRepeats, Counter(0, Some(v)), Constant(v, n - maxRepeats)).1;
        RepeatsThenRestart(bw, maxRepeats, v, n);
        ConstantForwardsOncePerWindow(bw, maxRepeats, Some(v), v, n - maxRepeats);
        CeilingStep(|tail|, n, maxRepeats);
      }
    }
  }

  /** After the first send, the next `max_repeats - 1` sends are held back and the counter starts over. */
  lemma RepeatsThenRestart<V>(bw: Bandwidth, maxRepeats: int, v: V, n: nat)
    requires bw != Wide && 2 <= maxRepeats <= n
    ensures Run(bw, maxRepeats, Counter(1, Some(v)), Constant(v, n - 1)).1
      == Run(bw, maxRepeats, Counter(0, Some(v)), Constant(v, n - maxRepeats)).1
  {
    var m := maxRepeats - 1;
    var c1 := Counter(1, Some(v));
    ConstantSplit(v, m, n - maxRepeats);
    RunSplit(bw, maxRepeats, c1, Constant(v, m), Constant(v, n - maxRepeats));
    SilentRun(bw, maxRepeats, 1, v, m);
  }

  lemma ConstantSplit<V>(v: V, a: nat, b: nat)
    ensures Constant(v, a + b) == Constant(v, a) + Constant(v, b)
  {
  }

  /** Sending `a` then `b` is sending `a + b`. */
  lemma {:induction false} RunSplit<V>(bw: Bandwidth, maxRepeats: int, c: Counter<V>, a: seq<V>, b: seq<V>)
    requires Written(c)
    ensures var ra := Run(bw, maxRepeats, c, a);
      var rb := Run(bw, maxRepeats, ra.0, b);
      Run(bw, maxRepeats, c, a + b) == (rb.0, ra.1 + rb.1)
    decreases |a|
  {
    if a == [] {
      assert a + b == b;
      var ra := Run(bw, maxRepeats, c, a);
      assert ra == (c, []);
      assert ra.1 + Run(bw, maxRepeats, c, b).1 == Run(bw, maxRepeats, c, b).1;
    } else {
      assert (a + b)[0] == a[0] && (a + b)[1..] == a[1..] + b;
      var s := SendStep(bw, maxRepeats, c, a[0]);
      RunSplit(bw, maxRepeats, s.0, a[1..], b);
      var ra := Run(bw, maxRepeats, s.0, a[1..]);
      var rb := Run(bw, maxRepeats, ra.0, b);
      var head: seq<V> := if s.1 then [a[0]] else [];
      assert head + (ra.1 + rb.1) == (head + ra.1) + rb.1;
    }
  }

  /**
   * No value is withheld for long: from a counter at `k` (0 <= k < max_repeats),
   * more than `max_repeats - k` sends (one send when k is 0) forward at least
   * one sample, whatever the values.
   */
  lemma {:induction false} ForwardsWithin<V>(bw: Bandwidth, maxRepeats: int, c: Counter<V>, vs: seq<V>)
    requires Written(c) && 2 <= maxRepeats && 0 <= c.repeat < maxRepeats
    requires |vs| > (if c.repeat == 0 then 0 else maxRepeats - c.repeat)
    ensures |Run(bw, maxRepeats, c, vs).1| > 0
    decreases |vs|
  {
    var s := SendStep(bw, maxRepeats, c, vs[0]);
    if !s.1 {
      ForwardsWithin(bw, maxRepeats, s.0, vs[1..]);
    }
  }

  /** `max_repeats` consecutive sends from a counter in range always forward something. */
  lemma ForwardsEveryWindow<V>(bw: Bandwidth, maxRepeats: int, c: Counter<V>, vs: seq<V>)
    requires Written(c) && 2 <= maxRepeats && 0 <= c.repeat < maxRepeats && |vs| >= maxRepeats
    ensures |Run(bw, maxRepeats, c, vs).1| > 0
  {
    ForwardsWithin(bw, maxRepeats, c, vs);
  }

  /** `source::Metric`: the track's bandwidth, the repeat counter, and the samples the sink has received. */
  class Metric<V(==)> {
    const bandwidth: Bandwidth
    const maxRepeats: int
    var repeat: int
    var lastValue: Option<V>
    var sent: seq<Sample<V>>

    function State(): Counter<V>
      reads this
    {
      Counter(repeat, lastValue)
    }

    ghost predicate Valid()
      reads this
    {
      Written(State())
    }

    /** `Metric(track, metric, max_repeats)`: the counter starts at 0, nothing sent. */
    constructor (bw: Bandwidth, maxRepeats: int)
      ensures Valid() && bandwidth == bw && this.maxRepeats == maxRepeats
      ensures repeat == 0 && sent == []
    {
      bandwidth := bw;
      this.maxRepeats := maxRepeats;
      repeat := 0;
      lastValue := None;
      sent := [];
    }

    /** `send(tp, value)`. */
    method Send(tp: int, v: V)
      requires Valid()
      modifies this
      ensures Valid()
      ensures var o := SendStep(bandwidth, maxRepeats, old(State()), v);
        State() == o.0 && sent == old(sent) + (if o.1 then [Sample(tp, v)] else [])
    {
      if bandwidth == Wide {
        sent := sent + [Sample(tp, v)];
        return;
      }
      var was := repeat;
      repeat := repeat + 1;
      if was == 0 {
        lastValue := Some(v);
        sent := sent + [Sample(tp, v)];
      } else if v != lastValue.value || repeat == maxRepeats {
        repeat := 0;
      }
    }
  }
}
