/** The balance step: daily consumption over the device list, daily input,
    the net figure, percent of capacity used, runtime and the status tier.

    All quantities are exact reals standing in for the dashboard's floats.
    Capacity enters as a real that must be positive; the resolver guarantees
    it is at least 2400 Wh. */
module Balance {

  /** One row of the device list once its hours are resolved. The device
      name is display-only and is not carried. */
  datatype Device = Device(watts: real, hours: real)

  /** The "Daily Wh" of one device. */
  function DailyWh(d: Device): real
  {
    d.watts * d.hours
  }

  /** A device with non-negative draw and hours uses a non-negative amount. */
  lemma DailyWhNonNegative(d: Device)
    requires d.watts >= 0.0 && d.hours >= 0.0
    ensures d.watts * d.hours >= 0.0
  {
  }

  /** Every device in the list has a non-negative draw and non-negative hours. */
  predicate NonNegativeLoads(ds: seq<Device>)
  {
    forall i :: 0 <= i < |ds| ==> ds[i].watts >= 0.0 && ds[i].hours >= 0.0
  }

  /** Daily consumption: the sum of watts times hours over the list, added up
      left to right as Python's `sum` does. */
  function Consumption(ds: seq<Device>): real
  {
    if |ds| == 0 then 0.0 else Consumption(ds[..|ds| - 1]) + DailyWh(ds[|ds| - 1])
  }

  /** Sum of a column of reals, left to right. */
  function Sum(xs: seq<real>): real
  {
    if |xs| == 0 then 0.0 else Sum(xs[..|xs| - 1]) + xs[|xs| - 1]
  }

  /** The "Daily Wh" column of the device table: one entry per device. */
  function DailyWhColumn(ds: seq<Device>): (col: seq<real>)
    ensures |col| == |ds|
    ensures forall i :: 0 <= i < |ds| ==> col[i] == ds[i].watts * ds[i].hours
  {
    seq(|ds|, i requires 0 <= i < |ds| => DailyWh(ds[i]))
  }

  /** Adding a device to the end of the list adds exactly its daily Wh. */
  lemma ConsumptionAppend(ds: seq<Device>, d: Device)
    ensures Consumption(ds + [d]) == Consumption(ds) + d.watts * d.hours
  {
    assert (ds + [d])[..|ds|] == ds;
  }

  /** Consumption of two lists joined is the sum of their consumptions. */
  lemma {:induction false} ConsumptionConcat(a: seq<Device>, b: seq<Device>)
    ensures Consumption(a + b) == Consumption(a) + Consumption(b)
    decreases |b|
  {
    if |b| == 0 {
      assert a + b == a;
    } else {
      var init := b[..|b| - 1];
      var last := b[|b| - 1];
      assert b == init + [last];
      assert a + b == (a + init) + [last];
      ConsumptionAppend(a + init, last);
      ConsumptionConcat(a, init);
      ConsumptionAppend(init, last);
    }
  }

  /** Adding a device at the front adds exactly its daily Wh too. */
  lemma ConsumptionPrepend(d: Device, ds: seq<Device>)
    ensures Consumption([d] + ds) == d.watts * d.hours + Consumption(ds)
  {
    ConsumptionConcat([d], ds);
    assert [d][..0] == [];
  }

  /** A list is its prefix before j, its element at j and its suffix after j. */
  lemma SplitAt<T>(b: seq<T>, j: nat)
    requires j < |b|
    ensures b == b[..j] + [b[j]] + b[j + 1..]
  {
  }

  /** Taking the device at position j out of the list takes exactly its
      daily Wh out of the total. */
  lemma ConsumptionRemoveAt(b: seq<Device>, j: nat)
    requires j < |b|
    ensures Consumption(b) == Consumption(b[..j] + b[j + 1..]) + DailyWh(b[j])
  {
    var left, x, right := b[..j], b[j], b[j + 1..];
    var withX := left + [x];
    assert Consumption(b) == Consumption(withX) + Consumption(right) by {
      SplitAt(b, j);
      ConsumptionConcat(withX, right);
    }
    assert Consumption(withX) == Consumption(left) + DailyWh(x) by {
      ConsumptionAppend(left, x);
    }
    assert Consumption(left + right) == Consumption(left) + Consumption(right) by {
      ConsumptionConcat(left, right);
    }
  }

  /** Removing one occurrence of x from both sides of a multiset equation. */
  lemma MultisetCancel<T>(m1: multiset<T>, m2: multiset<T>, x: T)
    requires m1 + multiset{x} == m2 + multiset{x}
    ensures m1 == m2
  {
    assert m1 == (m1 + multiset{x}) - multiset{x};
    assert m2 == (m2 + multiset{x}) - multiset{x};
  }

  /** Listing the same devices in any order gives the same total. */
  lemma {:induction false} ConsumptionPermutation(a: seq<Device>, b: seq<Device>)
    requires multiset(a) == multiset(b)
    ensures Consumption(a) == Consumption(b)
    decreases |a|
  {
    if |a| == 0 {
      assert |b| == |multiset(b)| == 0;
    } else {
      var init, x := a[..|a| - 1], a[|a| - 1];
      assert multiset(a) == multiset(init) + multiset{x} by {
        assert a == init + [x];
      }
      assert x in multiset(b);
      var j :| 0 <= j < |b| && b[j] == x;
      var rest := b[..j] + b[j + 1..];
      assert multiset(b) == multiset(rest) + multiset{x} by {
        assert b == b[..j] + [x] + b[j + 1..];
      }
      MultisetCancel(multiset(init), multiset(rest), x);
      ConsumptionPermutation(init, rest);
      ConsumptionAppend(init, x);
      assert a == init + [x];
      ConsumptionRemoveAt(b, j);
    }
  }

  /** With non-negative watts and hours no list consumes a negative amount. */
  lemma {:induction false} ConsumptionNonNegative(ds: seq<Device>)
    requires NonNegativeLoads(ds)
    ensures Consumption(ds) >= 0.0
    decreases |ds|
  {
    if |ds| > 0 {
      var init := ds[..|ds| - 1];
      assert NonNegativeLoads(init) by {
        forall i | 0 <= i < |init|
          ensures init[i].watts >= 0.0 && init[i].hours >= 0.0
        {
          assert init[i] == ds[i];
        }
      }
      ConsumptionNonNegative(init);
      var last := ds[|ds| - 1];
      DailyWhNonNegative(last);
    }
  }

  /** The total shown as "Total Daily Usage" equals the sum of the device
      table's "Daily Wh" column. */
  lemma {:induction false} ColumnSumIsConsumption(ds: seq<Device>)
    ensures Sum(DailyWhColumn(ds)) == Consumption(ds)
    decreases |ds|
  {
    if |ds| > 0 {
      var init := ds[..|ds| - 1];
      assert DailyWhColumn(ds)[..|ds| - 1] == DailyWhColumn(init);
      ColumnSumIsConsumption(init);
    }
  }

  /** The generator sum written as a loop: it accumulates the same total. */
  method SumConsumption(ds: seq<Device>) returns (total: real)
    ensures total == Consumption(ds)
    ensures NonNegativeLoads(ds) ==> total >= 0.0
  {
    total := 0.0;
    var i := 0;
    while i < |ds|
      invariant 0 <= i <= |ds|
      invariant total == Consumption(ds[..i])
    {
      assert ds[..i + 1][..i] == ds[..i];
      total := total + DailyWh(ds[i]);
      i := i + 1;
    }
    assert ds[..i] == ds;
    if NonNegativeLoads(ds) {
      ConsumptionNonNegative(ds);
    }
  }

  /** Daily input: solar plus alternator. */
  function DailyInput(solarWh: real, alternatorWh: real): (wh: real)
    ensures wh - alternatorWh == solarWh
    ensures solarWh >= 0.0 && alternatorWh >= 0.0 ==> wh >= solarWh && wh >= alternatorWh
  {
    solarWh + alternatorWh
  }

  /** Net daily figure as the dashboard computes it: consumption minus input,
      so a positive value is a deficit drawn from the batteries. */
  function NetDaily(consumption: real, input: real): (net: real)
    ensures net <= 0.0 <==> input >= consumption
    ensures input + net == consumption
  {
    consumption - input
  }

  /** Daily usage as a percentage of capacity, capped at 100. Below the cap
      it is the exact ratio; the cap is reached exactly when a day's usage
      would empty the full bank. */
  function PercentUsed(consumption: real, capacity: real): (p: real)
    requires capacity > 0.0
    ensures p <= 100.0
    ensures consumption >= 0.0 ==> p >= 0.0
    ensures p == 100.0 <==> consumption >= capacity
    ensures p < 100.0 ==> p * capacity == consumption * 100.0
  {
    var ratio := consumption / capacity * 100.0;
    if ratio <= 100.0 then ratio else 100.0
  }

  /** Using more never shows a smaller percentage. */
  lemma PercentUsedMonotone(c1: real, c2: real, capacity: real)
    requires capacity > 0.0 && c1 <= c2
    ensures PercentUsed(c1, capacity) <= PercentUsed(c2, capacity)
  {
    DivMonotone(c1, c2, capacity);
  }

  /** The fill of the progress bar, capped at 1. */
  function Progress(percent: real): (f: real)
    ensures f <= 1.0
    ensures percent <= 100.0 ==> f * 100.0 == percent
    ensures percent >= 100.0 ==> f == 1.0
  {
    var fraction := percent / 100.0;
    if fraction <= 1.0 then fraction else 1.0
  }

  /** The progress bar shows exactly the percentage: its own cap never cuts
      in, because the percentage is already capped; with non-negative usage
      it is a proper fraction. */
  lemma ProgressOfPercent(consumption: real, capacity: real)
    requires capacity > 0.0
    ensures Progress(PercentUsed(consumption, capacity)) == PercentUsed(consumption, capacity) / 100.0
    ensures consumption >= 0.0 ==> 0.0 <= Progress(PercentUsed(consumption, capacity)) <= 1.0
  {
  }

  /** The runtime divisor: the deficit, but never below 1 Wh. */
  function RuntimeDivisor(consumption: real, input: real): (d: real)
    ensures d >= 1.0
    ensures d >= consumption - input
    ensures d == 1.0 || d == consumption - input
  {
    if consumption - input >= 1.0 then consumption - input else 1.0
  }

  /** Days the bank lasts at the current deficit. It is always positive and
      never more than the capacity; when input covers usage (or falls short
      by at most 1 Wh) it is the capacity itself, and otherwise it is the
      number of days whose deficits add up to the capacity. */
  function RuntimeDays(capacity: real, consumption: real, input: real): (days: real)
    requires capacity > 0.0
    ensures 0.0 < days <= capacity
    ensures consumption - input <= 1.0 ==> days == capacity
    ensures consumption - input >= 1.0 ==> days * (consumption - input) == capacity
  {
    capacity / RuntimeDivisor(consumption, input)
  }

  /** Runtime in hours: 24 per day of runtime. */
  function RuntimeHours(capacity: real, consumption: real, input: real): (hours: real)
    requires capacity > 0.0
    ensures hours / 24.0 == RuntimeDays(capacity, consumption, input)
    ensures 0.0 < hours <= 24.0 * capacity
  {
    RuntimeDays(capacity, consumption, input) * 24.0
  }

  /** x / c is monotone in x for positive c. */
  lemma DivMonotone(x: real, y: real, c: real)
    requires c > 0.0 && x <= y
    ensures x / c <= y / c
  {
    assert y / c - x / c == (y - x) / c;
  }

  /** c / d is antitone in d for positive divisors and non-negative c. */
  lemma DivAntitone(c: real, d1: real, d2: real)
    requires c >= 0.0 && 0.0 < d1 <= d2
    ensures c / d2 <= c / d1
  {
    assert c / d1 - c / d2 == c * (d2 - d1) / (d1 * d2);
    assert c * (d2 - d1) >= 0.0;
    assert d1 * d2 > 0.0;
  }

  /** With capacity and input fixed, using more never lengthens the runtime. */
  lemma RuntimeAntitoneInConsumption(capacity: real, c1: real, c2: real, input: real)
    requires capacity > 0.0 && c1 <= c2
    ensures RuntimeDays(capacity, c2, input) <= RuntimeDays(capacity, c1, input)
  {
    DivAntitone(capacity, RuntimeDivisor(c1, input), RuntimeDivisor(c2, input));
  }

  /** With capacity and usage fixed, charging more never shortens the runtime. */
  lemma RuntimeMonotoneInInput(capacity: real, consumption: real, i1: real, i2: real)
    requires capacity > 0.0 && i1 <= i2
    ensures RuntimeDays(capacity, consumption, i1) <= RuntimeDays(capacity, consumption, i2)
  {
    DivAntitone(capacity, RuntimeDivisor(consumption, i2), RuntimeDivisor(consumption, i1));
  }

  /** The four status messages. */
  datatype Status = Sustainable | Stable | Moderate | Critical

  /** Order of the tiers from worst (0) to best (3). */
  function Rank(s: Status): nat
  {
    match s
    case Critical => 0
    case Moderate => 1
    case Stable => 2
    case Sustainable => 3
  }

  /** The status tier, first match wins: sustainable when input covers
      usage, then stable from three days of runtime, critical under one day,
      moderate in between. The four conditions partition all inputs. */
  function StatusTier(consumption: real, input: real, days: real): (s: Status)
    ensures s == Sustainable <==> input >= consumption
    ensures s == Stable <==> input < consumption && days >= 3.0
    ensures s == Critical <==> input < consumption && days < 1.0
    ensures s == Moderate <==> input < consumption && 1.0 <= days < 3.0
  {
    if input >= consumption then Sustainable
    else if days >= 3.0 then Stable
    else if days < 1.0 then Critical
    else Moderate
  }

  /** The tier the dashboard shows for a capacity, usage and input. */
  function Tier(capacity: real, consumption: real, input: real): Status
    requires capacity > 0.0
  {
    StatusTier(consumption, input, RuntimeDays(capacity, consumption, input))
  }

  /** Raising usage, with capacity and input fixed, never moves the status to
      a better tier. */
  lemma TierAntitoneInConsumption(capacity: real, c1: real, c2: real, input: real)
    requires capacity > 0.0 && c1 <= c2
    ensures Rank(Tier(capacity, c2, input)) <= Rank(Tier(capacity, c1, input))
  {
    RuntimeAntitoneInConsumption(capacity, c1, c2, input);
  }

  /** Raising input, with capacity and usage fixed, never moves the status to
      a worse tier. */
  lemma TierMonotoneInInput(capacity: real, consumption: real, i1: real, i2: real)
    requires capacity > 0.0 && i1 <= i2
    ensures Rank(Tier(capacity, consumption, i1)) <= Rank(Tier(capacity, consumption, i2))
  {
    RuntimeMonotoneInInput(capacity, consumption, i1, i2);
  }

  /** A deficit of at most 1 Wh a day is floored to 1, so the runtime is the
      whole capacity and any bank of at least 3 Wh reads as stable. */
  lemma SmallDeficitIsStable(capacity: real, consumption: real, input: real)
    requires capacity >= 3.0
    requires input < consumption <= input + 1.0
    ensures Tier(capacity, consumption, input) == Stable
  {
  }
}
