/** One evaluation of the dashboard: the widget values of a page run go
    through the resolver, then the balance step, and come out as the figures
    the page computes. */
module Dashboard {
  import opened Resolver
  import opened Balance

  /** One device block as entered: the power draw, the hours typed in and the
      quick-select choice. */
  datatype DeviceEntry = DeviceEntry(watts: real, typedHours: real, preset: HoursPreset)

  /** Every widget value that feeds the calculation. */
  datatype Setup = Setup(
    battery: BatteryOption,
    ecoFlow: bool,
    panels: nat,
    wattsPerPanel: nat,
    sunHours: nat,
    drive: DriveTime,
    entries: seq<DeviceEntry>)

  /** The ranges the widgets enforce. The power-draw field has no bounds. */
  predicate WidgetRanges(s: Setup)
  {
    && 1 <= s.panels <= 10
    && 50 <= s.wattsPerPanel <= 500
    && s.sunHours <= 10
    && ValidDriveTime(s.drive)
    && 1 <= |s.entries| <= 10
    && forall i :: 0 <= i < |s.entries| ==> 0.0 <= s.entries[i].typedHours <= 24.0
  }

  /** All power draws entered are non-negative. */
  predicate NonNegativeWatts(s: Setup)
  {
    forall i :: 0 <= i < |s.entries| ==> s.entries[i].watts >= 0.0
  }

  /** The device list the page builds: each entry's hours after the
      quick-select is applied, its watts unchanged. */
  function ResolveDevices(entries: seq<DeviceEntry>): (ds: seq<Device>)
    ensures |ds| == |entries|
  {
    seq(|entries|, i requires 0 <= i < |entries| => ResolveDevice(entries[i]))
  }

  /** The device an entry resolves to. */
  function ResolveDevice(e: DeviceEntry): Device
  {
    Device(e.watts, ResolveHours(e.preset, e.typedHours))
  }

  /** Resolving keeps every draw, keeps typed hours where no quick-select
      is chosen, and keeps hours within a day when they were typed so. */
  lemma ResolveDevicesPointwise(entries: seq<DeviceEntry>)
    ensures forall i :: 0 <= i < |entries| ==>
              ResolveDevices(entries)[i].watts == entries[i].watts
              && (entries[i].preset == NoPreset ==> ResolveDevices(entries)[i].hours == entries[i].typedHours)
              && (0.0 <= entries[i].typedHours <= 24.0 ==> 0.0 <= ResolveDevices(entries)[i].hours <= 24.0)
  {
  }

  /** Appending an entry appends its resolved device. */
  lemma ResolveDevicesAppend(entries: seq<DeviceEntry>, e: DeviceEntry)
    ensures ResolveDevices(entries + [e])
            == ResolveDevices(entries) + [ResolveDevice(e)]
  {
  }

  /** The figures the page computes. All but the net figure are displayed;
      of the device table only the "Daily Wh" column is kept, since its other
      columns are the resolved devices themselves. */
  datatype Report = Report(
    capacityWh: nat,
    consumptionWh: real,
    inputWh: real,
    netWh: real,
    percentUsed: real,
    progress: real,
    runtimeDays: real,
    runtimeHours: real,
    status: Status,
    dailyWhColumn: seq<real>)

  /** Daily input for a setup: solar plus alternator. */
  function SetupInput(s: Setup): real
  {
    DailyInput(SolarInput(s.panels, s.wattsPerPanel, s.sunHours) as real, AlternatorInput(s.drive))
  }

  /** Daily consumption for a setup. */
  function SetupConsumption(s: Setup): real
  {
    Consumption(ResolveDevices(s.entries))
  }

  /** Evaluate one page run. The capacity is always at least one battery, so
      percentage and runtime are defined for every setup. Each computed
      figure is the balance step's figure for the setup's capacity, usage and
      input, and the contract spells out what those figures mean. */
  function Evaluate(s: Setup): (r: Report)
    ensures r.capacityWh == Capacity(s.battery, s.ecoFlow) >= WhPerBattery
    ensures r.consumptionWh == SetupConsumption(s)
    ensures r.inputWh == SetupInput(s)
    ensures r.inputWh + r.netWh == r.consumptionWh
    ensures r.percentUsed == PercentUsed(r.consumptionWh, r.capacityWh as real)
    ensures r.percentUsed <= 100.0 && r.progress <= 1.0
    ensures r.percentUsed == 100.0 <==> r.consumptionWh >= r.capacityWh as real
    ensures r.progress * 100.0 == r.percentUsed
    ensures r.runtimeDays == RuntimeDays(r.capacityWh as real, r.consumptionWh, r.inputWh)
    ensures 0.0 < r.runtimeDays <= r.capacityWh as real
    ensures r.netWh <= 1.0 ==> r.runtimeDays == r.capacityWh as real
    ensures r.runtimeHours == 24.0 * r.runtimeDays
    ensures r.status == StatusTier(r.consumptionWh, r.inputWh, r.runtimeDays)
    ensures r.status == Sustainable <==> r.netWh <= 0.0
    ensures r.status == Stable <==> r.netWh > 0.0 && r.runtimeDays >= 3.0
    ensures r.status == Moderate <==> r.netWh > 0.0 && 1.0 <= r.runtimeDays < 3.0
    ensures r.status == Critical <==> r.netWh > 0.0 && r.runtimeDays < 1.0
    ensures r.dailyWhColumn == DailyWhColumn(ResolveDevices(s.entries))
    ensures Sum(r.dailyWhColumn) == r.consumptionWh
    ensures WidgetRanges(s) ==> 0.0 <= r.inputWh <= 52400.0
    ensures WidgetRanges(s) && NonNegativeWatts(s) ==>
              r.consumptionWh >= 0.0 && 0.0 <= r.percentUsed && 0.0 <= r.progress
  {
    var capacity := Capacity(s.battery, s.ecoFlow);
    var devices := ResolveDevices(s.entries);
    var consumption := Consumption(devices);
    var input := SetupInput(s);
    var percent := PercentUsed(consumption, capacity as real);
    var days := RuntimeDays(capacity as real, consumption, input);
    ColumnSumIsConsumption(devices);
    ProgressOfPercent(consumption, capacity as real);
    InputBounds(s);
    UsageNonNegative(s);
    Report(
      capacity,
      consumption,
      input,
      NetDaily(consumption, input),
      percent,
      Progress(percent),
      days,
      RuntimeHours(capacity as real, consumption, input),
      StatusTier(consumption, input, days),
      DailyWhColumn(devices))
  }

  /** With non-negative draws, and hours kept in range by the widgets and the
      quick-selects, daily usage is never negative. */
  lemma UsageNonNegative(s: Setup)
    ensures WidgetRanges(s) && NonNegativeWatts(s) ==> SetupConsumption(s) >= 0.0
  {
    if WidgetRanges(s) && NonNegativeWatts(s) {
      var ds := ResolveDevices(s.entries);
      ResolveDevicesPointwise(s.entries);
      assert NonNegativeLoads(ds) by {
        forall i | 0 <= i < |ds|
          ensures ds[i].watts >= 0.0 && ds[i].hours >= 0.0
        {
          assert 0.0 <= s.entries[i].typedHours <= 24.0;
        }
      }
      ConsumptionNonNegative(ds);
    }
  }

  /** Within the widget ranges daily input lies between nothing and 52.4 kWh
      (50 kWh of solar plus 2.4 kWh from the alternator). */
  lemma InputBounds(s: Setup)
    ensures WidgetRanges(s) ==> 0.0 <= SetupInput(s) <= 52400.0
  {
    if WidgetRanges(s) {
      SolarInputBounds(s.panels, s.wattsPerPanel, s.sunHours);
    }
  }

  /** The same page with one more device block at the end. */
  function AddDevice(s: Setup, e: DeviceEntry): Setup
  {
    s.(entries := s.entries + [e])
  }

  /** Adding one more device adds exactly its resolved daily Wh to the usage,
      which is never negative for a non-negative draw. */
  lemma UsageGrowsWithDevice(s: Setup, e: DeviceEntry)
    ensures SetupConsumption(AddDevice(s, e)) == SetupConsumption(s) + DailyWh(ResolveDevice(e))
    ensures e.watts >= 0.0 && 0.0 <= e.typedHours <= 24.0 ==>
              SetupConsumption(s) <= SetupConsumption(AddDevice(s, e))
  {
    var d := ResolveDevice(e);
    var ds := ResolveDevices(s.entries);
    var ds' := ResolveDevices(s.entries + [e]);
    assert ds' == ds + [d] by {
      ResolveDevicesAppend(s.entries, e);
    }
    assert Consumption(ds') == Consumption(ds) + DailyWh(d) by {
      ConsumptionAppend(ds, d);
    }
    assert SetupConsumption(AddDevice(s, e)) == Consumption(ds');
    if e.watts >= 0.0 && 0.0 <= e.typedHours <= 24.0 {
      DailyWhNonNegative(d);
    }
  }

  /** Adding one more device with a non-negative draw never shows a better
      status nor a longer runtime: usage can only grow while capacity and
      input stay put. */
  lemma AddingDeviceNeverImprovesStatus(s: Setup, e: DeviceEntry)
    requires e.watts >= 0.0 && 0.0 <= e.typedHours <= 24.0
    ensures Rank(Evaluate(AddDevice(s, e)).status) <= Rank(Evaluate(s).status)
    ensures Evaluate(AddDevice(s, e)).runtimeDays <= Evaluate(s).runtimeDays
  {
    var s' := AddDevice(s, e);
    var capacity := Capacity(s.battery, s.ecoFlow) as real;
    var input := SetupInput(s);
    var cons, cons' := SetupConsumption(s), SetupConsumption(s');
    assert cons <= cons' by {
      UsageGrowsWithDevice(s, e);
    }
    assert Capacity(s'.battery, s'.ecoFlow) as real == capacity && SetupInput(s') == input;
    assert Rank(Tier(capacity, cons', input)) <= Rank(Tier(capacity, cons, input)) by {
      TierAntitoneInConsumption(capacity, cons, cons', input);
    }
    assert RuntimeDays(capacity, cons', input) <= RuntimeDays(capacity, cons, input) by {
      RuntimeAntitoneInConsumption(capacity, cons, cons', input);
    }
  }

  /** A deficit of at most 1 Wh a day always reads as stable, since every
      selectable bank holds far more than three days of such a deficit. */
  lemma TinyDeficitIsStable(s: Setup)
    requires SetupInput(s) < SetupConsumption(s) <= SetupInput(s) + 1.0
    ensures Evaluate(s).status == Stable
  {
    SmallDeficitIsStable(Capacity(s.battery, s.ecoFlow) as real, SetupConsumption(s), SetupInput(s));
  }

  /** Default-looking page: three batteries, two 200 W panels in 4 h of sun,
      30 minutes of driving, a 50 W fridge for 10 h and a 20 W heater for 2 h.
      Input covers usage, and the runtime is the capacity over the 1 Wh
      floor, not an unbounded value. */
  lemma SustainableScenario()
    ensures var r := Evaluate(Setup(ThreeBatteries, false, 2, 200, 4, ThirtyMinutes,
                                    [DeviceEntry(50.0, 10.0, NoPreset), DeviceEntry(20.0, 2.0, NoPreset)]));
            && r.capacityWh == 7200 && r.consumptionWh == 540.0 && r.inputWh == 1840.0
            && r.netWh == -1300.0 && r.runtimeDays == 7200.0 && r.status == Sustainable
  {
    var fridge, heater := Device(50.0, 10.0), Device(20.0, 2.0);
    var s := Setup(ThreeBatteries, false, 2, 200, 4, ThirtyMinutes,
                   [DeviceEntry(50.0, 10.0, NoPreset), DeviceEntry(20.0, 2.0, NoPreset)]);
    assert SetupConsumption(s) == 540.0 by {
      assert ResolveDevices(s.entries) == [fridge] + [heater];
      assert [fridge] == [] + [fridge];
      ConsumptionAppend([], fridge);
      ConsumptionAppend([fridge], heater);
    }
    assert SetupInput(s) == 1840.0;
  }

  /** One battery, no charging, a 500 W load for 5 h: 2500 Wh a day against
      2400 Wh stored lasts 0.96 days, which is critical. */
  lemma CriticalScenario()
    ensures var r := Evaluate(Setup(OneBattery, false, 1, 50, 0, Custom(0.0),
                                    [DeviceEntry(500.0, 5.0, NoPreset)]));
            && r.consumptionWh == 2500.0 && r.inputWh == 0.0 && r.percentUsed == 100.0
            && r.runtimeDays == 0.96 && r.status == Critical
  {
    var s := Setup(OneBattery, false, 1, 50, 0, Custom(0.0), [DeviceEntry(500.0, 5.0, NoPreset)]);
    assert SetupConsumption(s) == 2500.0 by {
      assert ResolveDevices(s.entries) == [] + [Device(500.0, 5.0)];
      ConsumptionAppend([], Device(500.0, 5.0));
    }
    assert SetupInput(s) == 0.0;
  }

  /** Two batteries, one 150 W panel in 4 h of sun, no driving, and a 90 W
      load on the "Working day" quick-select (its typed hours ignored): a
      300 Wh deficit against 4800 Wh lasts 16 days, which is stable. */
  lemma StableScenario()
    ensures var r := Evaluate(Setup(TwoBatteries, false, 1, 150, 4, Custom(0.0),
                                    [DeviceEntry(90.0, 3.0, WorkingDay)]));
            && r.consumptionWh == 900.0 && r.inputWh == 600.0 && r.netWh == 300.0
            && r.runtimeDays == 16.0 && r.runtimeHours == 384.0 && r.status == Stable
  {
    var s := Setup(TwoBatteries, false, 1, 150, 4, Custom(0.0), [DeviceEntry(90.0, 3.0, WorkingDay)]);
    assert SetupConsumption(s) == 900.0 by {
      assert ResolveDevices(s.entries) == [] + [Device(90.0, 10.0)];
      ConsumptionAppend([], Device(90.0, 10.0));
    }
    assert SetupInput(s) == 600.0;
  }
}
