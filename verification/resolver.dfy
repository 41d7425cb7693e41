/** The configuration resolver: turns the dashboard's discrete selections
    (battery-bank slider, EcoFlow checkbox, solar widgets, driving-time radio,
    per-device quick-select) into the numbers the balance step works on.

    Battery capacity is a Python integer in the dashboard, because it is the
    leading digit of the slider label converted to an integer and multiplied
    by integer constants; the solar figures are integers because the solar
    widgets are declared with integer bounds. Both are `nat` here. Drive time
    and device hours are floats, modelled as exact `real`s. */
module Resolver {

  /** Watt-hours of one Renogy battery: 200 Ah at 12 V. */
  const WhPerBattery: nat := 200 * 12

  /** Watt-hours of the optional EcoFlow Delta Pro pack. */
  const EcoFlowWh: nat := 3600

  /** Charging power of the DC-DC alternator charger: 40 A at 12 V. */
  const AlternatorWatts: real := 480.0

  // ---------------------------------------------------------------------------
  // Storage
  // ---------------------------------------------------------------------------

  /** The four positions of the battery-bank slider, in slider order. */
  datatype BatteryOption = OneBattery | TwoBatteries | ThreeBatteries | FourBatteries

  /** The battery count the dashboard reads off the leading digit of the label. */
  function BatteryCount(o: BatteryOption): (n: nat)
    ensures 1 <= n <= 4
  {
    match o
    case OneBattery => 1
    case TwoBatteries => 2
    case ThreeBatteries => 3
    case FourBatteries => 4
  }

  /** The kWh figure printed in each slider label, e.g. "3 Batteries (7.2kWh)". */
  function LabelKWh(o: BatteryOption): real
  {
    match o
    case OneBattery => 2.4
    case TwoBatteries => 4.8
    case ThreeBatteries => 7.2
    case FourBatteries => 9.6
  }

  /** The kWh figure printed on the EcoFlow checkbox: "(3.6kWh)". */
  const EcoFlowLabelKWh: real := 3.6

  /** Total storage: the battery bank plus the EcoFlow pack when it is ticked.
      Every capacity is at least one battery's worth, so it can always be
      divided by; and because the pack is not a multiple of a battery, the
      capacity alone tells whether the pack is included. */
  function Capacity(o: BatteryOption, ecoFlow: bool): (wh: nat)
    ensures WhPerBattery <= wh <= 4 * WhPerBattery + EcoFlowWh
    ensures ecoFlow <==> wh % WhPerBattery != 0
    ensures wh / WhPerBattery == BatteryCount(o) + (if ecoFlow then 1 else 0)
  {
    BatteryCount(o) * WhPerBattery + (if ecoFlow then EcoFlowWh else 0)
  }

  /** The capacity reported is the one the user picked from the labels. */
  lemma CapacityMatchesLabels(o: BatteryOption, ecoFlow: bool)
    ensures Capacity(o, ecoFlow) as real
            == LabelKWh(o) * 1000.0 + (if ecoFlow then EcoFlowLabelKWh * 1000.0 else 0.0)
  {
  }

  /** No two selections give the same capacity: the capacity identifies both
      the slider position and the checkbox. */
  lemma CapacityDeterminesSelection(o1: BatteryOption, e1: bool, o2: BatteryOption, e2: bool)
    requires Capacity(o1, e1) == Capacity(o2, e2)
    ensures o1 == o2 && e1 == e2
  {
    var c := Capacity(o1, e1);
    assert e1 == e2;
    assert BatteryCount(o1) == BatteryCount(o2);
  }

  /** More batteries never means less storage. */
  lemma CapacityMonotone(o1: BatteryOption, o2: BatteryOption, ecoFlow: bool)
    requires BatteryCount(o1) <= BatteryCount(o2)
    ensures Capacity(o1, ecoFlow) <= Capacity(o2, ecoFlow)
    ensures Capacity(o1, false) < Capacity(o1, true)
  {
  }

  // ---------------------------------------------------------------------------
  // Solar
  // ---------------------------------------------------------------------------

  /** Daily solar energy: panels times watts per panel times sunlight hours. */
  function SolarInput(panels: nat, wattsPerPanel: nat, sunHours: nat): (wh: nat)
    ensures wh == 0 <==> panels == 0 || wattsPerPanel == 0 || sunHours == 0
  {
    panels * wattsPerPanel * sunHours
  }

  /** Within the widget ranges (1-10 panels, 50-500 W, 0-10 h) the array
      yields at most 50 kWh a day, and something whenever the sun is up. */
  lemma SolarInputBounds(panels: nat, wattsPerPanel: nat, sunHours: nat)
    requires 1 <= panels <= 10 && 50 <= wattsPerPanel <= 500 && sunHours <= 10
    ensures SolarInput(panels, wattsPerPanel, sunHours) <= 50000
    ensures sunHours > 0 ==> SolarInput(panels, wattsPerPanel, sunHours) >= 50
  {
    var pw := panels * wattsPerPanel;
    assert pw <= 5000 by {
      assert pw <= 10 * wattsPerPanel;
    }
    assert pw >= 50;
    assert SolarInput(panels, wattsPerPanel, sunHours) == pw * sunHours;
    assert pw * sunHours <= 5000 * sunHours;
  }

  /** Scaling the number of panels by k scales the solar input by k. */
  lemma SolarLinearInPanels(k: nat, panels: nat, wattsPerPanel: nat, sunHours: nat)
    ensures SolarInput(k * panels, wattsPerPanel, sunHours) == k * SolarInput(panels, wattsPerPanel, sunHours)
  {
    assert (k * panels) * wattsPerPanel == k * (panels * wattsPerPanel);
    assert (k * (panels * wattsPerPanel)) * sunHours == k * ((panels * wattsPerPanel) * sunHours);
  }

  /** Scaling the panel rating by k scales the solar input by k. */
  lemma SolarLinearInWatts(k: nat, panels: nat, wattsPerPanel: nat, sunHours: nat)
    ensures SolarInput(panels, k * wattsPerPanel, sunHours) == k * SolarInput(panels, wattsPerPanel, sunHours)
  {
    assert panels * (k * wattsPerPanel) == k * (panels * wattsPerPanel);
    assert (k * (panels * wattsPerPanel)) * sunHours == k * ((panels * wattsPerPanel) * sunHours);
  }

  /** Scaling the sunlight hours by k scales the solar input by k. */
  lemma SolarLinearInHours(k: nat, panels: nat, wattsPerPanel: nat, sunHours: nat)
    ensures SolarInput(panels, wattsPerPanel, k * sunHours) == k * SolarInput(panels, wattsPerPanel, sunHours)
  {
    var pw := panels * wattsPerPanel;
    assert pw * (k * sunHours) == k * (pw * sunHours);
  }

  /** Splitting the array into two groups of panels splits the input too. */
  lemma SolarAdditiveInPanels(p1: nat, p2: nat, wattsPerPanel: nat, sunHours: nat)
    ensures SolarInput(p1 + p2, wattsPerPanel, sunHours)
            == SolarInput(p1, wattsPerPanel, sunHours) + SolarInput(p2, wattsPerPanel, sunHours)
  {
    assert (p1 + p2) * wattsPerPanel == p1 * wattsPerPanel + p2 * wattsPerPanel;
    assert (p1 * wattsPerPanel + p2 * wattsPerPanel) * sunHours
           == p1 * wattsPerPanel * sunHours + p2 * wattsPerPanel * sunHours;
  }

  // ---------------------------------------------------------------------------
  // Alternator
  // ---------------------------------------------------------------------------

  /** The driving-time radio: two presets, or a custom slider value. */
  datatype DriveTime = ThirtyMinutes | OneHour | Custom(hours: real)

  /** The custom slider runs from 0.0 to 5.0 hours. */
  predicate ValidDriveTime(d: DriveTime)
  {
    d.Custom? ==> 0.0 <= d.hours <= 5.0
  }

  /** Minutes named in the preset labels "30 mins" and "1 hour". */
  function PresetMinutes(d: DriveTime): real
    requires !d.Custom?
  {
    if d.ThirtyMinutes? then 30.0 else 60.0
  }

  /** Hours of driving per day for a radio selection. */
  function DriveHours(d: DriveTime): (h: real)
    ensures !d.Custom? ==> h * 60.0 == PresetMinutes(d)
    ensures d.Custom? ==> h == d.hours
    ensures ValidDriveTime(d) ==> 0.0 <= h <= 5.0
  {
    match d
    case ThirtyMinutes => 0.5
    case OneHour => 1.0
    case Custom(h) => h
  }

  /** Daily alternator energy at the charger's fixed 480 W. Every valid
      selection yields between nothing and 2.4 kWh. */
  function AlternatorInput(d: DriveTime): (wh: real)
    ensures wh / AlternatorWatts == DriveHours(d)
    ensures ValidDriveTime(d) ==> 0.0 <= wh <= 2400.0
  {
    AlternatorWatts * DriveHours(d)
  }

  /** The custom slider's default of 0.5 h charges exactly as the "30 mins"
      preset, and its full 5 h charges as five "1 hour" presets. */
  lemma CustomAgreesWithPresets()
    ensures AlternatorInput(Custom(0.5)) == AlternatorInput(ThirtyMinutes) == 240.0
    ensures AlternatorInput(Custom(5.0)) == 5.0 * AlternatorInput(OneHour) == 2400.0
  {
  }

  /** Driving longer never charges less. */
  lemma AlternatorMonotone(h1: real, h2: real)
    requires h1 <= h2
    ensures AlternatorInput(Custom(h1)) <= AlternatorInput(Custom(h2))
  {
  }

  // ---------------------------------------------------------------------------
  // Device hours
  // ---------------------------------------------------------------------------

  /** The per-device quick-select radio. */
  datatype HoursPreset = NoPreset | WorkingDay | Mealtimes | Daytime | AllTheTime

  /** Hours a device runs per day: a quick-select other than "None"
      overrides whatever was typed into the hours field. */
  function ResolveHours(p: HoursPreset, typed: real): (h: real)
    ensures p == NoPreset ==> h == typed
    ensures p != NoPreset ==> h == 10.0 || h == 0.5 || h == 14.0 || h == 24.0
    ensures 0.0 <= typed <= 24.0 ==> 0.0 <= h <= 24.0
  {
    match p
    case NoPreset => typed
    case WorkingDay => 10.0
    case Mealtimes => 0.5
    case Daytime => 14.0
    case AllTheTime => 24.0
  }

  /** A quick-select makes the typed hours irrelevant. */
  lemma PresetOverridesTyped(p: HoursPreset, t1: real, t2: real)
    requires p != NoPreset
    ensures ResolveHours(p, t1) == ResolveHours(p, t2)
  {
  }

  /** Re-applying the same quick-select to its own result changes nothing. */
  lemma ResolveHoursIdempotent(p: HoursPreset, typed: real)
    ensures ResolveHours(p, ResolveHours(p, typed)) == ResolveHours(p, typed)
  {
  }

  /** The four quick-selects give four different durations, in label order. */
  lemma PresetsDistinct()
    ensures ResolveHours(Mealtimes, 0.0) < ResolveHours(WorkingDay, 0.0)
            < ResolveHours(Daytime, 0.0) < ResolveHours(AllTheTime, 0.0)
  {
  }
}
