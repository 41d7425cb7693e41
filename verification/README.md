# Campervan power budget — a Dafny model of the calculation

The campervan power calculator is a one-page Streamlit dashboard, "Alfred".
The user picks a Renogy battery bank (1–4 batteries of 200 Ah at 12 V) and
can tick an optional EcoFlow Delta Pro pack (3.6 kWh). They set up a solar
array (panels × watts per panel × sunlight hours) and DC-DC alternator
charging (480 W for a preset or custom driving time). Finally they list
devices, each with a power draw and hours per day, where a quick-select
preset may override the hours. From these the page computes:

- capacity;
- daily usage, daily input and the net figure;
- usage as a percentage of capacity, and the progress-bar fill;
- runtime in days and in hours;
- one of four status messages.

This project models that arithmetic in three modules:

- `Resolver` (`resolver.dfy`) turns selections into numbers. It covers the
  battery slider and EcoFlow checkbox, the solar widgets, the driving-time
  radio and the per-device quick-select.
- `Balance` (`balance.dfy`) holds the balance step. It covers the
  consumption sum over the device list (as a recursive function and as a
  loop), input and net, the capped percentage and the progress fill, the
  runtime with its divisor floored at 1 Wh, and the four-way status tier.
- `Dashboard` (`dashboard.dfy`) evaluates one page run. It takes every
  widget value (`Setup`) to the figures the page computes (`Report`). The
  net figure is computed at App.py:100 but never displayed. Of the device
  table, the report keeps only the "Daily Wh" column; its "Watts" and
  "Hours per Day" columns are the resolved devices themselves.

Numbers the page holds as Python integers are `nat`: battery capacity,
which is the label's leading digit converted to an integer times integer
constants (App.py:39-40), and solar input, since every solar widget has
integer bounds. Floats are exact
`real`s. The ranges the widgets enforce are the predicates
`Resolver.ValidDriveTime` and `Dashboard.WidgetRanges`. Most bounds that
depend on them are stated as implications; `Resolver.SolarInputBounds` takes
the solar widget ranges as its precondition. The operations of the page are
total except where they divide by the capacity: percentage and runtime
require a positive capacity. `Resolver.Capacity` always provides one (at
least 2400 Wh), so `Dashboard.Evaluate` is total. The one other
precondition is on the helper `Resolver.PresetMinutes`, which reads the
minutes from a driving-time preset label and so applies only to the two
presets.

What App.py does, as the model follows it:

- Runtime in days is `capacity / max(usage − input, 1)`. A sustainable
  system therefore shows the capacity itself as its runtime
  (`Dashboard.SustainableScenario`: 7200 days for a 7.2 kWh bank).
- Every listed device counts towards usage; devices have no enabled flag.
- Runtime is shown unrounded apart from display formatting.
- No input is rejected. Negative draws are accepted (the watts field has no
  minimum) and flow through the sums. The capacity is never zero, because
  the battery count is always 1–4.
- The net figure is usage minus input, so a positive value is a deficit.
- Sunlight hours come from one integer slider (0–10).

## Model

| member | source | states |
|---|---|---|
| Resolver.Capacity | App.py:34-43 | capacity lies between one battery (2400 Wh) and four batteries plus the pack (13200 Wh); the pack is included iff the capacity is not a multiple of 2400 Wh; capacity div 2400 is the battery count plus one for the pack |
| Resolver.CapacityMatchesLabels | App.py:34-43 | the capacity equals the kWh printed in the chosen slider label times 1000, plus 3600 when the "(3.6kWh)" EcoFlow box is ticked |
| Resolver.CapacityDeterminesSelection | App.py:34-43 | two selections with the same capacity have the same slider position and the same EcoFlow setting |
| Resolver.CapacityMonotone | App.py:39-43 | more batteries never give less capacity, and ticking the EcoFlow box always adds capacity |
| Resolver.SolarInput | App.py:47-52 | solar input is zero exactly when there are no panels, the panel rating is zero or there are no sunlight hours |
| Resolver.SolarInputBounds | App.py:47-52 | within the widget ranges solar input is at most 50000 Wh, and at least 50 Wh whenever sunlight hours are positive |
| Resolver.SolarLinearInPanels | App.py:49-52 | scaling the panel count by k scales solar input by k |
| Resolver.SolarLinearInWatts | App.py:49-52 | scaling the watts per panel by k scales solar input by k |
| Resolver.SolarLinearInHours | App.py:51-52 | scaling the sunlight hours by k scales solar input by k |
| Resolver.SolarAdditiveInPanels | App.py:49-52 | two groups of panels yield the sum of their separate inputs |
| Resolver.DriveHours | App.py:56-62 | "30 mins" and "1 hour" give the hours named by their labels (minutes / 60); Custom passes its slider value through; a valid selection lies in [0, 5] hours |
| Resolver.AlternatorInput | App.py:56-64 | alternator input divided by the 480 W charge rate is the drive time; every valid selection yields between 0 and 2400 Wh |
| Resolver.CustomAgreesWithPresets | App.py:56-64 | Custom 0.5 h charges the same 240 Wh as "30 mins", and Custom 5 h charges five times "1 hour" (2400 Wh) |
| Resolver.AlternatorMonotone | App.py:62-64 | a longer custom drive never charges less |
| Resolver.ResolveHours | App.py:78-93 | "None" keeps the typed hours; every other preset yields one of 10, 0.5, 14 or 24; typed hours in [0, 24] give resolved hours in [0, 24] |
| Resolver.PresetOverridesTyped | App.py:86-93 | under any preset other than "None" the typed hours have no effect |
| Resolver.ResolveHoursIdempotent | App.py:86-93 | applying the same preset to its own result changes nothing |
| Resolver.PresetsDistinct | App.py:82-93 | the four presets give distinct durations ordered 0.5 < 10 < 14 < 24 |
| Balance.ConsumptionAppend | App.py:95-98 | appending a device increases daily consumption by exactly its watts times hours |
| Balance.ConsumptionConcat | App.py:98 | the consumption of two joined device lists is the sum of their consumptions |
| Balance.ConsumptionPrepend | App.py:98 | putting a device first also adds exactly its watts times hours |
| Balance.ConsumptionRemoveAt | App.py:98 | taking the device at any position out of the list takes exactly its watts times hours out of the total |
| Balance.ConsumptionPermutation | App.py:98 | two lists holding the same devices in any order have the same total |
| Balance.ConsumptionNonNegative | App.py:74-98 | with non-negative watts and hours the daily consumption is non-negative |
| Balance.ColumnSumIsConsumption | App.py:132 | the sum of the "Daily Wh" column equals the daily consumption total computed at App.py:98 |
| Balance.SumConsumption | App.py:98 | the loop form of the generator sum returns the recursive consumption total, and it is non-negative for non-negative loads |
| Balance.DailyInput | App.py:99 | total input minus alternator input is solar input; with non-negative sources, total input is at least each of them |
| Balance.NetDaily | App.py:100 | net is at most 0 exactly when input covers usage; input plus net is usage |
| Balance.PercentUsed | App.py:113 | percent used is at most 100 and non-negative for non-negative usage; it equals 100 exactly when usage reaches capacity; below 100, percent × capacity = usage × 100 |
| Balance.PercentUsedMonotone | App.py:113 | higher usage never shows a lower percentage |
| Balance.Progress | App.py:117 | the progress fill is at most 1; for a percentage of at most 100 it is that percentage / 100, and from 100 up it is exactly 1 |
| Balance.ProgressOfPercent | App.py:113-117 | the bar's own cap never applies to a computed percentage; for non-negative usage the fill is in [0, 1] |
| Balance.RuntimeDivisor | App.py:114 | the runtime divisor is at least 1 and at least the deficit, and it is one of the two |
| Balance.RuntimeDays | App.py:114 | runtime is positive and at most the capacity; when the deficit is at most 1 Wh it equals the capacity; otherwise runtime × deficit = capacity |
| Balance.RuntimeHours | App.py:115 | runtime in hours is 24 times runtime in days, positive and at most 24 × capacity |
| Balance.RuntimeAntitoneInConsumption | App.py:114 | with capacity and input fixed, more usage never gives a longer runtime |
| Balance.RuntimeMonotoneInInput | App.py:114 | with capacity and usage fixed, more input never gives a shorter runtime |
| Balance.StatusTier | App.py:121-128 | Sustainable iff input ≥ usage; Stable iff not sustainable and runtime ≥ 3; Critical iff not sustainable and runtime < 1; Moderate iff not sustainable and 1 ≤ runtime < 3 |
| Balance.TierAntitoneInConsumption | App.py:114-128 | raising usage never moves the status to a better tier (Sustainable > Stable > Moderate > Critical) |
| Balance.TierMonotoneInInput | App.py:114-128 | raising input never moves the status to a worse tier |
| Balance.SmallDeficitIsStable | App.py:114-124 | a deficit in (0, 1] Wh is floored to 1, so any capacity of at least 3 Wh is Stable |
| Dashboard.ResolveDevicesPointwise | App.py:71-95 | each built device keeps the entered watts, keeps the typed hours when the preset is "None", and stays within [0, 24] hours when typed so |
| Dashboard.ResolveDevicesAppend | App.py:71-95 | one more device block appends exactly its resolved device to the list |
| Dashboard.Evaluate | App.py:98-128 | for every setup: capacity is the selected capacity (≥ 2400), usage the resolved device list's total and input the solar plus alternator input; input + net = usage; percent is the capped percentage of usage over capacity (≤ 100, equal to 100 exactly when usage reaches capacity) and progress × 100 = percent with progress ≤ 1; runtime is the floored-deficit runtime for capacity, usage and input (0 < runtime ≤ capacity, equal to capacity when net ≤ 1), hours = 24 × days; status is the first-match tier: Sustainable iff net ≤ 0, Stable iff net > 0 and runtime ≥ 3, Moderate iff net > 0 and 1 ≤ runtime < 3, Critical iff net > 0 and runtime < 1; the column is the per-device watts × hours and sums to the usage; under the widget ranges input is in [0, 52400], and with non-negative draws usage, percent and progress are non-negative |
| Dashboard.UsageNonNegative | App.py:74-98 | under the widget ranges, with non-negative draws, daily usage is non-negative |
| Dashboard.InputBounds | App.py:47-64 | under the widget ranges daily input lies in [0, 52400] Wh |
| Dashboard.UsageGrowsWithDevice | App.py:68-98 | adding a device block adds exactly its resolved watts × hours to usage, which never decreases usage for a non-negative draw |
| Dashboard.AddingDeviceNeverImprovesStatus | App.py:68-128 | adding a device with a non-negative draw never gives a better status or a longer runtime |
| Dashboard.TinyDeficitIsStable | App.py:114-124 | for every selectable bank, a deficit of at most 1 Wh per day shows Stable |
| Dashboard.SustainableScenario | App.py:34-128 | 3 batteries, 2 × 200 W for 4 h, 30 min of driving, 50 W × 10 h and 20 W × 2 h give usage 540, input 1840, net −1300, runtime 7200 days and Sustainable |
| Dashboard.CriticalScenario | App.py:34-128 | 1 battery, no input, 500 W × 5 h give usage 2500, 100 %, runtime 0.96 days and Critical |
| Dashboard.StableScenario | App.py:34-128 | 2 batteries, 1 × 150 W for 4 h, no driving, 90 W on "Working day" (typed 3 h ignored) give usage 900, input 600, runtime 16 days (384 h) and Stable |

## Left out

- Streamlit calls (page config, dark-mode CSS, intro text, sidebar widgets, metrics, progress-bar rendering, message boxes): presentation only. The model keeps the values passed into them.
- The pandas DataFrame of devices: a library call. Only the per-row "Daily Wh" identity is kept (`Balance.DailyWhColumn`).
- The device name text field: display-only, used in no computation.
- The `:.1f` / `:.2f` formatting of percent and runtime: presentation rounding of IEEE floats.
- Floating point in general: quantities are exact reals, so float rounding in sums, products and divisions is not modelled.
- Parsing the battery count from the first character of the slider label: modelled as a four-value enum mapped to 1–4.
- Widget range enforcement and step sizes (0.1 h on the drive slider, 0.5 h on the hours field): the ranges are stated as predicates (`ValidDriveTime`, `WidgetRanges`) that the properties assume, and the steps are not modelled.
- Per-session widget state (Streamlit reruns the script on every interaction): each evaluation is one pure function call.
- Balance.ProgressOfPercent: states the fill is in [0, 1] only for non-negative usage. A negative draw (allowed by the watts field) gives a negative fill, and what the progress widget does with it is outside this model.
