# PMU battery plugin — a Dafny model

This project models the decision logic of collectd's `battery` plugin for Linux
PMU batteries (`src/battery.c`):

- **Slot discovery** (`battery_init`). The plugin probes the status paths
  `/proc/pmu/battery_0`, `/proc/pmu/battery_1`, … in order. It stops at the
  first index whose path does not fit the 512-byte buffer or is not readable.
  The slot count is the length of that readable prefix.
- **Status parsing** (the line loop of `battery_read`). Each slot starts every
  cycle from a zero reading (current, voltage, charge). A tokenised line of
  at least three tokens whose first token is exactly `current`, `voltage` or
  `charge` overwrites that one field with `atof(third token) / 1000`. All other
  lines are ignored.
- **Emission** (`battery_submit` and the guard at its call site). A reading
  becomes samples `(series, instance, value)`. There is one sample per quantity
  whose value is strictly positive, in the order current, voltage, charge. The
  samples go to `battery_current`, `battery_voltage` and `battery_charge`, and
  each is labelled with the slot index in decimal.
- **The poll cycle** (`battery_read`). Every discovered slot is handled in index
  order. A slot whose status file cannot be opened is skipped.

Modules:

- `Wrappers` holds `Option`.
- `Format` holds the buffer size, the `%i` rendering of an index and the reading
  back of that rendering.
- `Magnitude` is the part of `atof` a status value goes through.
- `Discovery`, `Status`, `Emission` and `Poll` hold the four pieces above.
- `Scenarios` holds concrete status texts with the samples they produce.

The model is built from pure functions, so two cycles on the same input produce
the same samples.

The environment is passed in as parameters:

- The filesystem's readability test is a predicate `accessible: nat -> bool`.
- One cycle's status files are a sequence with one `Option<seq<Line>>` per slot.
  `None` means `fopen` failed.
- A line is its list of whitespace-separated tokens.

The path-length guards (`PathFits`, src/battery.c:72-75 and 158-161) and the
label-length guard (`LabelFits`, src/battery.c:110-112) are modelled. Lemmas
show that neither fires for an index a C `int` can hold (`IntIndexPathFits`,
`IntIndexLabelFits`). Because the rendered path grows with the index, the path
guard alone bounds discovery, so `Discover` needs no assumption about the
filesystem in order to terminate.

A field is overwritten on every matching line, so the last matching line wins
(`Status.LastAssignmentWins`).

## Model

| member | source | states |
|---|---|---|
| Format.DecimalString | src/battery.c:110 | The `%i` rendering of an index is non-empty, all decimal digits and has no leading zero. |
| Format.DecimalRoundTrip | src/battery.c:110 | Reading back the digits of the `%i` label of an index gives that index. |
| Format.DecimalInjective | src/battery.c:110-119 | Two slots have the same label exactly when they are the same slot, so a label identifies its slot. |
| Format.IntIndexDigits | src/battery.c:110-112 | Every index a C `int` can hold renders in at most ten digits, so the label's buffer check cannot fail. |
| Magnitude.ParseMagnitude | src/battery.c:174 | `atof` of an empty token, or of one that starts with neither a digit, a sign nor a point, is 0. A token that starts with a digit is never negative. |
| Magnitude.ParseRendered | src/battery.c:174 | `atof` of the decimal rendering of n is n. |
| Magnitude.ParseNegative | src/battery.c:174 | `atof` of `-` followed by the rendering of n is -n. |
| Magnitude.ParseFraction | src/battery.c:174 | `atof` of `a.b` (both rendered in decimal) is a plus b divided by ten to the number of b's digits. |
| Discovery.PmuPath | src/battery.c:62-72 | A slot's path starts with `/proc/pmu/battery_`, and what follows is all digits and reads back as the slot index. |
| Discovery.PmuPathInjective | src/battery.c:72 | Two slots probe the same path exactly when they are the same slot. |
| Discovery.Probe | src/battery.c:72-78 | For an index a C `int` can hold, one discovery step succeeds exactly when the path is readable. From 10^493 on it always fails. |
| Discovery.Discover | src/battery.c:70-79 | The count n has every index below n fitting and readable, and index n is not. Discovery stops at the first gap and always terminates. |
| Discovery.SlotCountUnique | src/battery.c:70-79 | Only one count satisfies the first-gap property, so discovery's answer is determined. |
| Discovery.LaterSlotsIgnored | src/battery.c:77-78 | Readable slots after the first gap do not change the count. |
| Discovery.CountOfReadablePrefix | src/battery.c:70-79 | With s readable slots (s within `int` range) followed by an unreadable one, the count is s. |
| Discovery.LongIndexUnfit | src/battery.c:72-75 | From 10^493 on, an index's path overflows the 512-byte buffer, so the probe fails there. |
| Discovery.IntIndexPathFits | src/battery.c:158-161 | Every `int` index has a path that fits, so the read loop's own path check never skips a slot. |
| Status.Classify | src/battery.c:173-178 | A first token names quantity q exactly when it equals q's key. The comparison is exact and case-sensitive. |
| Status.ApplyLine | src/battery.c:168-178 | Each field becomes the line's value over 1000 when the line has at least three tokens and its first token is that field's key. Otherwise the field keeps its old value. Short lines and lines with unknown keys change nothing. |
| Status.LastAssignmentWins | src/battery.c:166-179 | When several lines set a quantity, the last of them decides its final value. |
| Status.UnassignedKeepsStart | src/battery.c:166-179 | A quantity that no line sets keeps its starting value. |
| Status.SlotReading | src/battery.c:154-179 | A slot's reading holds, for each quantity, the value of the last line that sets it. It holds 0 when no line sets that quantity, because every slot starts from zero. |
| Status.ParseStatus | src/battery.c:154-179 | The imperative line loop, starting from zeros, gives the same reading as the reference fold. |
| Emission.IntIndexLabelFits | src/battery.c:110-112 | Every `int` index has a label that fits its buffer, so `battery_submit` never returns early. |
| Emission.Gate | src/battery.c:114-120 | A quantity yields exactly one sample when its value is above zero and none otherwise. The sample carries the quantity's series, the slot label and the value. |
| Emission.Submit | src/battery.c:104-137 | Nothing is submitted if the label does not fit. Otherwise every sample belongs to one quantity, carries its positive value and the slot's label, and the samples follow the order current, voltage, charge. A quantity is submitted if and only if its value is above zero. |
| Emission.GuardedSubmit | src/battery.c:181-182 | The outer guard that some field be non-zero never changes what is submitted. |
| Poll.SlotSamples | src/battery.c:152-186 | Every sample of a slot carries that slot's label. A slot whose file cannot be opened submits nothing. Otherwise the slot submits what its own zero-started reading gives. |
| Poll.PollCycle | src/battery.c:152-186 | A cycle submits at most three samples per slot, and each one is labelled with the index of some slot. |
| Poll.CycleSlotView | src/battery.c:152-186 | The samples a cycle submits under slot i's label are exactly what slot i's own status text produces. No other slot and no earlier reading has any influence. |
| Poll.CycleOmits | src/battery.c:152 | Slots below i submit nothing under slot i's label. |
| Poll.CycleInSlotOrder | src/battery.c:152-186 | Slots submit in index order: a sample of slot i never comes after a sample of a later slot. |
| Poll.UnopenedSlotSilent | src/battery.c:163-164 | A slot whose status file cannot be opened submits nothing in that cycle. |
| Poll.OtherSlotsIrrelevant | src/battery.c:152-186 | Changing other slots' status files leaves slot i's samples unchanged. |
| Scenarios.AssignLine | src/battery.c:173-178 | The line `<key> xx <n>` sets that quantity to n/1000 and leaves the others alone. |
| Scenarios.CurrentOnly | src/battery.c:166-182 | `current xx 1500` alone reads as (1.5, 0, 0) and submits only `battery_current` = 1.5. |
| Scenarios.SlotTwoReading | src/battery.c:166-179 | Slot 2 with current 2500, voltage 12600 and charge 0 reads as (2.5, 12.6, 0). |
| Scenarios.SlotTwo | src/battery.c:104-182 | That slot submits `battery_current` 2.5 and `battery_voltage` 12.6 under label `2`, and no charge. |
| Scenarios.UnparsableValue | src/battery.c:174-176 | `voltage xx abc` reads as 0 and submits nothing. |
| Scenarios.CaseSensitive | src/battery.c:173-178 | `Current` is not a key, so the reading stays at zero. |
| Scenarios.LaterLineWins | src/battery.c:166-179 | Of two `current` lines, the second one's value is kept. |

## Left out

- File I/O (`access`, `fopen`, `fgets`, `fclose`) is not modelled. Its results are parameters: the `accessible` predicate and one optional list of lines per slot and cycle.
- The 512-byte line truncation of `fgets` is not modelled. A line is taken as given.
- `strsplit` comes from `common.c`, which is not part of this model. Lines arrive already tokenised, and the at-most-8-fields limit does not affect fields 0 and 2.
- Magnitude.ParseMagnitude: covers only a sign, integer digits and a `.` fraction. It does not model `atof`'s leading whitespace, exponents, hexadecimal forms or `inf`/`nan`. Values are exact `real`s, with no IEEE rounding.
- Discovery.Discover: indices are unbounded naturals, so the C `int` counter's overflow is not modelled. Overflow would need 2^31 readable status files. In the model, the path-length check bounds the loop instead.
- The `len < 0` half of each `snprintf` guard (src/battery.c:74, 111, 160) is not modelled. `snprintf` reports an error only for an encoding failure, and these formats cannot have one.
- The `"N:%.3f"` value formatting and its length check (src/battery.c:116-134) are not modelled. Samples carry the value itself. That check cannot fail for a positive double in a 512-byte buffer.
- The RRD write callbacks and data-source definitions (src/battery.c:36-59, 85-101) are not modelled. They belong to the persistence side, not to this plugin's decisions.
- `plugin_register`/`module_register` and the `KERNEL_LINUX` conditional compilation (src/battery.c:30-34, 189-199) are not modelled. They are host-framework glue.
- The lifetime of the slot count (set once at start-up, never rediscovered) is not modelled as state. The cycle takes its statuses for slots `0 .. count-1` as input.
