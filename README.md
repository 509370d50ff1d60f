# Micropump transmitter, decoder pipeline and plot-settings defaults

This project models three pieces of sequential logic from a molecular-communication testbed.

**The Bartels micropump transmitter** (`bartels.dfy`, `timeline.dfy`, `commands.dfy`)
- It writes voltage commands `PA<aaa>#<bbb>#<ccc>#<ddd>` followed by CR LF to a four-channel pump controller.
- It switches the controller on and off.
- It plays timed pulses.
  - One pulse drives all channels for one duration.
  - A delayed pulse gives each channel its own start and a common duration.
  - The delayed pulse is built as a timeline: eight on/off events are sorted and applied cumulatively from the off-vector. Events at the same instant collapse to the last vector written.
- The timeline is replayed with a check of the shared `stopped` flag before every command.
- The serial port is a log of the commands written and of the pauses between them.

**The decoder pipeline** (`decoder.dfy`)
- `setup` normalises receiver descriptions and landmark symbols, creates one receiver per type and sizes the per-receiver histories.
- `empty_receiver_buffers` drains every receiver's FIFO into its timestamp and value histories.
- `decode` runs the drain and then the strategy steps in a fixed order.
- A receiver is a FIFO queue of samples.

**The plot-settings defaults** (`plot_settings.dfy`)
- `load_default_settings` builds the setting of every key. It takes the decoder's own value, or a default shaped by the receiver, sensor, additional-dataline and landmark counts.
- A colour counter advances as default colours are drawn.
- The pyqtgraph palette is a parameter: a function from colour index to colour name.
- `save` writes the settings once and then drops them.

`optional.dfy` holds the `Option` type. `text.dfy` holds decimal digits and Python's `str` of a natural number.

## Behaviour kept as the code has it

- `decode` (DecoderInterface.py:162-163) only logs a `symbol_values` list whose length is not one less than that of `symbol_intervals`. `Decode` reports the mismatch and corrects nothing.
- `stopped` is one class variable (BartelsTransmitter.py:18), so all transmitters share one `StopFlag` object.
- `stop` (DecoderInterface.py:78-80) only clears `active`. The listening threads keep running.
- `get_decoded` returns the live lists. The model returns values, so the aliasing is not modelled.
- Nothing guards against starting a second timed sequence while one is running. The model has no guard either.

## Model

| member | source | states |
|---|---|---|
| Text.NatToStringRoundTrip | Models/Interfaces/DecoderInterface.py:28 | `str(n)` of a natural number is a non-empty digit string that reads back as `n` |
| Text.NatToStringDigits | Models/Interfaces/DecoderInterface.py:28 | every character of `str(n)` for a natural number is a decimal digit |
| Text.SmallNatToString | Models/Implementations/Transmitters/BartelsTransmitter.py:75 | a number below 1000 is written with one, two or three digits according to its size |
| Commands.FieldDigits | Models/Implementations/Transmitters/BartelsTransmitter.py:75 | `{:03d}` of a voltage in 0..999 is exactly three digits, most significant first, zero-padded |
| Commands.ParseFieldOfField | Models/Implementations/Transmitters/BartelsTransmitter.py:75 | a three-digit field of a voltage in 0..999 reads back as that voltage |
| Commands.FieldOfParsed | Models/Implementations/Transmitters/BartelsTransmitter.py:75 | every three-digit field is the field written for the number it reads as |
| Commands.SetAllLayout | Models/Implementations/Transmitters/BartelsTransmitter.py:73-75 | for four voltages in 0..999 the command is 19 characters: `PA`, four three-digit fields at fixed places separated by `#`, then CR LF |
| Commands.SetAllRoundTrip | Models/Implementations/Transmitters/BartelsTransmitter.py:73-75 | for four voltages in 0..999, parsing the command gives the vector back |
| Commands.ParseThenFormat | Models/Implementations/Transmitters/BartelsTransmitter.py:73-75 | every string the controller's reading accepts is exactly the command written for the vector it denotes |
| Commands.DecodeEncode | Models/Implementations/Transmitters/BartelsTransmitter.py:53-78 | `PON`, `POFF` and every voltage command with three-digit voltages are recognised back from their bytes |
| Commands.EncodeDecode | Models/Implementations/Transmitters/BartelsTransmitter.py:53-78 | every recognised command string is written back byte for byte |
| Commands.EncodeAllOff | Models/Implementations/Transmitters/BartelsTransmitter.py:62-67 | the literal `PA000#000#000#000` of the switch-off is the all-zero voltage command |
| Commands.ChannelFourOnTheWire | Models/Implementations/Transmitters/BartelsTransmitter.py:89 | channel 1 alone at 100 V: the source writes `PA100#000#000#100`, driving channel 4 too |
| Commands.SelectedOnTheWire | Models/Implementations/Transmitters/BartelsTransmitter.py:89 | channel 1 alone at 100 V: the corrected vector writes `PA100#000#000#000` |
| Commands.ChannelFourDrivenWhenDeselected | Models/Implementations/Transmitters/BartelsTransmitter.py:89 | with only channel 1 selected and a non-zero voltage, the vector as written drives channel 4 and the corrected vector does not |
| Commands.SelectedChannelsDriveOnlySelected | Models/Implementations/Transmitters/BartelsTransmitter.py:89 | with 0/1 selectors the corrected vector gives the voltage to exactly the selected channels and 0 to the others |
| Timeline.ArgSort | Models/Implementations/Transmitters/BartelsTransmitter.py:114 | the result lists every event index once, in non-decreasing time order |
| Timeline.FindSlot | Models/Implementations/Transmitters/BartelsTransmitter.py:114 | the insertion point lies after every key not above the new one and before every key above it |
| Timeline.InsertIndex | Models/Implementations/Transmitters/BartelsTransmitter.py:114 | one insertion step: the order grows by exactly the new index and stays sorted by key |
| Timeline.InsertSorted | Models/Implementations/Transmitters/BartelsTransmitter.py:114 | inserting an index at that point keeps the order sorted and adds exactly that index |
| Timeline.ScheduleTimeline | Models/Implementations/Transmitters/BartelsTransmitter.py:105-146 | for a positive duration the collapsed timeline starts at 0, strictly increases through exactly {0} ∪ {delays[c]} ∪ {delays[c]+duration}, and at every step channel c is on exactly while delays[c] <= t < delays[c]+duration |
| Timeline.ReplayEvents | Models/Implementations/Transmitters/BartelsTransmitter.py:117-135 | applying the sorted events one by one, from the off-vector and time 0, yields the running vector after each prefix of events and each event's time |
| Timeline.ExtendPrefix | Models/Implementations/Transmitters/BartelsTransmitter.py:120-135 | one more event appends its vector, the previous vector with that one channel changed, and its time |
| Timeline.LastOccurrencesFromSpec | Models/Implementations/Transmitters/BartelsTransmitter.py:137-146 | the collapse keeps, in increasing order, exactly the positions holding the last occurrence of their time |
| Timeline.KeptValues | Models/Implementations/Transmitters/BartelsTransmitter.py:137-146 | the collapse keeps every time that occurs, and no other |
| Timeline.KeptIncreasing | Models/Implementations/Transmitters/BartelsTransmitter.py:137-146 | collapsing non-decreasing times leaves strictly increasing times |
| Timeline.KeptStartsAtFirst | Models/Implementations/Transmitters/BartelsTransmitter.py:137-146 | collapsing a non-decreasing time list keeps at least one time, and the first kept time is the list's first |
| Timeline.EventTimesNondecreasing | Models/Implementations/Transmitters/BartelsTransmitter.py:117-135 | the uncollapsed times are non-decreasing when the events are sorted and non-negative |
| Timeline.EventTimesValues | Models/Implementations/Transmitters/BartelsTransmitter.py:117-135 | the uncollapsed times are exactly the start and the eight event times |
| Timeline.PrefixMembership | Models/Implementations/Transmitters/BartelsTransmitter.py:117-146 | at the last occurrence of an instant, an event has been applied exactly when it happens no later than that instant |
| Timeline.StateChannels | Models/Implementations/Transmitters/BartelsTransmitter.py:117-135 | after any sorted prefix of events a channel is at its on-voltage exactly when its on event is applied and its off event is not |
| Timeline.TimelineTimes | Models/Implementations/Transmitters/BartelsTransmitter.py:109-146 | for every argsort the collapsed times start at 0, strictly increase and are the change instants |
| Timeline.TimelineChannels | Models/Implementations/Transmitters/BartelsTransmitter.py:117-146 | for every argsort each collapsed vector gives channel c its on-voltage exactly inside its window |
| Timeline.TimelineCorrect | Models/Implementations/Transmitters/BartelsTransmitter.py:109-146 | for every argsort the collapsed timeline meets every promise together |
| Timeline.StrictlyIncreasingBySet | Models/Implementations/Transmitters/BartelsTransmitter.py:137-146 | two strictly increasing lists with the same values are equal |
| Timeline.TimelineUnique | Models/Implementations/Transmitters/BartelsTransmitter.py:109-146 | at most one step list meets those promises |
| Timeline.TieOrderIrrelevant | Models/Implementations/Transmitters/BartelsTransmitter.py:114-146 | every tie order argsort may pick for equal event times gives the same timeline |
| Timeline.StaggeredStartExample | Models/Implementations/Transmitters/BartelsTransmitter.py:105-146 | delays 0, 10, 0, 20 with 50 ms at 100 V give the six steps at 0, 10, 20, 50, 60 and 70 ms; starts and stops at the same instant share a step |
| Bartels.ReplayWritesEachStep | Models/Implementations/Transmitters/BartelsTransmitter.py:148-159 | issuing k steps writes exactly one voltage command per step, the steps' vectors in order |
| Bartels.ReplayWaitsBetweenSteps | Models/Implementations/Transmitters/BartelsTransmitter.py:148-159 | before command n+1 the replay waits the time between steps n and n+1, and there are k-1 waits for k commands |
| Bartels.BartelsTransmitter.constructor | Models/Implementations/Transmitters/BartelsTransmitter.py:20-46 | a new transmitter has switched the pumps off, so the shared flag is set and the log is the switch-off sequence |
| Bartels.BartelsTransmitter.SetState | Models/Implementations/Transmitters/BartelsTransmitter.py:53-68 | switching on clears the flag and writes `PON`; switching off sets it and writes `POFF`, all-zero, a 100 ms pause, `POFF`, all-zero |
| Bartels.BartelsTransmitter.Shutdown | Models/Implementations/Transmitters/BartelsTransmitter.py:48-51 | sets the flag and writes the switch-off sequence |
| Bartels.BartelsTransmitter.SetAllVoltages | Models/Implementations/Transmitters/BartelsTransmitter.py:71-78 | appends one voltage command for the vector |
| Bartels.BartelsTransmitter.SetAllVoltagesDuration | Models/Implementations/Transmitters/BartelsTransmitter.py:93-103 | zero duration writes nothing; otherwise the on-vector is written without a flag check, then the pause, then the off-vector only if the flag is still clear |
| Bartels.BartelsTransmitter.SetVoltageDuration | Models/Implementations/Transmitters/BartelsTransmitter.py:80-90 | a pulse of the channel vector as the source builds it (channels 1 to 3 selector times voltage, channel 4 selector plus voltage), then the all-zero vector unless the flag was set during the pause; nothing for zero duration |
| Bartels.BartelsTransmitter.SetVoltagesWithDelay | Models/Implementations/Transmitters/BartelsTransmitter.py:105-159 | zero duration writes nothing; otherwise the steps meet the timeline promise and the log grows by the replay of the first `issued` steps, plus the pause before the step that was cancelled, if any; `issued` stops short exactly when a read of the flag saw it set, and no command follows that read |
| Bartels.BartelsTransmitter.Replay | Models/Implementations/Transmitters/BartelsTransmitter.py:150-159 | the log grows by the first `issued` steps with the pause between each two, plus the pause before a cancelled step; `issued` stops short exactly when a read of the flag saw it raised, and the flag ends raised exactly then |
| Decoding.Receiver.Put | Models/Interfaces/DecoderInterface.py:109-118 | a sample joins the back of the receiver's queue |
| Decoding.Receiver.GetFirst | Models/Interfaces/DecoderInterface.py:114 | `get(0)` returns the oldest sample and removes it |
| Decoding.Appended | Models/Interfaces/DecoderInterface.py:96-107 | an empty history becomes one entry, any other gains the entry at its end |
| Decoding.CreateReceivers | Models/Interfaces/DecoderInterface.py:44-60 | one new, distinct receiver per type, with its description, an empty buffer and no history |
| Decoding.NoneEach | Models/Interfaces/DecoderInterface.py:62-64 | one empty landmark per landmark |
| Decoding.DecoderInterface.constructor | Models/Interfaces/DecoderInterface.py:9-15 | the attributes a concrete decoder sets; no receivers yet |
| Decoding.DecoderInterface.Setup | Models/Interfaces/DecoderInterface.py:17-67 | the receiver count is the number of types; missing descriptions are generated; landmarks are normalised; every per-receiver list has one entry per receiver and starts empty; no landmarks, symbols or sequence; not active |
| Decoding.DecoderInterface.NormaliseLandmarks | Models/Interfaces/DecoderInterface.py:30-40 | no names means no landmarks with symbols untouched; given names get one symbol each, circles unless the symbols fit; the warning exactly for a length mismatch |
| Decoding.DecoderInterface.ResetPipeline | Models/Interfaces/DecoderInterface.py:42-67 | fresh receivers, empty buffers and histories, one empty landmark each, no symbols, empty sequence, not active |
| Decoding.DecoderInterface.Start | Models/Interfaces/DecoderInterface.py:69-76 | the decoder is active and nothing else changes |
| Decoding.DecoderInterface.Stop | Models/Interfaces/DecoderInterface.py:78-80 | the decoder is inactive and nothing else changes |
| Decoding.DecoderInterface.GetReceiverInfo | Models/Interfaces/DecoderInterface.py:82-86 | one entry per receiver, in order, with its description and sensor descriptions |
| Decoding.DecoderInterface.GetLandmarkInfo | Models/Interfaces/DecoderInterface.py:88-89 | the landmark count, names and symbols as they are; after setup the count is the number of names |
| Decoding.DecoderInterface.GetDecoded | Models/Interfaces/DecoderInterface.py:91-94 | the histories and strategy results as they are; after setup one timestamp and one value history per receiver, one landmark per landmark name, and every value row as wide as its receiver's sensor list |
| Decoding.DecoderInterface.AppendTimestamp | Models/Interfaces/DecoderInterface.py:96-100 | only history `index` changes, gaining the timestamp at its end |
| Decoding.DecoderInterface.AppendValues | Models/Interfaces/DecoderInterface.py:102-107 | only history `index` changes, gaining the row at its end; rows keep one width |
| Decoding.DecoderInterface.DrainOne | Models/Interfaces/DecoderInterface.py:111-118 | receiver i's queue is emptied into its histories in arrival order; other receivers' histories are unchanged |
| Decoding.DecoderInterface.DrainAll | Models/Interfaces/DecoderInterface.py:111-118 | every queue is emptied into its receiver's histories in arrival order; an empty queue leaves its histories exactly; row widths are kept |
| Decoding.DecoderInterface.EmptyReceiverBuffers | Models/Interfaces/DecoderInterface.py:109-118 | every queue is emptied and its samples appended in arrival order; an empty queue leaves its histories exactly; equal timestamp and row counts stay equal |
| Decoding.DecoderInterface.Decode | Models/Interfaces/DecoderInterface.py:141-166 | drains every receiver and runs the strategy steps, which change nothing; the warning is logged exactly when `symbol_values` is non-empty and not one shorter than `symbol_intervals`, and nothing is corrected |
| Plotting.Colors | Utils/PlotSettings/PlotSettings.py:84-87 | n successive palette entries |
| Plotting.ColorRows | Utils/PlotSettings/PlotSettings.py:78-88 | one colour row per receiver |
| Plotting.TenthPower | Utils/PlotSettings/PlotSettings.py:181 | `10 ** -n` lies in (0, 1] |
| Plotting.TenthPowerInverse | Utils/PlotSettings/PlotSettings.py:181 | `10 ** -n` times `10 ** n` is 1 |
| Plotting.TenToMinus | Utils/PlotSettings/PlotSettings.py:181 | `10 ** (-1 * d)` is an integer exactly when `d` is an integer or boolean not above 0, an exact number for any other whole `d`, and the unevaluated float `10 ** -d` for a fractional `d` |
| Plotting.TenToMinusFraction | Utils/PlotSettings/PlotSettings.py:181 | for whole `d >= 0` the value is one tenth taken `d` times |
| Plotting.TenToMinusPower | Utils/PlotSettings/PlotSettings.py:181 | for whole `d <= 0` the value is `10 ** -d` |
| Plotting.DefaultRows | Utils/PlotSettings/PlotSettings.py:73-76 | the default `datalines_active` or `datalines_style` rows, or the IndexError exactly when sensor names are missing |
| Plotting.ColorsConsecutive | Utils/PlotSettings/PlotSettings.py:78-88 | the default colours, read receiver by receiver, are consecutive palette entries from the counter's start |
| Plotting.LandmarksDefaults | Utils/PlotSettings/PlotSettings.py:103-121 | the landmark settings, or the KeyError exactly when `landmarks_color` is given without `datalines_color` |
| Plotting.IntervalDefaults | Utils/PlotSettings/PlotSettings.py:123-146 | the grid, step and symbol-interval settings |
| Plotting.SymbolValueDefaults | Utils/PlotSettings/PlotSettings.py:148-171 | the symbol-value settings |
| Plotting.DecimalsDefaults | Utils/PlotSettings/PlotSettings.py:173-181 | the decimals and `x_range_min` settings, or the TypeError of `10 ** (-1 * decimals)` exactly when `x_range_min` is absent and the resolved decimals are not a number |
| Plotting.XRangeDefaults | Utils/PlotSettings/PlotSettings.py:183-196 | the rest of the x-range settings |
| Plotting.EveryKeySet | Utils/PlotSettings/PlotSettings.py:37-198 | a successful load sets every key |
| Plotting.SuppliedKeysCopied | Utils/PlotSettings/PlotSettings.py:49-196 | a key the decoder supplies is copied verbatim, except `landmarks_color`, which takes the supplied `datalines_color` |
| Plotting.AbsentKeysDefaulted | Utils/PlotSettings/PlotSettings.py:49-196 | a key the decoder leaves out gets its default |
| Plotting.LandmarksColorNeedsDatalinesColor | Utils/PlotSettings/PlotSettings.py:108-109 | `landmarks_color` without `datalines_color` makes the load fail, with the KeyError unless the sensor names already failed it |
| Plotting.AdditionalDefaultsShape | Utils/PlotSettings/PlotSettings.py:49-68 | default additional datalines: `additional_datalines_info['num']` entries each of True, palette colour 0 and `DashLine`; width 1 |
| Plotting.DatalineDefaults | Utils/PlotSettings/PlotSettings.py:70-101 | default dataline rows of True, successive colours and `SolidLine`, one row per receiver; width 1 |
| Plotting.FilledRowsShape | Utils/PlotSettings/PlotSettings.py:73-96 | one row per receiver, each with one entry per sensor name, every entry the fill value |
| Plotting.ColorRowsShape | Utils/PlotSettings/PlotSettings.py:78-88 | row r has one colour per sensor of receiver r; sensor k of row r has palette index start + sensors before r + k |
| Plotting.LandmarkDefaultsShape | Utils/PlotSettings/PlotSettings.py:103-121 | default landmarks: `landmark_info['num']` entries each of True, `k` and `o`; size 15 |
| Plotting.IntervalDefaultsShape | Utils/PlotSettings/PlotSettings.py:123-146 | default grid `x-axis and y-axis`, step 1, intervals shown, colour `k`, width 1 |
| Plotting.SymbolValueDefaultsShape | Utils/PlotSettings/PlotSettings.py:148-171 | default symbol values shown, fixed height 1, height factor 1.1, position `Above`, size 20 |
| Plotting.XRangeDefaultsShape | Utils/PlotSettings/PlotSettings.py:173-196 | default 1 decimal, maximum 100, active, value 10 |
| Plotting.XRangeMinDefault | Utils/PlotSettings/PlotSettings.py:173-181 | the default `x_range_min` is ten to the minus the resolved decimals, so 0.1 when those are defaulted too |
| Plotting.FractionalDecimalsLoad | Utils/PlotSettings/PlotSettings.py:173-181 | a fractional float `x_range_decimals` without `x_range_min` loads, and `x_range_min` is the float `10 ** -decimals` |
| Plotting.PlotSettings.constructor | Utils/PlotSettings/PlotSettings.py:19-35 | whatever the file held, the settings are the defaults, the counter is the colours drawn, the path is the decoder type's file |
| Plotting.PlotSettings.NextColors | Utils/PlotSettings/PlotSettings.py:84-87 | the next n palette colours from the counter, which advances by n |
| Plotting.PlotSettings.DefaultDatalinesColor | Utils/PlotSettings/PlotSettings.py:78-88 | the default colour rows from the counter, advancing it by one per sensor, or the IndexError when sensor names are missing |
| Plotting.PlotSettings.AdditionalDefaults | Utils/PlotSettings/PlotSettings.py:47-68 | the additional-dataline settings; the counter starts at 0 and advances by one only for a default colour |
| Plotting.PlotSettings.DatalinesDefaults | Utils/PlotSettings/PlotSettings.py:70-101 | the dataline settings, or the IndexError exactly when an absent dataline key finds too few sensor-name lists; the counter after either |
| Plotting.PlotSettings.LoadDefaultSettings | Utils/PlotSettings/PlotSettings.py:37-198 | the first exception of the source, if any, with the settings left as they were; otherwise the settings are replaced by exactly the defaulted map and the counter is the colours drawn |
| Plotting.PlotSettings.Save | Utils/PlotSettings/PlotSettings.py:200-207 | present settings are written once and then dropped; a second save writes nothing |

## Left out

- Opening the serial port, the `ID` handshake, `SELECTQUADDRIVER` and the controller's replies (BartelsTransmitter.py:28-45) are serial I/O. Construction is modelled from its final switch-off on.
- The port's `close` in `shutdown` is serial I/O.
- `micropump_set_frequency` (BartelsTransmitter.py:162-168) is a bare write of `F<n>` with no logic.
- `time.sleep` is a `Slept(ms)` entry in the log. Real time is not modelled.
- The `stopped` class variable is one `StopFlag` object shared by the transmitters. Another thread's switch-off is an oracle consulted at each read of the flag. True concurrency is not modelled.
- Bartels.BartelsTransmitter.SetVoltagesWithDelay: delays and the duration are natural numbers, and the model is fixed at four channels. Python lists of four non-negative integers are assumed.
- Timeline.ArgSort: `numpy.argsort` is not stable. The model sorts with a stable insertion sort, and every timeline lemma holds for any argsort order (`TieOrderIrrelevant`).
- Bartels.BartelsTransmitter.SetAllVoltagesDuration: the duration is a natural number. A negative duration, which `time.sleep` rejects, is not modelled.
- Commands.SetAllRoundTrip: the round trip is stated for voltages from 0 to 999. Wider voltages are formatted (`Field` writes Python's `{:03d}` exactly) but need more than three digits.
- The decoder's listening threads in `start` (DecoderInterface.py:73-75) are concurrency.
- The receivers' `listen` loops are concurrency.
- The dynamic `importlib` receiver loading (DecoderInterface.py:51-55) is not modelled. `Setup` takes each receiver's sensor descriptions as a parameter.
- Decoding.DecoderInterface.Setup requires descriptions for every receiver. The source raises an IndexError otherwise.
- Logging is not modelled, except for the two warnings a result reports.
- numpy arrays are sequences, and `np.vstack` is a row appended. Rows of one receiver keep one width (`RowsOfWidth`), so the stacking never fails.
- The base strategy steps (`CalculateLandmarks` and the others) only log, so they are methods that change nothing.
- The decoder's `__debug__` type checks of `landmarks` and `symbol_intervals` (DecoderInterface.py:151-157) are not modelled. The model's types rule those cases out.
- PlotSettings: the directory creation and JSON file reading in `__init__` are file I/O. The file's contents are a parameter that the constructor overwrites.
- PlotSettings: a settings file that exists but is not valid JSON makes `json.load` raise in `__init__`. That failure is file I/O and is not modelled.
- PlotSettings: `json.dump` is a `written` log of the maps saved.
- `pg.intColor(i).name()` is an uninterpreted palette function from index to colour name.
- Floats are modelled as exact reals.
- The float `10 ** -d` for a fractional `x_range_decimals` is kept unevaluated (`JPow10`). Floats are not computed.
- Plotting.PlotSettings.constructor requires a load that raises nothing. The source's constructor propagates the exception.
- Plotting.DecoderInfo keys are the 27 keys the source reads. Other keys of the decoder's `plot_settings` are never read and are not modelled.
- The additional-dataline and landmark counts are natural numbers. A negative count would give an empty Python list.

## Findings

| source | as written | input that shows it | evidently intended | confidence | as-written member | corrected member |
|---|---|---|---|---|---|---|
| Models/Implementations/Transmitters/BartelsTransmitter.py:89 | channel 4 is `int(channel4)+voltage` while channels 1 to 3 are `int(chN)*voltage` | channels (1, 0, 0, 0), voltage 100: channel 4 gets 100 although it is deselected | `int(channel4)*voltage`, so a channel is driven exactly when it is selected | not executed | Commands.ChannelFourDrivenWhenDeselected | Commands.SelectedChannelsDriveOnlySelected |

The `landmarks_color` lookup at PlotSettings.py:108-109 reads the supplied `datalines_color`. It is modelled as written (`Setting`, `LandmarksColorNeedsDatalinesColor`). It may be intended, so it is not claimed as a finding.
