/**
 * The plot settings of a decoder: for every setting key, the value the
 * decoder supplies or else a default shaped by its receivers, sensors,
 * additional datalines and landmarks; kept until saved once.
 */
module Plotting {
  import opened Optional

  /** JSON values as the settings file and the decoder's `plot_settings` hold them. */
  datatype Json =
    | JNull
    | JBool(b: bool)
    | JInt(i: int)
    | JReal(r: real)
    | JPow10(exponent: real)  // the float `10 ** exponent` for a fractional exponent, left unevaluated
    | JStr(s: string)
    | JList(items: seq<Json>)
    | JObject(members: map<string, Json>)

  /** The setting keys, in the order the defaults are filled in. */
  datatype Key =
    | AdditionalDatalinesActive | AdditionalDatalinesColor | AdditionalDatalinesStyle | AdditionalDatalinesWidth
    | DatalinesActive | DatalinesColor | DatalinesStyle | DatalinesWidth
    | LandmarksActive | LandmarksColor | LandmarksSize | LandmarksSymbols
    | ShowGrid | StepSize
    | SymbolIntervals | SymbolIntervalsColor | SymbolIntervalsWidth
    | SymbolValues | SymbolValuesFixedHeight | SymbolValuesHeightFactor | SymbolValuesPosition | SymbolValuesSize
    | XRangeDecimals | XRangeMin | XRangeMax | XRangeActive | XRangeValue

  /** The key's name in the JSON object. */
  function Name(k: Key): string {
    match k
    case AdditionalDatalinesActive => "additional_datalines_active"
    case AdditionalDatalinesColor => "additional_datalines_color"
    case AdditionalDatalinesStyle => "additional_datalines_style"
    case AdditionalDatalinesWidth => "additional_datalines_width"
    case DatalinesActive => "datalines_active"
    case DatalinesColor => "datalines_color"
    case DatalinesStyle => "datalines_style"
    case DatalinesWidth => "datalines_width"
    case LandmarksActive => "landmarks_active"
    case LandmarksColor => "landmarks_color"
    case LandmarksSize => "landmarks_size"
    case LandmarksSymbols => "landmarks_symbols"
    case ShowGrid => "show_grid"
    case StepSize => "step_size"
    case SymbolIntervals => "symbol_intervals"
    case SymbolIntervalsColor => "symbol_intervals_color"
    case SymbolIntervalsWidth => "symbol_intervals_width"
    case SymbolValues => "symbol_values"
    case SymbolValuesFixedHeight => "symbol_values_fixed_height"
    case SymbolValuesHeightFactor => "symbol_values_height_factor"
    case SymbolValuesPosition => "symbol_values_position"
    case SymbolValuesSize => "symbol_values_size"
    case XRangeDecimals => "x_range_decimals"
    case XRangeMin => "x_range_min"
    case XRangeMax => "x_range_max"
    case XRangeActive => "x_range_active"
    case XRangeValue => "x_range_value"
  }

  /** `receiver_info`: how many receivers, and each one's sensor names. */
  datatype ReceiversInfo = ReceiversInfo(num: nat, sensorNames: seq<seq<string>>)

  /** The parts of `decoder_info` the settings use. */
  datatype DecoderInfo = DecoderInfo(
    decoderType: string,
    receivers: ReceiversInfo,
    additionalNum: nat,
    landmarksNum: nat,
    plotSettings: map<Key, Json>)

  /** The exceptions `load_default_settings` can raise, in the order it can raise them. */
  datatype LoadError =
    | SensorNamesMissing      // an IndexError: fewer sensor-name lists than receivers
    | DatalinesColorMissing   // a KeyError: `landmarks_color` given but `datalines_color` not
    | DecimalsNotANumber      // a TypeError: `x_range_decimals` is not a number

  function Repeat(x: Json, n: nat): (r: seq<Json>)
    ensures |r| == n && forall k :: 0 <= k < n ==> r[k] == x
  {
    seq(n, _ => x)
  }

  /** The number of sensors of the receivers before receiver `r`. */
  function SensorsBefore(names: seq<seq<string>>, r: nat): nat
    requires r <= |names|
  {
    if r == 0 then 0 else SensorsBefore(names, r - 1) + |names[r - 1]|
  }

  /** The default rows of `datalines_active` or `datalines_style`: one `fill` per sensor of each receiver. */
  function FilledRows(num: nat, names: seq<seq<string>>, fill: Json): Json
    requires num <= |names|
  {
    JList(seq(num, r requires 0 <= r < num => JList(Repeat(fill, |names[r]|))))
  }

  /** `n` successive palette colours, from entry `start` on. */
  function Colors(palette: nat -> string, start: nat, n: nat): (r: seq<Json>)
    ensures |r| == n
  {
    seq(n, k requires 0 <= k => JStr(palette(start + k)))
  }

  /** A run of colours splits into two consecutive runs. */
  lemma ColorsSplit(palette: nat -> string, start: nat, m: nat, n: nat)
    ensures Colors(palette, start, m + n) == Colors(palette, start, m) + Colors(palette, start + m, n)
  {
    var whole, parts := Colors(palette, start, m + n), Colors(palette, start, m) + Colors(palette, start + m, n);
    assert forall i :: 0 <= i < m + n ==> whole[i] == parts[i];
  }

  /** The default rows of `datalines_color`: a palette colour per sensor, counted on from `base`. */
  function ColorRows(num: nat, names: seq<seq<string>>, palette: nat -> string, base: nat): (rows: Json)
    requires num <= |names|
    ensures rows.JList? && |rows.items| == num
  {
    if num == 0 then JList([])
    else JList(ColorRows(num - 1, names, palette, base).items
      + [JList(Colors(palette, base + SensorsBefore(names, num - 1), |names[num - 1]|))])
  }

  function Given(ps: map<Key, Json>, k: Key, default: Json): Json {
    if k in ps then ps[k] else default
  }

  /** Whether `load_default_settings` indexes the sensor names, as it does for each absent dataline key. */
  predicate NeedsSensorNames(ps: map<Key, Json>) {
    DatalinesActive !in ps || DatalinesColor !in ps || DatalinesStyle !in ps
  }

  /** The colour counter after `additional_datalines_color`: it advances only for the default. */
  function ColorBase(ps: map<Key, Json>): nat {
    if AdditionalDatalinesColor in ps then 0 else 1
  }

  function Pow10(n: nat): (p: nat)
    ensures p >= 1
  {
    if n == 0 then 1 else 10 * Pow10(n - 1)
  }

  /** `10 ** -n` as a float, modelled exactly: one tenth taken `n` times. */
  function TenthPower(n: nat): (r: real)
    ensures 0.0 < r <= 1.0
  {
    if n == 0 then 1.0 else TenthPower(n - 1) / 10.0
  }

  /** A tenth taken `n` times is one over ten to the `n`. */
  lemma {:induction false} TenthPowerInverse(n: nat)
    ensures TenthPower(n) * Pow10(n) as real == 1.0
  {
    if n > 0 {
      TenthPowerInverse(n - 1);
      assert Pow10(n) as real == 10.0 * Pow10(n - 1) as real;
    }
  }

  /** Why `10 ** (-1 * d)` raises, if it does: only numbers (and booleans, which are ints) have a power. */
  function DecimalsError(d: Json): (r: Option<LoadError>)
    ensures r.None? <==> d.JInt? || d.JBool? || d.JReal?
  {
    match d
    case JInt(_) => None
    case JBool(_) => None
    case JReal(_) => None
    case _ => Some(DecimalsNotANumber)
  }

  /** A whole-numbered `x_range_decimals`: an int, a boolean, or a float with no fractional part. */
  predicate IsWhole(d: Json) {
    d.JInt? || d.JBool? || (d.JReal? && d.r == d.r.Floor as real)
  }

  /** The whole number a whole `x_range_decimals` stands for (`True` is 1). */
  function DecimalsValue(d: Json): int
    requires IsWhole(d)
  {
    match d
    case JInt(e) => e
    case JBool(b) => if b then 1 else 0
    case JReal(x) => x.Floor
  }

  function AsReal(v: Json): real
    requires v.JInt? || v.JReal?
  {
    if v.JInt? then v.i as real else v.r
  }

  /**
   * Python's `10 ** (-1 * d)`: an `int` when `d` is an `int` or `bool` and the
   * exponent is not negative, a float otherwise. Floats of whole exponents are
   * modelled as exact reals; a fractional exponent gives an unevaluated float.
   */
  function TenToMinus(d: Json): (r: Json)
    requires DecimalsError(d).None?
    ensures r.JInt? <==> !d.JReal? && DecimalsValue(d) <= 0
    ensures IsWhole(d) <==> r.JInt? || r.JReal?
    ensures !IsWhole(d) ==> r == JPow10(-d.r)
  {
    if !IsWhole(d) then JPow10(-d.r)
    else
      var e := DecimalsValue(d);
      if e <= 0 then
        if d.JReal? then JReal(Pow10(-e) as real) else JInt(Pow10(-e))
      else
        JReal(TenthPower(e))
  }

  /** For whole `d >= 0`, `10 ** (-1 * d)` is a tenth taken `d` times, the inverse of `10 ** d`. */
  lemma TenToMinusFraction(d: Json)
    requires IsWhole(d) && DecimalsValue(d) >= 0
    ensures AsReal(TenToMinus(d)) == TenthPower(DecimalsValue(d))
  {
  }

  /** For whole `d <= 0`, `10 ** (-1 * d)` is the power of ten `10 ** -d`. */
  lemma TenToMinusPower(d: Json)
    requires IsWhole(d) && DecimalsValue(d) <= 0
    ensures AsReal(TenToMinus(d)) == Pow10(-DecimalsValue(d)) as real
  {
  }

  /** `x_range_decimals` after it has been resolved. */
  function Decimals(ps: map<Key, Json>): Json {
    Given(ps, XRangeDecimals, JInt(1))
  }

  /** The first exception `load_default_settings` raises for `info`, if any. */
  function LoadErrorOf(info: DecoderInfo): (r: Option<LoadError>) {
    var ps := info.plotSettings;
    if NeedsSensorNames(ps) && |info.receivers.sensorNames| < info.receivers.num then Some(SensorNamesMissing)
    else if LandmarksColor in ps && DatalinesColor !in ps then Some(DatalinesColorMissing)
    else if XRangeMin !in ps && DecimalsError(Decimals(ps)).Some? then DecimalsError(Decimals(ps))
    else None
  }

  /** Whether every absent dataline key finds a sensor-name list for each receiver. */
  predicate HasSensorNames(info: DecoderInfo) {
    NeedsSensorNames(info.plotSettings) ==> info.receivers.num <= |info.receivers.sensorNames|
  }

  /** Whether the default of `k` can be worked out without an exception. */
  predicate DefaultReady(info: DecoderInfo, k: Key) {
    match k
    case DatalinesActive | DatalinesColor | DatalinesStyle => info.receivers.num <= |info.receivers.sensorNames|
    case XRangeMin => DecimalsError(Decimals(info.plotSettings)).None?
    case _ => true
  }

  /**
   * The default `load_default_settings` stores under a key the decoder
   * leaves out: lists of one entry per additional dataline, sensor or
   * landmark, or a fixed scalar.
   */
  function Default(info: DecoderInfo, palette: nat -> string, k: Key): (r: Json)
    requires DefaultReady(info, k)
  {
    var ps, num, names := info.plotSettings, info.receivers.num, info.receivers.sensorNames;
    var extra, marks := info.additionalNum, info.landmarksNum;
    match k
    case AdditionalDatalinesActive => JList(Repeat(JBool(true), extra))
    case AdditionalDatalinesColor => JList(Repeat(JStr(palette(0)), extra))
    case AdditionalDatalinesStyle => JList(Repeat(JStr("DashLine"), extra))
    case DatalinesActive => FilledRows(num, names, JBool(true))
    case DatalinesColor => ColorRows(num, names, palette, ColorBase(ps))
    case DatalinesStyle => FilledRows(num, names, JStr("SolidLine"))
    case LandmarksActive => JList(Repeat(JBool(true), marks))
    case LandmarksColor => JList(Repeat(JStr("k"), marks))
    case LandmarksSize => JInt(15)
    case LandmarksSymbols => JList(Repeat(JStr("o"), marks))
    case ShowGrid => JStr("x-axis and y-axis")
    case SymbolIntervals | SymbolValues | XRangeActive => JBool(true)
    case SymbolIntervalsColor => JStr("k")
    case SymbolValuesHeightFactor => JReal(1.1)
    case SymbolValuesPosition => JStr("Above")
    case SymbolValuesSize => JInt(20)
    case XRangeMin => TenToMinus(Decimals(ps))
    case XRangeMax => JInt(100)
    case XRangeValue => JInt(10)
    case AdditionalDatalinesWidth | DatalinesWidth | StepSize | SymbolIntervalsWidth
       | SymbolValuesFixedHeight | XRangeDecimals => JInt(1)
  }

  /** Whether the setting of `k` can be worked out without an exception. */
  predicate KeyReady(info: DecoderInfo, k: Key) {
    var ps := info.plotSettings;
    if k in ps then k == LandmarksColor ==> DatalinesColor in ps else DefaultReady(info, k)
  }

  /**
   * The setting `load_default_settings` stores under `k`: the decoder's own
   * or else the default. A supplied `landmarks_color` is read from the
   * supplied `datalines_color`, as the source does.
   */
  function Setting(info: DecoderInfo, palette: nat -> string, k: Key): (r: Json)
    requires KeyReady(info, k)
  {
    var ps := info.plotSettings;
    if k in ps then (if k == LandmarksColor then ps[DatalinesColor] else ps[k]) else Default(info, palette, k)
  }

  /** The keys of each block of `load_default_settings`, in its order. */
  const AdditionalKeys: set<Key> :=
    {AdditionalDatalinesActive, AdditionalDatalinesColor, AdditionalDatalinesStyle, AdditionalDatalinesWidth}
  const DatalinesKeys: set<Key> := {DatalinesActive, DatalinesColor, DatalinesStyle, DatalinesWidth}
  const LandmarksKeys: set<Key> := {LandmarksActive, LandmarksColor, LandmarksSize, LandmarksSymbols}
  const IntervalKeys: set<Key> := {ShowGrid, StepSize, SymbolIntervals, SymbolIntervalsColor, SymbolIntervalsWidth}
  const SymbolValueKeys: set<Key> :=
    {SymbolValues, SymbolValuesFixedHeight, SymbolValuesHeightFactor, SymbolValuesPosition, SymbolValuesSize}
  const DecimalsKeys: set<Key> := {XRangeDecimals, XRangeMin}
  const XRangeKeys: set<Key> := {XRangeMax, XRangeActive, XRangeValue}
  const AllKeys: set<Key> :=
    AdditionalKeys + DatalinesKeys + LandmarksKeys + IntervalKeys + SymbolValueKeys + DecimalsKeys + XRangeKeys

  /** The settings of `keys`. */
  function Settings(info: DecoderInfo, palette: nat -> string, keys: set<Key>): map<Key, Json>
    requires forall k :: k in keys ==> KeyReady(info, k)
  {
    map k | k in keys :: Setting(info, palette, k)
  }

  /** Without an exception every setting can be worked out. */
  lemma ReadyWhenLoadable(info: DecoderInfo)
    requires LoadErrorOf(info).None?
    ensures forall k :: KeyReady(info, k)
  {
  }

  /** The settings `load_default_settings` produces when it raises nothing. */
  function DefaultSettings(info: DecoderInfo, palette: nat -> string): map<Key, Json>
    requires LoadErrorOf(info).None?
  {
    ReadyWhenLoadable(info);
    Settings(info, palette, AllKeys)
  }

  /** The settings of two blocks together are the settings of both blocks' keys. */
  lemma SettingsUnion(info: DecoderInfo, palette: nat -> string, a: set<Key>, b: set<Key>)
    requires forall k :: k in a + b ==> KeyReady(info, k)
    ensures Settings(info, palette, a) + Settings(info, palette, b) == Settings(info, palette, a + b)
  {
  }

  /** The colour counter after a successful load. */
  function ColorsUsed(info: DecoderInfo): nat
    requires LoadErrorOf(info).None?
  {
    var ps := info.plotSettings;
    ColorBase(ps) + if DatalinesColor in ps then 0 else SensorsBefore(info.receivers.sensorNames, info.receivers.num)
  }

  /** The colour counter when the load stops with an exception. */
  function CounterAtError(info: DecoderInfo): nat {
    var ps := info.plotSettings;
    var names := info.receivers.sensorNames;
    if LoadErrorOf(info) == Some(SensorNamesMissing) && DatalinesActive !in ps then ColorBase(ps)
    else if LoadErrorOf(info) == Some(SensorNamesMissing) && DatalinesColor !in ps then
      ColorBase(ps) + SensorsBefore(names, |names|)
    else ColorBase(ps) + if DatalinesColor in ps || |names| < info.receivers.num then 0
      else SensorsBefore(names, info.receivers.num)
  }

  /**
   * The loops that build the default `datalines_active` and `datalines_style`
   * rows; `None` is the IndexError of a missing sensor-name list.
   */
  method DefaultRows(num: nat, names: seq<seq<string>>, fill: Json) returns (rows: Option<Json>)
    ensures rows.None? <==> |names| < num
    ensures rows.Some? ==> rows.value == FilledRows(num, names, fill)
  {
    var acc: seq<Json> := [];
    for r := 0 to num
      invariant r <= |names| && |acc| == r
      invariant forall q :: 0 <= q < r ==> acc[q] == JList(Repeat(fill, |names[q]|))
    {
      if r >= |names| {
        return None;
      }
      acc := acc + [JList(Repeat(fill, |names[r]|))];
    }
    rows := Some(JList(acc));
  }

  /** All the items of a list of lists, in order. */
  function Flatten(rows: seq<Json>): seq<Json> {
    if rows == [] then []
    else Flatten(rows[..|rows| - 1]) + (if rows[|rows| - 1].JList? then rows[|rows| - 1].items else [])
  }

  /** Appending a row appends its items. */
  lemma FlattenSnoc(rows: seq<Json>, items: seq<Json>)
    ensures Flatten(rows + [JList(items)]) == Flatten(rows) + items
  {
    assert (rows + [JList(items)])[..|rows|] == rows;
  }

  /** A receiver's run of colours, appended as a row, extends the flattened colours by that run. */
  lemma AppendRun(rows: seq<Json>, palette: nat -> string, base: nat, before: nat, n: nat)
    requires Flatten(rows) == Colors(palette, base, before)
    ensures Flatten(rows + [JList(Colors(palette, base + before, n))]) == Colors(palette, base, before + n)
  {
    FlattenSnoc(rows, Colors(palette, base + before, n));
    ColorsSplit(palette, base, before, n);
  }

  /** One more receiver: its row of colours continues the flattened colours of the receivers before it. */
  lemma ColorRowsStep(num: nat, names: seq<seq<string>>, palette: nat -> string, base: nat)
    requires 0 < num <= |names|
    requires Flatten(ColorRows(num - 1, names, palette, base).items) == Colors(palette, base, SensorsBefore(names, num - 1))
    ensures Flatten(ColorRows(num, names, palette, base).items) == Colors(palette, base, SensorsBefore(names, num))
  {
    var rows, before, n := ColorRows(num - 1, names, palette, base).items, SensorsBefore(names, num - 1), |names[num - 1]|;
    ColorRowsLast(num, names, palette, base);
    AppendRun(rows, palette, base, before, n);
  }

  /** The last colour row is the run of colours of the last receiver. */
  lemma ColorRowsLast(num: nat, names: seq<seq<string>>, palette: nat -> string, base: nat)
    requires 0 < num <= |names|
    ensures ColorRows(num, names, palette, base).items == ColorRows(num - 1, names, palette, base).items
      + [JList(Colors(palette, base + SensorsBefore(names, num - 1), |names[num - 1]|))]
    ensures SensorsBefore(names, num) == SensorsBefore(names, num - 1) + |names[num - 1]|
  {
  }

  /** The default colours, read receiver by receiver, are consecutive palette entries from `base`. */
  lemma {:induction false} ColorsConsecutive(num: nat, names: seq<seq<string>>, palette: nat -> string, base: nat)
    requires num <= |names|
    ensures Flatten(ColorRows(num, names, palette, base).items) == Colors(palette, base, SensorsBefore(names, num))
  {
    if num > 0 {
      ColorsConsecutive(num - 1, names, palette, base);
      ColorRowsStep(num, names, palette, base);
    }
  }

  /** The additional-dataline settings, key by key. */
  lemma AdditionalSettings(info: DecoderInfo, palette: nat -> string)
    ensures Settings(info, palette, AdditionalKeys) == map[
      AdditionalDatalinesActive := Setting(info, palette, AdditionalDatalinesActive),
      AdditionalDatalinesColor := Setting(info, palette, AdditionalDatalinesColor),
      AdditionalDatalinesStyle := Setting(info, palette, AdditionalDatalinesStyle),
      AdditionalDatalinesWidth := Setting(info, palette, AdditionalDatalinesWidth)]
  {
  }

  /** The dataline settings, key by key. */
  lemma DatalinesSettings(info: DecoderInfo, palette: nat -> string)
    requires HasSensorNames(info)
    ensures Settings(info, palette, DatalinesKeys) == map[
      DatalinesActive := Setting(info, palette, DatalinesActive),
      DatalinesColor := Setting(info, palette, DatalinesColor),
      DatalinesStyle := Setting(info, palette, DatalinesStyle),
      DatalinesWidth := Setting(info, palette, DatalinesWidth)]
  {
  }

  /** Lines 103-121: the landmarks; `None` is the KeyError of a missing `datalines_color`. */
  method LandmarksDefaults(info: DecoderInfo, palette: nat -> string) returns (part: Option<map<Key, Json>>)
    ensures part.Some? <==> (LandmarksColor in info.plotSettings ==> DatalinesColor in info.plotSettings)
    ensures part.Some? ==> part.value == Settings(info, palette, LandmarksKeys)
  {
    var ps, n := info.plotSettings, info.landmarksNum;
    var s: map<Key, Json> := map[];
    s := s[LandmarksActive := Given(ps, LandmarksActive, JList(Repeat(JBool(true), n)))];
    if LandmarksColor in ps {
      if DatalinesColor !in ps {
        return None;
      }
      s := s[LandmarksColor := ps[DatalinesColor]];
    } else {
      s := s[LandmarksColor := JList(Repeat(JStr("k"), n))];
    }
    s := s[LandmarksSize := Given(ps, LandmarksSize, JInt(15))];
    s := s[LandmarksSymbols := Given(ps, LandmarksSymbols, JList(Repeat(JStr("o"), n)))];
    LandmarksSettings(info, palette);
    part := Some(s);
  }

  /** The landmark settings, key by key. */
  lemma LandmarksSettings(info: DecoderInfo, palette: nat -> string)
    requires LandmarksColor in info.plotSettings ==> DatalinesColor in info.plotSettings
    ensures Settings(info, palette, LandmarksKeys) == map[
      LandmarksActive := Setting(info, palette, LandmarksActive),
      LandmarksColor := Setting(info, palette, LandmarksColor),
      LandmarksSize := Setting(info, palette, LandmarksSize),
      LandmarksSymbols := Setting(info, palette, LandmarksSymbols)]
  {
  }

  /** Lines 123-146: the grid, the step size and the symbol intervals. */
  method IntervalDefaults(info: DecoderInfo, palette: nat -> string) returns (part: map<Key, Json>)
    ensures part == Settings(info, palette, IntervalKeys)
  {
    var ps := info.plotSettings;
    part := map[];
    part := part[ShowGrid := Given(ps, ShowGrid, JStr("x-axis and y-axis"))];
    part := part[StepSize := Given(ps, StepSize, JInt(1))];
    part := part[SymbolIntervals := Given(ps, SymbolIntervals, JBool(true))];
    part := part[SymbolIntervalsColor := Given(ps, SymbolIntervalsColor, JStr("k"))];
    part := part[SymbolIntervalsWidth := Given(ps, SymbolIntervalsWidth, JInt(1))];
    IntervalSettings(info, palette);
  }

  /** The grid, step and symbol-interval settings, key by key. */
  lemma IntervalSettings(info: DecoderInfo, palette: nat -> string)
    ensures Settings(info, palette, IntervalKeys) == map[
      ShowGrid := Setting(info, palette, ShowGrid),
      StepSize := Setting(info, palette, StepSize),
      SymbolIntervals := Setting(info, palette, SymbolIntervals),
      SymbolIntervalsColor := Setting(info, palette, SymbolIntervalsColor),
      SymbolIntervalsWidth := Setting(info, palette, SymbolIntervalsWidth)]
  {
  }

  /** Lines 148-171: the symbol values. */
  method SymbolValueDefaults(info: DecoderInfo, palette: nat -> string) returns (part: map<Key, Json>)
    ensures part == Settings(info, palette, SymbolValueKeys)
  {
    var ps := info.plotSettings;
    part := map[];
    part := part[SymbolValues := Given(ps, SymbolValues, JBool(true))];
    part := part[SymbolValuesFixedHeight := Given(ps, SymbolValuesFixedHeight, JInt(1))];
    part := part[SymbolValuesHeightFactor := Given(ps, SymbolValuesHeightFactor, JReal(1.1))];
    part := part[SymbolValuesPosition := Given(ps, SymbolValuesPosition, JStr("Above"))];
    part := part[SymbolValuesSize := Given(ps, SymbolValuesSize, JInt(20))];
    SymbolValueSettings(info, palette);
  }

  /** The symbol-value settings, key by key: the decoder's own or the default. */
  lemma SymbolValueSettings(info: DecoderInfo, palette: nat -> string)
    ensures var ps := info.plotSettings;
      Settings(info, palette, SymbolValueKeys) == map[
      SymbolValues := Given(ps, SymbolValues, JBool(true)),
      SymbolValuesFixedHeight := Given(ps, SymbolValuesFixedHeight, JInt(1)),
      SymbolValuesHeightFactor := Given(ps, SymbolValuesHeightFactor, JReal(1.1)),
      SymbolValuesPosition := Given(ps, SymbolValuesPosition, JStr("Above")),
      SymbolValuesSize := Given(ps, SymbolValuesSize, JInt(20))]
  {
  }

  /** Lines 173-181: the decimals and the lower end of the x range; `problem` is why `10 ** (-1 * decimals)` failed, if it did. */
  method DecimalsDefaults(info: DecoderInfo, palette: nat -> string) returns (part: map<Key, Json>, problem: Option<LoadError>)
    ensures problem == if XRangeMin in info.plotSettings then None else DecimalsError(Decimals(info.plotSettings))
    ensures problem.None? ==> part == Settings(info, palette, DecimalsKeys)
  {
    var ps := info.plotSettings;
    part := map[];
    problem := None;
    part := part[XRangeDecimals := Given(ps, XRangeDecimals, JInt(1))];
    if XRangeMin in ps {
      part := part[XRangeMin := ps[XRangeMin]];
    } else {
      var decimals := part[XRangeDecimals];
      problem := DecimalsError(decimals);
      if problem.Some? {
        return;
      }
      part := part[XRangeMin := TenToMinus(decimals)];
    }
    DecimalsSettings(info, palette);
  }

  /** The decimal settings, key by key. */
  lemma DecimalsSettings(info: DecoderInfo, palette: nat -> string)
    requires XRangeMin !in info.plotSettings ==> DecimalsError(Decimals(info.plotSettings)).None?
    ensures Settings(info, palette, DecimalsKeys) == map[
      XRangeDecimals := Setting(info, palette, XRangeDecimals), XRangeMin := Setting(info, palette, XRangeMin)]
  {
  }

  /** Lines 183-196: the rest of the x range. */
  method XRangeDefaults(info: DecoderInfo, palette: nat -> string) returns (part: map<Key, Json>)
    ensures part == Settings(info, palette, XRangeKeys)
  {
    var ps := info.plotSettings;
    part := map[];
    part := part[XRangeMax := Given(ps, XRangeMax, JInt(100))];
    part := part[XRangeActive := Given(ps, XRangeActive, JBool(true))];
    part := part[XRangeValue := Given(ps, XRangeValue, JInt(10))];
    XRangeSettings(info, palette);
  }

  /** The remaining x-range settings, key by key. */
  lemma XRangeSettings(info: DecoderInfo, palette: nat -> string)
    ensures Settings(info, palette, XRangeKeys) == map[
      XRangeMax := Setting(info, palette, XRangeMax), XRangeActive := Setting(info, palette, XRangeActive),
      XRangeValue := Setting(info, palette, XRangeValue)]
  {
  }

  /** The settings name every key, whatever the decoder supplies. */
  lemma EveryKeySet(info: DecoderInfo, palette: nat -> string, k: Key)
    requires LoadErrorOf(info).None?
    ensures k in DefaultSettings(info, palette)
  {
  }

  /**
   * A key the decoder supplies is copied as it is, except `landmarks_color`,
   * which is read from the supplied `datalines_color`.
   */
  lemma SuppliedKeysCopied(info: DecoderInfo, palette: nat -> string, k: Key)
    requires LoadErrorOf(info).None? && k in info.plotSettings
    ensures k != LandmarksColor ==> DefaultSettings(info, palette)[k] == info.plotSettings[k]
    ensures k == LandmarksColor ==> DefaultSettings(info, palette)[k] == info.plotSettings[DatalinesColor]
  {
  }

  /** A key the decoder leaves out gets its default. */
  lemma AbsentKeysDefaulted(info: DecoderInfo, palette: nat -> string, k: Key)
    requires LoadErrorOf(info).None? && k !in info.plotSettings
    ensures DefaultReady(info, k) && DefaultSettings(info, palette)[k] == Default(info, palette, k)
  {
  }

  /** Supplying `landmarks_color` without `datalines_color` fails the load, with a KeyError unless the sensor names already failed it. */
  lemma LandmarksColorNeedsDatalinesColor(info: DecoderInfo)
    requires LandmarksColor in info.plotSettings && DatalinesColor !in info.plotSettings
    ensures LoadErrorOf(info).Some?
    ensures HasSensorNames(info) ==> LoadErrorOf(info) == Some(DatalinesColorMissing)
  {
  }

  /**
   * The additional datalines left out by the decoder: every line active,
   * every line palette colour 0, every line dashed, width 1.
   */
  lemma AdditionalDefaultsShape(info: DecoderInfo, palette: nat -> string)
    requires LoadErrorOf(info).None?
    ensures var ps, d, n := info.plotSettings, DefaultSettings(info, palette), info.additionalNum;
      && (AdditionalDatalinesActive !in ps ==> d[AdditionalDatalinesActive] == JList(Repeat(JBool(true), n)))
      && (AdditionalDatalinesColor !in ps ==> d[AdditionalDatalinesColor] == JList(Repeat(JStr(palette(0)), n)))
      && (AdditionalDatalinesStyle !in ps ==> d[AdditionalDatalinesStyle] == JList(Repeat(JStr("DashLine"), n)))
      && (AdditionalDatalinesWidth !in ps ==> d[AdditionalDatalinesWidth] == JInt(1))
  {
    var ps := info.plotSettings;
    if AdditionalDatalinesActive !in ps { AbsentKeysDefaulted(info, palette, AdditionalDatalinesActive); }
    if AdditionalDatalinesColor !in ps { AbsentKeysDefaulted(info, palette, AdditionalDatalinesColor); }
    if AdditionalDatalinesStyle !in ps { AbsentKeysDefaulted(info, palette, AdditionalDatalinesStyle); }
    if AdditionalDatalinesWidth !in ps { AbsentKeysDefaulted(info, palette, AdditionalDatalinesWidth); }
  }

  /** The datalines left out by the decoder: rows per receiver of `True`, successive colours, `SolidLine`; width 1. */
  lemma DatalineDefaults(info: DecoderInfo, palette: nat -> string)
    requires LoadErrorOf(info).None?
    ensures var ps, d, num, names := info.plotSettings, DefaultSettings(info, palette), info.receivers.num, info.receivers.sensorNames;
      && (NeedsSensorNames(ps) ==> num <= |names|)
      && (DatalinesActive !in ps ==> d[DatalinesActive] == FilledRows(num, names, JBool(true)))
      && (DatalinesColor !in ps ==> d[DatalinesColor] == ColorRows(num, names, palette, ColorBase(ps)))
      && (DatalinesStyle !in ps ==> d[DatalinesStyle] == FilledRows(num, names, JStr("SolidLine")))
      && (DatalinesWidth !in ps ==> d[DatalinesWidth] == JInt(1))
  {
    var ps := info.plotSettings;
    if DatalinesActive !in ps { AbsentKeysDefaulted(info, palette, DatalinesActive); }
    if DatalinesColor !in ps { AbsentKeysDefaulted(info, palette, DatalinesColor); }
    if DatalinesStyle !in ps { AbsentKeysDefaulted(info, palette, DatalinesStyle); }
    if DatalinesWidth !in ps { AbsentKeysDefaulted(info, palette, DatalinesWidth); }
  }

  /** Default `True` or `SolidLine` rows: one per receiver, each with one entry per sensor of that receiver. */
  lemma FilledRowsShape(num: nat, names: seq<seq<string>>, fill: Json, r: nat)
    requires num <= |names| && r < num
    ensures |FilledRows(num, names, fill).items| == num
    ensures |FilledRows(num, names, fill).items[r].items| == |names[r]|
    ensures forall k :: 0 <= k < |names[r]| ==> FilledRows(num, names, fill).items[r].items[k] == fill
  {
  }

  /** Default colour rows: one per receiver, each with one colour per sensor, counted on receiver-major from `base`. */
  lemma {:induction false} ColorRowsShape(num: nat, names: seq<seq<string>>, palette: nat -> string, base: nat, r: nat)
    requires num <= |names| && r < num
    ensures |ColorRows(num, names, palette, base).items| == num
    ensures ColorRows(num, names, palette, base).items[r] == JList(Colors(palette, base + SensorsBefore(names, r), |names[r]|))
    ensures |ColorRows(num, names, palette, base).items[r].items| == |names[r]|
    ensures forall k :: 0 <= k < |names[r]| ==>
      ColorRows(num, names, palette, base).items[r].items[k] == JStr(palette(base + SensorsBefore(names, r) + k))
  {
    if r < num - 1 {
      ColorRowsShape(num - 1, names, palette, base, r);
    }
  }

  /** The landmarks left out by the decoder: every landmark active, black and a circle, size 15. */
  lemma LandmarkDefaultsShape(info: DecoderInfo, palette: nat -> string)
    requires LoadErrorOf(info).None?
    ensures var ps, d, n := info.plotSettings, DefaultSettings(info, palette), info.landmarksNum;
      && (LandmarksActive !in ps ==> d[LandmarksActive] == JList(Repeat(JBool(true), n)))
      && (LandmarksColor !in ps ==> d[LandmarksColor] == JList(Repeat(JStr("k"), n)))
      && (LandmarksSize !in ps ==> d[LandmarksSize] == JInt(15))
      && (LandmarksSymbols !in ps ==> d[LandmarksSymbols] == JList(Repeat(JStr("o"), n)))
  {
    var ps := info.plotSettings;
    if LandmarksActive !in ps { AbsentKeysDefaulted(info, palette, LandmarksActive); }
    if LandmarksColor !in ps { AbsentKeysDefaulted(info, palette, LandmarksColor); }
    if LandmarksSize !in ps { AbsentKeysDefaulted(info, palette, LandmarksSize); }
    if LandmarksSymbols !in ps { AbsentKeysDefaulted(info, palette, LandmarksSymbols); }
  }

  /** The defaults of the grid, the step size and the symbol intervals. */
  lemma IntervalDefaultsShape(info: DecoderInfo, palette: nat -> string)
    requires LoadErrorOf(info).None?
    ensures var ps, d := info.plotSettings, DefaultSettings(info, palette);
      && (ShowGrid !in ps ==> d[ShowGrid] == JStr("x-axis and y-axis"))
      && (StepSize !in ps ==> d[StepSize] == JInt(1))
      && (SymbolIntervals !in ps ==> d[SymbolIntervals] == JBool(true))
      && (SymbolIntervalsColor !in ps ==> d[SymbolIntervalsColor] == JStr("k"))
      && (SymbolIntervalsWidth !in ps ==> d[SymbolIntervalsWidth] == JInt(1))
  {
    var ps := info.plotSettings;
    if ShowGrid !in ps { AbsentKeysDefaulted(info, palette, ShowGrid); }
    if StepSize !in ps { AbsentKeysDefaulted(info, palette, StepSize); }
    if SymbolIntervals !in ps { AbsentKeysDefaulted(info, palette, SymbolIntervals); }
    if SymbolIntervalsColor !in ps { AbsentKeysDefaulted(info, palette, SymbolIntervalsColor); }
    if SymbolIntervalsWidth !in ps { AbsentKeysDefaulted(info, palette, SymbolIntervalsWidth); }
  }

  /** The defaults of the symbol values. */
  lemma SymbolValueDefaultsShape(info: DecoderInfo, palette: nat -> string)
    requires LoadErrorOf(info).None?
    ensures var ps, d := info.plotSettings, DefaultSettings(info, palette);
      && (SymbolValues !in ps ==> d[SymbolValues] == JBool(true))
      && (SymbolValuesFixedHeight !in ps ==> d[SymbolValuesFixedHeight] == JInt(1))
      && (SymbolValuesHeightFactor !in ps ==> d[SymbolValuesHeightFactor] == JReal(1.1))
      && (SymbolValuesPosition !in ps ==> d[SymbolValuesPosition] == JStr("Above"))
      && (SymbolValuesSize !in ps ==> d[SymbolValuesSize] == JInt(20))
  {
    var ps := info.plotSettings;
    if SymbolValues !in ps { AbsentKeysDefaulted(info, palette, SymbolValues); }
    if SymbolValuesFixedHeight !in ps { AbsentKeysDefaulted(info, palette, SymbolValuesFixedHeight); }
    if SymbolValuesHeightFactor !in ps { AbsentKeysDefaulted(info, palette, SymbolValuesHeightFactor); }
    if SymbolValuesPosition !in ps { AbsentKeysDefaulted(info, palette, SymbolValuesPosition); }
    if SymbolValuesSize !in ps { AbsentKeysDefaulted(info, palette, SymbolValuesSize); }
  }

  /** The x-range defaults: 1 decimal, up to 100, active, value 10. */
  lemma XRangeDefaultsShape(info: DecoderInfo, palette: nat -> string)
    requires LoadErrorOf(info).None?
    ensures var ps, d := info.plotSettings, DefaultSettings(info, palette);
      && (XRangeDecimals !in ps ==> d[XRangeDecimals] == JInt(1))
      && (XRangeMax !in ps ==> d[XRangeMax] == JInt(100))
      && (XRangeActive !in ps ==> d[XRangeActive] == JBool(true))
      && (XRangeValue !in ps ==> d[XRangeValue] == JInt(10))
  {
    var ps := info.plotSettings;
    if XRangeDecimals !in ps { AbsentKeysDefaulted(info, palette, XRangeDecimals); }
    if XRangeMax !in ps { AbsentKeysDefaulted(info, palette, XRangeMax); }
    if XRangeActive !in ps { AbsentKeysDefaulted(info, palette, XRangeActive); }
    if XRangeValue !in ps { AbsentKeysDefaulted(info, palette, XRangeValue); }
  }

  /**
   * The default `x_range_min` is ten to the minus the resolved decimals, so
   * one tenth when the decimals are left out too.
   */
  lemma XRangeMinDefault(info: DecoderInfo, palette: nat -> string)
    requires LoadErrorOf(info).None? && XRangeMin !in info.plotSettings
    ensures DefaultSettings(info, palette)[XRangeDecimals] == Decimals(info.plotSettings)
    ensures DefaultSettings(info, palette)[XRangeMin] == TenToMinus(Decimals(info.plotSettings))
    ensures XRangeDecimals !in info.plotSettings ==> DefaultSettings(info, palette)[XRangeMin] == JReal(0.1)
  {
    AbsentKeysDefaulted(info, palette, XRangeMin);
    if XRangeDecimals in info.plotSettings {
      SuppliedKeysCopied(info, palette, XRangeDecimals);
    } else {
      AbsentKeysDefaulted(info, palette, XRangeDecimals);
      assert Pow10(1) == 10;
    }
  }

  /**
   * A fractional float `x_range_decimals` without an `x_range_min` loads: the
   * lower end of the x range is the float `10 ** -decimals`.
   */
  lemma FractionalDecimalsLoad(info: DecoderInfo, palette: nat -> string)
    requires HasSensorNames(info)
    requires LandmarksColor in info.plotSettings ==> DatalinesColor in info.plotSettings
    requires XRangeMin !in info.plotSettings && XRangeDecimals in info.plotSettings
    requires info.plotSettings[XRangeDecimals].JReal? && !IsWhole(info.plotSettings[XRangeDecimals])
    ensures LoadErrorOf(info).None?
    ensures DefaultSettings(info, palette)[XRangeMin] == JPow10(-info.plotSettings[XRangeDecimals].r)
  {
    var d := info.plotSettings[XRangeDecimals];
    assert Decimals(info.plotSettings) == d && DecimalsError(d).None?;
    assert LoadErrorOf(info).None?;
    AbsentKeysDefaulted(info, palette, XRangeMin);
  }

  /** Where the settings of a decoder type are stored. */
  function SettingsPath(decoderType: string): string {
    "Utils/PlotSettings/DecoderPlotSettings/plot_settings_" + decoderType + ".json"
  }

  class PlotSettings {
    const path: string
    /** The current settings; None once they have been saved. */
    var settings: Option<map<Key, Json>>
    var currentColor: nat
    /** What has been written to the settings file, in order. */
    var written: seq<map<Key, Json>>

    /**
     * `stored` is what the settings file held, if it could be read. Whatever
     * it held, construction ends by loading the defaults over it.
     */
    constructor (info: DecoderInfo, palette: nat -> string, stored: Option<map<Key, Json>>)
      requires LoadErrorOf(info).None?
      ensures path == SettingsPath(info.decoderType)
      ensures settings == Some(DefaultSettings(info, palette))
      ensures currentColor == ColorsUsed(info) && written == []
    {
      path := SettingsPath(info.decoderType);
      settings := stored;
      currentColor := 0;
      written := [];
      new;
      var err := LoadDefaultSettings(info, palette);
    }

    /** The loops that build the default `datalines_color` rows, advancing the colour counter per sensor. */
    method DefaultDatalinesColor(num: nat, names: seq<seq<string>>, palette: nat -> string) returns (rows: Option<Json>)
      modifies this`currentColor
      ensures rows.None? <==> |names| < num
      ensures rows.Some? ==>
        rows.value == ColorRows(num, names, palette, old(currentColor))
        && currentColor == old(currentColor) + SensorsBefore(names, num)
      ensures rows.None? ==> currentColor == old(currentColor) + SensorsBefore(names, |names|)
    {
      ghost var base := currentColor;
      var acc: seq<Json> := [];
      for r := 0 to num
        invariant r <= |names|
        invariant currentColor == base + SensorsBefore(names, r)
        invariant acc == ColorRows(r, names, palette, base).items
      {
        if r >= |names| {
          return None;
        }
        var colors := NextColors(|names[r]|, palette);
        acc := acc + [JList(colors)];
      }
      rows := Some(JList(acc));
    }

    /** The inner loop of the default `datalines_color`: the next `n` palette colours, advancing the counter past them. */
    method NextColors(n: nat, palette: nat -> string) returns (colors: seq<Json>)
      modifies this`currentColor
      ensures colors == Colors(palette, old(currentColor), n)
      ensures currentColor == old(currentColor) + n
    {
      colors := [];
      for k := 0 to n
        invariant |colors| == k && currentColor == old(currentColor) + k
        invariant forall m :: 0 <= m < k ==> colors[m] == JStr(palette(old(currentColor) + m))
      {
        colors := colors + [JStr(palette(currentColor))];
        currentColor := currentColor + 1;
      }
    }

    /** Lines 49-68 of `load_default_settings`: the additional datalines, from colour counter 0. */
    method AdditionalDefaults(info: DecoderInfo, palette: nat -> string) returns (part: map<Key, Json>)
      modifies this`currentColor
      ensures part == Settings(info, palette, AdditionalKeys)
      ensures currentColor == ColorBase(info.plotSettings)
    {
      var ps, n := info.plotSettings, info.additionalNum;
      part := map[];
      currentColor := 0;
      part := part[AdditionalDatalinesActive := Given(ps, AdditionalDatalinesActive, JList(Repeat(JBool(true), n)))];
      if AdditionalDatalinesColor in ps {
        part := part[AdditionalDatalinesColor := ps[AdditionalDatalinesColor]];
      } else {
        part := part[AdditionalDatalinesColor := JList(Repeat(JStr(palette(currentColor)), n))];
        currentColor := currentColor + 1;
      }
      part := part[AdditionalDatalinesStyle := Given(ps, AdditionalDatalinesStyle, JList(Repeat(JStr("DashLine"), n)))];
      part := part[AdditionalDatalinesWidth := Given(ps, AdditionalDatalinesWidth, JInt(1))];
      AdditionalSettings(info, palette);
    }

    /** Lines 70-101: the datalines; `None` is the IndexError of a missing sensor-name list. */
    method DatalinesDefaults(info: DecoderInfo, palette: nat -> string) returns (part: Option<map<Key, Json>>)
      requires currentColor == ColorBase(info.plotSettings)
      modifies this`currentColor
      ensures part.Some? <==> HasSensorNames(info)
      ensures part.Some? ==> part.value == Settings(info, palette, DatalinesKeys)
      ensures currentColor == ColorBase(info.plotSettings) +
        if DatalinesColor in info.plotSettings || (DatalinesActive !in info.plotSettings && !HasSensorNames(info)) then 0
        else if HasSensorNames(info) then SensorsBefore(info.receivers.sensorNames, info.receivers.num)
        else SensorsBefore(info.receivers.sensorNames, |info.receivers.sensorNames|)
    {
      var ps, num, names := info.plotSettings, info.receivers.num, info.receivers.sensorNames;
      var s: map<Key, Json> := map[];
      if DatalinesActive in ps {
        s := s[DatalinesActive := ps[DatalinesActive]];
      } else {
        var rows := DefaultRows(num, names, JBool(true));
        if rows.None? {
          return None;
        }
        s := s[DatalinesActive := rows.value];
      }
      if DatalinesColor in ps {
        s := s[DatalinesColor := ps[DatalinesColor]];
      } else {
        var rows := DefaultDatalinesColor(num, names, palette);
        if rows.None? {
          return None;
        }
        s := s[DatalinesColor := rows.value];
      }
      if DatalinesStyle in ps {
        s := s[DatalinesStyle := ps[DatalinesStyle]];
      } else {
        var rows := DefaultRows(num, names, JStr("SolidLine"));
        if rows.None? {
          return None;
        }
        s := s[DatalinesStyle := rows.value];
      }
      s := s[DatalinesWidth := Given(ps, DatalinesWidth, JInt(1))];
      DatalinesSettings(info, palette);
      part := Some(s);
    }

    /**
     * `load_default_settings`: fill in every key from the decoder's
     * `plot_settings` or its default, then replace the settings. On an
     * exception the settings are left as they were.
     */
    method LoadDefaultSettings(info: DecoderInfo, palette: nat -> string) returns (err: Option<LoadError>)
      modifies this`settings, this`currentColor
      ensures err == LoadErrorOf(info)
      ensures err.None? ==> settings == Some(DefaultSettings(info, palette)) && currentColor == ColorsUsed(info)
      ensures err.Some? ==> settings == old(settings) && currentColor == CounterAtError(info)
    {
      var additional := AdditionalDefaults(info, palette);
      var datalines := DatalinesDefaults(info, palette);
      if datalines.None? {
        return Some(SensorNamesMissing);
      }
      var landmarks := LandmarksDefaults(info, palette);
      if landmarks.None? {
        return Some(DatalinesColorMissing);
      }
      var intervals := IntervalDefaults(info, palette);
      var symbolValues := SymbolValueDefaults(info, palette);
      var decimals, problem := DecimalsDefaults(info, palette);
      if problem.Some? {
        return problem;
      }
      var xRange := XRangeDefaults(info, palette);
      ReadyWhenLoadable(info);
      SettingsUnion(info, palette, AdditionalKeys, DatalinesKeys);
      SettingsUnion(info, palette, AdditionalKeys + DatalinesKeys, LandmarksKeys);
      SettingsUnion(info, palette, AdditionalKeys + DatalinesKeys + LandmarksKeys, IntervalKeys);
      SettingsUnion(info, palette, AdditionalKeys + DatalinesKeys + LandmarksKeys + IntervalKeys, SymbolValueKeys);
      var front := AdditionalKeys + DatalinesKeys + LandmarksKeys + IntervalKeys + SymbolValueKeys;
      SettingsUnion(info, palette, front, DecimalsKeys);
      SettingsUnion(info, palette, front + DecimalsKeys, XRangeKeys);
      settings := Some(additional + datalines.value + landmarks.value + intervals + symbolValues + decimals + xRange);
      err := None;
    }

    /** `save`: write the settings once; afterwards there is nothing left to save. */
    method Save()
      modifies this`settings, this`written
      ensures written == old(written) + if old(settings).Some? then [old(settings).value] else []
      ensures settings.None?
    {
      if settings.Some? {
        written := written + [settings.value];
        settings := None;
      }
    }
  }
}
