/**
 * The settings file `config.ini`: a "[Settings]" header followed by
 * key=value lines. Reading starts from the defaults and lets each
 * recognised line overwrite one setting, so later lines win; writing
 * emits the header and thirteen lines in a fixed order. The equalizer
 * bands travel in one `EqBands=F:G:Q,F:G:Q` value. Preset file names are
 * made safe for the file system.
 *
 * Number formatting and parsing (.NET culture rules, `float` rounding)
 * are parameters, with only the facts the round trips need.
 */
module Config {
  import opened Wrappers
  import opened Text
  import opened Buffers
  import EQ = Equalizer

  /**
   * `float.TryParse` with the current culture and with the invariant
   * culture, `ToString(CultureInfo.InvariantCulture)`, and the fixed-point
   * formats `F1` and `F2` of the current culture.
   */
  datatype NumberFormat = NumberFormat(
    parseCurrent: string -> Option<real>,
    parseInvariant: string -> Option<real>,
    showInvariant: real -> string,
    fixed1: real -> string,
    fixed2: real -> string)

  /** A character the invariant number format may print: no list or field separator, no white space. */
  predicate ItemSafe(c: char)
  {
    c != ',' && c != ':' && !IsWhiteSpace(c)
  }

  /**
   * What the written file relies on: the invariant format prints no
   * separators or white space, and the fixed-point formats print no line
   * breaks.
   */
  ghost predicate Lawful(fmt: NumberFormat)
  {
    && (forall x, i :: 0 <= i < |fmt.showInvariant(x)| ==> ItemSafe(fmt.showInvariant(x)[i]))
    && (forall x, i :: 0 <= i < |fmt.fixed1(x)| ==> !IsLineBreak(fmt.fixed1(x)[i]))
    && (forall x, i :: 0 <= i < |fmt.fixed2(x)| ==> !IsLineBreak(fmt.fixed2(x)[i]))
  }

  /**
   * The invariant format reads `x` back from its own text. Whether it does
   * depends on the value (a `float` prints its shortest round-tripping
   * text), so the round trips state it per number rather than for all reals.
   */
  ghost predicate ReadsBack(fmt: NumberFormat, x: real)
  {
    fmt.parseInvariant(fmt.showInvariant(x)) == Some(x)
  }

  /** The three numbers of a band all read back. */
  ghost predicate BandReads(fmt: NumberFormat, b: EQ.EqBand)
  {
    ReadsBack(fmt, b.frequency) && ReadsBack(fmt, b.gain) && ReadsBack(fmt, b.q)
  }

  ghost predicate AllBandsRead(fmt: NumberFormat, bands: seq<EQ.EqBand>)
  {
    forall j :: 0 <= j < |bands| ==> BandReads(fmt, bands[j])
  }

  /** The thirteen values `ReadConfig` returns. */
  datatype Settings = Settings(
    gain: real,
    enabled: bool,
    inputId: string,
    outputId: string,
    unlockLimit: bool,
    eqBands: seq<EQ.EqBand>,
    noiseGateThreshold: real,
    limiterThreshold: real,
    limiterEnabled: bool,
    flatMode: bool,
    lastPresetName: string,
    language: string,
    updateCheck: bool)

  /** The values used for every key the file does not set. */
  const Defaults := Settings(1.0, true, "", "", false, [], -80.0, 40.0, false, false, "", "en", true)

  // ---------------------------------------------------------------------
  // Reading
  // ---------------------------------------------------------------------

  /** The keys, one per setting. */
  datatype Key =
    | Value | Enabled | InputDevice | OutputDevice | UnlockLimit | EqBands | NoiseGate
    | FlatMode | Limiter | LimiterEnabled | LastPreset | Language | UpdateCheck

  function KeyText(k: Key): string
  {
    match k
    case Value => "Value"
    case Enabled => "Enabled"
    case InputDevice => "InputDevice"
    case OutputDevice => "OutputDevice"
    case UnlockLimit => "UnlockLimit"
    case EqBands => "EqBands"
    case NoiseGate => "NoiseGate"
    case FlatMode => "FlatMode"
    case Limiter => "Limiter"
    case LimiterEnabled => "LimiterEnabled"
    case LastPreset => "LastPreset"
    case Language => "Language"
    case UpdateCheck => "UpdateCheck"
  }

  /** Whether a trimmed line starts with "key=" for key `k`. */
  predicate HasKey(t: string, k: Key)
  {
    StartsWith(t, KeyText(k) + "=")
  }

  /** The keys in the order the reader tests them. */
  const ReadOrder: seq<Key> :=
    [Value, Enabled, InputDevice, OutputDevice, UnlockLimit, EqBands, NoiseGate,
     FlatMode, Limiter, LimiterEnabled, LastPreset, Language, UpdateCheck]

  /** The first of `keys` whose "key=" starts the trimmed line. */
  function Matching(t: string, keys: seq<Key>): (r: Option<Key>)
    ensures r.Some? ==> r.value in keys && HasKey(t, r.value)
    ensures r.None? ==> forall k :: k in keys ==> !HasKey(t, k)
  {
    if keys == [] then None
    else if HasKey(t, keys[0]) then Some(keys[0])
    else Matching(t, keys[1..])
  }

  /** The key a trimmed line sets, as the reader's chain of `StartsWith` tests finds it. */
  function KeyOf(t: string): (r: Option<Key>)
    ensures r.Some? ==> HasKey(t, r.value)
  {
    Matching(t, ReadOrder)
  }

  /** One setting, whatever its type. */
  datatype Field = Num(n: real) | Flag(b: bool) | Str(s: string) | BandList(bands: seq<EQ.EqBand>)

  function Get(s: Settings, k: Key): Field
  {
    match k
    case Value => Num(s.gain)
    case Enabled => Flag(s.enabled)
    case InputDevice => Str(s.inputId)
    case OutputDevice => Str(s.outputId)
    case UnlockLimit => Flag(s.unlockLimit)
    case EqBands => BandList(s.eqBands)
    case NoiseGate => Num(s.noiseGateThreshold)
    case FlatMode => Flag(s.flatMode)
    case Limiter => Num(s.limiterThreshold)
    case LimiterEnabled => Flag(s.limiterEnabled)
    case LastPreset => Str(s.lastPresetName)
    case Language => Str(s.language)
    case UpdateCheck => Flag(s.updateCheck)
  }

  /**
   * The effect of the value text `v` of a line with key `k`: numbers that
   * do not parse leave the setting alone, a non-negative noise gate
   * becomes -80, flags are on exactly for "1".
   */
  function Assign(s: Settings, k: Key, v: string, fmt: NumberFormat): Settings
  {
    match k
    case Value => (match fmt.parseCurrent(v) case Some(x) => s.(gain := x) case None => s)
    case Enabled => s.(enabled := v == "1")
    case InputDevice => s.(inputId := v)
    case OutputDevice => s.(outputId := v)
    case UnlockLimit => s.(unlockLimit := v == "1")
    case EqBands => s.(eqBands := ParsedBands(v, fmt))
    case NoiseGate =>
      (match fmt.parseCurrent(v) case Some(x) => s.(noiseGateThreshold := if x >= 0.0 then -80.0 else x) case None => s)
    case FlatMode => s.(flatMode := v == "1")
    case Limiter => (match fmt.parseCurrent(v) case Some(x) => s.(limiterThreshold := x) case None => s)
    case LimiterEnabled => s.(limiterEnabled := v == "1")
    case LastPreset => s.(lastPresetName := v)
    case Language => s.(language := v)
    case UpdateCheck => s.(updateCheck := v == "1")
  }

  /** One line of the file: trimmed, matched by key prefix, its value is what follows the '='. */
  function ApplyLine(s: Settings, line: string, fmt: NumberFormat): Settings
  {
    var t := Trim(line);
    match KeyOf(t)
    case None => s
    case Some(k) => Assign(s, k, t[|KeyText(k)| + 1..], fmt)
  }

  /** The lines applied in file order. */
  function ApplyLines(s: Settings, lines: seq<string>, fmt: NumberFormat): Settings
  {
    if lines == [] then s
    else ApplyLine(ApplyLines(s, lines[..|lines| - 1], fmt), lines[|lines| - 1], fmt)
  }

  /** Whether value text `v` overwrites setting `k` (numbers must parse). */
  predicate Decides(k: Key, v: string, fmt: NumberFormat)
  {
    match k
    case Value => fmt.parseCurrent(v).Some?
    case NoiseGate => fmt.parseCurrent(v).Some?
    case Limiter => fmt.parseCurrent(v).Some?
    case _ => true
  }

  /** Whether `line` overwrites setting `k`. */
  predicate LineDecides(line: string, k: Key, fmt: NumberFormat)
  {
    var t := Trim(line);
    KeyOf(t) == Some(k) && Decides(k, t[|KeyText(k)| + 1..], fmt)
  }

  /** A line leaves every setting it does not decide as it was: other keys, unknown lines, numbers that do not parse. */
  lemma ApplyLineFrame(s: Settings, line: string, k: Key, fmt: NumberFormat)
    requires !LineDecides(line, k, fmt)
    ensures Get(ApplyLine(s, line, fmt), k) == Get(s, k)
  {
    var t := Trim(line);
    if KeyOf(t).Some? {
      var k' := KeyOf(t).value;
      AssignFrame(s, k', t[|KeyText(k')| + 1..], k, fmt);
    }
  }

  /** A line that decides a setting sets it to a value that does not depend on what was there before. */
  lemma ApplyLineDecided(s: Settings, s2: Settings, line: string, k: Key, fmt: NumberFormat)
    requires LineDecides(line, k, fmt)
    ensures Get(ApplyLine(s, line, fmt), k) == Get(ApplyLine(s2, line, fmt), k)
  {
    var t := Trim(line);
    AssignDecided(s, s2, k, t[|KeyText(k)| + 1..], fmt);
  }

  lemma AssignFrame(s: Settings, k': Key, v: string, k: Key, fmt: NumberFormat)
    requires k' != k || !Decides(k, v, fmt)
    ensures Get(Assign(s, k', v, fmt), k) == Get(s, k)
  {
    match k' {
      case Value =>
      case Enabled =>
      case InputDevice =>
      case OutputDevice =>
      case UnlockLimit =>
      case EqBands =>
      case NoiseGate =>
      case FlatMode =>
      case Limiter =>
      case LimiterEnabled =>
      case LastPreset =>
      case Language =>
      case UpdateCheck =>
    }
  }

  lemma AssignDecided(s: Settings, s2: Settings, k: Key, v: string, fmt: NumberFormat)
    requires Decides(k, v, fmt)
    ensures Get(Assign(s, k, v, fmt), k) == Get(Assign(s2, k, v, fmt), k)
  {
    match k {
      case Value =>
      case Enabled =>
      case InputDevice =>
      case OutputDevice =>
      case UnlockLimit =>
      case EqBands =>
      case NoiseGate =>
      case FlatMode =>
      case Limiter =>
      case LimiterEnabled =>
      case LastPreset =>
      case Language =>
      case UpdateCheck =>
    }
  }

  /** The last line that decides a setting wins, whatever came before it. */
  lemma {:induction false} LastWins(s: Settings, lines: seq<string>, i: nat, k: Key, fmt: NumberFormat)
    requires i < |lines|
    requires LineDecides(lines[i], k, fmt)
    requires forall j :: i < j < |lines| ==> !LineDecides(lines[j], k, fmt)
    ensures Get(ApplyLines(s, lines, fmt), k) == Get(ApplyLine(s, lines[i], fmt), k)
  {
    var init := lines[..|lines| - 1];
    var last := lines[|lines| - 1];
    if i == |lines| - 1 {
      ApplyLineDecided(ApplyLines(s, init, fmt), s, last, k, fmt);
    } else {
      ApplyLineFrame(ApplyLines(s, init, fmt), last, k, fmt);
      LastWins(s, init, i, k, fmt);
    }
  }

  /** A setting no line decides keeps the value it started with. */
  lemma {:induction false} Untouched(s: Settings, lines: seq<string>, k: Key, fmt: NumberFormat)
    requires forall j :: 0 <= j < |lines| ==> !LineDecides(lines[j], k, fmt)
    ensures Get(ApplyLines(s, lines, fmt), k) == Get(s, k)
  {
    if lines != [] {
      var init := lines[..|lines| - 1];
      Untouched(s, init, k, fmt);
      ApplyLineFrame(ApplyLines(s, init, fmt), lines[|lines| - 1], k, fmt);
    }
  }

  /** The noise gate threshold read from a file is always negative. */
  lemma {:induction false} NoiseGateStaysNegative(s: Settings, lines: seq<string>, fmt: NumberFormat)
    requires s.noiseGateThreshold < 0.0
    ensures ApplyLines(s, lines, fmt).noiseGateThreshold < 0.0
  {
    if lines != [] {
      var before := ApplyLines(s, lines[..|lines| - 1], fmt);
      NoiseGateStaysNegative(s, lines[..|lines| - 1], fmt);
      var t := Trim(lines[|lines| - 1]);
      if KeyOf(t).Some? {
        var k := KeyOf(t).value;
        AssignKeepsGateNegative(before, k, t[|KeyText(k)| + 1..], fmt);
      }
    }
  }

  lemma AssignKeepsGateNegative(s: Settings, k: Key, v: string, fmt: NumberFormat)
    requires s.noiseGateThreshold < 0.0
    ensures Assign(s, k, v, fmt).noiseGateThreshold < 0.0
  {
    match k {
      case Value =>
      case Enabled =>
      case InputDevice =>
      case OutputDevice =>
      case UnlockLimit =>
      case EqBands =>
      case NoiseGate =>
      case FlatMode =>
      case Limiter =>
      case LimiterEnabled =>
      case LastPreset =>
      case Language =>
      case UpdateCheck =>
    }
  }

  /** The index of the first '\r' or '\n' in `s`, or |s|. */
  function BreakIndex(s: string): (i: nat)
    ensures i <= |s|
    ensures i < |s| ==> IsLineBreak(s[i])
    ensures forall j :: 0 <= j < i ==> !IsLineBreak(s[j])
  {
    if s == [] then 0 else if IsLineBreak(s[0]) then 0 else 1 + BreakIndex(s[1..])
  }

  /** `File.ReadAllLines`: lines end at "\r\n", "\n" or "\r"; a final line break does not start an empty line. */
  function ReadLines(text: string): seq<string>
    decreases |text|
  {
    if text == [] then []
    else
      var i := BreakIndex(text);
      if i == |text| then [text]
      else
        var skip := if text[i] == '\r' && i + 1 < |text| && text[i + 1] == '\n' then 2 else 1;
        [text[..i]] + ReadLines(text[i + skip..])
  }

  /** What the settings file can be when it is read. */
  datatype FileState = Missing | Unreadable | Contents(text: string)

  /** The settings `ReadConfig` returns for a file. */
  function ReadSettings(file: FileState, fmt: NumberFormat): Settings
  {
    match file
    case Missing => Defaults
    case Unreadable => Defaults
    case Contents(text) => ApplyLines(Defaults, ReadLines(text), fmt)
  }

  /** `ConfigManager.ReadConfig`, with the file's state as input. */
  method ReadConfig(file: FileState, fmt: NumberFormat) returns (s: Settings)
    ensures s == ReadSettings(file, fmt)
    ensures file.Missing? || file.Unreadable? ==> s == Defaults
    ensures s.noiseGateThreshold < 0.0
  {
    s := Defaults;
    if !file.Contents? {
      return;
    }
    var lines := ReadLines(file.text);
    for i := 0 to |lines|
      invariant s == ApplyLines(Defaults, lines[..i], fmt)
    {
      assert lines[..i + 1][..i] == lines[..i];
      s := ApplyLine(s, lines[i], fmt);
    }
    assert lines[..|lines|] == lines;
    NoiseGateStaysNegative(Defaults, lines, fmt);
  }

  // ---------------------------------------------------------------------
  // Equalizer bands
  // ---------------------------------------------------------------------

  /** One `F:G:Q` item: exactly three parts, each a number in the invariant culture. */
  function ParseItem(item: string, fmt: NumberFormat): Option<EQ.EqBand>
  {
    var parts := Split(item, ':');
    if |parts| != 3 then None
    else
      match (fmt.parseInvariant(parts[0]), fmt.parseInvariant(parts[1]), fmt.parseInvariant(parts[2]))
      case (Some(f), Some(g), Some(q)) => Some(EQ.EqBand(f, g, q, EQ.Peaking))
      case _ => None
  }

  /** The bands of the items that parse, in order; every one is Peaking. */
  function ParseItems(items: seq<string>, fmt: NumberFormat): (r: seq<EQ.EqBand>)
    ensures |r| <= |items|
    ensures forall j :: 0 <= j < |r| ==> r[j].kind == EQ.Peaking
  {
    if items == [] then []
    else
      var init := ParseItems(items[..|items| - 1], fmt);
      match ParseItem(items[|items| - 1], fmt)
      case Some(b) => init + [b]
      case None => init
  }

  /** The band list a value of `EqBands=` stands for. */
  function ParsedBands(data: string, fmt: NumberFormat): seq<EQ.EqBand>
  {
    if IsBlank(data) then [] else ParseItems(RemoveEmpty(Split(data, ',')), fmt)
  }

  /** `ConfigManager.ParseEqBands`. */
  method ParseEqBands(data: string, fmt: NumberFormat) returns (list: seq<EQ.EqBand>)
    ensures list == ParsedBands(data, fmt)
  {
    list := [];
    if IsBlank(data) {
      return;
    }
    var items := RemoveEmpty(Split(data, ','));
    for i := 0 to |items|
      invariant list == ParseItems(items[..i], fmt)
    {
      assert items[..i + 1][..i] == items[..i];
      var parts := Split(items[i], ':');
      if |parts| == 3 {
        var f := fmt.parseInvariant(parts[0]);
        var g := fmt.parseInvariant(parts[1]);
        var q := fmt.parseInvariant(parts[2]);
        if f.Some? && g.Some? && q.Some? {
          list := list + [EQ.EqBand(f.value, g.value, q.value, EQ.Peaking)];
        }
      }
    }
    assert items[..|items|] == items;
  }

  /** The `F:G:Q` text of one band; the type is not written. */
  function ItemText(b: EQ.EqBand, fmt: NumberFormat): string
  {
    Join([fmt.showInvariant(b.frequency), fmt.showInvariant(b.gain), fmt.showInvariant(b.q)], ':')
  }

  function ItemTexts(bands: seq<EQ.EqBand>, fmt: NumberFormat): (r: seq<string>)
    ensures |r| == |bands|
  {
    seq(|bands|, j requires 0 <= j < |bands| => ItemText(bands[j], fmt))
  }

  /** The value `SerializeEqBands` writes: the items separated by ','. */
  function SerializedBands(bands: seq<EQ.EqBand>, fmt: NumberFormat): string
  {
    Join(ItemTexts(bands, fmt), ',')
  }

  /** `ConfigManager.SerializeEqBands`: a ',' before every item but the first. */
  method SerializeEqBands(bands: seq<EQ.EqBand>, fmt: NumberFormat) returns (text: string)
    ensures text == SerializedBands(bands, fmt)
  {
    ghost var items := ItemTexts(bands, fmt);
    text := "";
    for i := 0 to |bands|
      invariant text == Join(items[..i], ',')
      invariant i > 0 ==> |text| > 0
    {
      var item := ItemText(bands[i], fmt);
      ItemHasColon(bands[i], fmt);
      JoinSnoc(items[..i], item, ',');
      PrefixSnoc(items, i);
      if |text| > 0 {
        text := text + ",";
      }
      text := text + item;
    }
    assert items[..|bands|] == items;
  }

  /** The bands with their type reset to Peaking. */
  function AsPeaking(bands: seq<EQ.EqBand>): (r: seq<EQ.EqBand>)
    ensures |r| == |bands|
  {
    seq(|bands|, j requires 0 <= j < |bands| => bands[j].(kind := EQ.Peaking))
  }

  lemma ItemHasColon(b: EQ.EqBand, fmt: NumberFormat)
    ensures |fmt.showInvariant(b.frequency)| < |ItemText(b, fmt)|
    ensures ItemText(b, fmt)[|fmt.showInvariant(b.frequency)|] == ':'
  {
    var f := fmt.showInvariant(b.frequency);
    var g := fmt.showInvariant(b.gain);
    var q := fmt.showInvariant(b.q);
    assert Join([g, q], ':') == g + [':'] + Join([q], ':');
    assert ItemText(b, fmt) == f + [':'] + Join([g, q], ':');
  }

  /** An item reads back as its band, made Peaking. */
  lemma ItemRoundTrip(b: EQ.EqBand, fmt: NumberFormat)
    requires Lawful(fmt) && BandReads(fmt, b)
    ensures ParseItem(ItemText(b, fmt), fmt) == Some(b.(kind := EQ.Peaking))
  {
    var parts := [fmt.showInvariant(b.frequency), fmt.showInvariant(b.gain), fmt.showInvariant(b.q)];
    forall k | 0 <= k < 3
      ensures ':' !in parts[k]
    {
      assert forall i :: 0 <= i < |parts[k]| ==> ItemSafe(parts[k][i]);
    }
    SplitJoin(parts, ':');
  }

  /** Printed items contain no white space and no ','. */
  lemma ItemTextSafe(b: EQ.EqBand, fmt: NumberFormat)
    requires Lawful(fmt)
    ensures forall i :: 0 <= i < |ItemText(b, fmt)| ==> ItemText(b, fmt)[i] != ',' && !IsWhiteSpace(ItemText(b, fmt)[i])
  {
    var parts := [fmt.showInvariant(b.frequency), fmt.showInvariant(b.gain), fmt.showInvariant(b.q)];
    JoinKeeps(parts, ':', c => c != ',' && !IsWhiteSpace(c));
  }

  lemma {:induction false} ParseItemTexts(bands: seq<EQ.EqBand>, fmt: NumberFormat)
    requires Lawful(fmt) && AllBandsRead(fmt, bands)
    ensures ParseItems(ItemTexts(bands, fmt), fmt) == AsPeaking(bands)
  {
    if bands != [] {
      var n := |bands| - 1;
      var items := ItemTexts(bands, fmt);
      ItemTextsPrefix(bands, n, fmt);
      ParseItemTexts(bands[..n], fmt);
      ItemRoundTrip(bands[n], fmt);
      assert ParseItems(items, fmt) == ParseItems(items[..n], fmt) + [bands[n].(kind := EQ.Peaking)];
      AsPeakingSnoc(bands);
    }
  }

  lemma ItemTextsPrefix(bands: seq<EQ.EqBand>, n: nat, fmt: NumberFormat)
    requires n <= |bands|
    ensures ItemTexts(bands, fmt)[..n] == ItemTexts(bands[..n], fmt)
  {
  }

  lemma AsPeakingSnoc(bands: seq<EQ.EqBand>)
    requires bands != []
    ensures AsPeaking(bands) == AsPeaking(bands[..|bands| - 1]) + [bands[|bands| - 1].(kind := EQ.Peaking)]
  {
  }

  /** The serialised bands contain no white space at all. */
  lemma SerializedBandsSafe(bands: seq<EQ.EqBand>, fmt: NumberFormat)
    requires Lawful(fmt)
    ensures forall i :: 0 <= i < |SerializedBands(bands, fmt)| ==> !IsWhiteSpace(SerializedBands(bands, fmt)[i])
  {
    var items := ItemTexts(bands, fmt);
    forall k | 0 <= k < |items|
      ensures forall i :: 0 <= i < |items[k]| ==> !IsWhiteSpace(items[k][i])
    {
      ItemTextSafe(bands[k], fmt);
    }
    JoinKeeps(items, ',', c => !IsWhiteSpace(c));
  }

  /** Serialising and parsing again keeps frequency, gain and Q of every band, and resets its type to Peaking. */
  lemma BandsRoundTrip(bands: seq<EQ.EqBand>, fmt: NumberFormat)
    requires Lawful(fmt) && AllBandsRead(fmt, bands)
    ensures ParsedBands(SerializedBands(bands, fmt), fmt) == AsPeaking(bands)
  {
    var items := ItemTexts(bands, fmt);
    var text := SerializedBands(bands, fmt);
    if bands == [] {
      assert text == "";
    } else {
      ItemHasColon(bands[0], fmt);
      var n := |fmt.showInvariant(bands[0].frequency)|;
      if |items| > 1 {
        assert text == items[0] + [','] + Join(items[1..], ',');
      }
      assert text[n] == ':';
      assert !IsBlank(text);
      forall k | 0 <= k < |items|
        ensures ',' !in items[k] && items[k] != []
      {
        ItemTextSafe(bands[k], fmt);
        ItemHasColon(bands[k], fmt);
      }
      SplitJoin(items, ',');
      ParseItemTexts(bands, fmt);
    }
  }

  // ---------------------------------------------------------------------
  // Writing
  // ---------------------------------------------------------------------

  function Bit(b: bool): string
  {
    if b then "1" else "0"
  }

  /** The line for key `k` with value text `v`. */
  function KeyLine(k: Key, v: string): string
  {
    KeyText(k) + "=" + v
  }

  /** The keys in the order `WriteConfig` writes them. */
  const WriteOrder: seq<Key> :=
    [Value, Enabled, InputDevice, OutputDevice, UnlockLimit, EqBands, NoiseGate,
     Limiter, LimiterEnabled, FlatMode, LastPreset, Language, UpdateCheck]

  /** The value text written for key `k`: F1/F2 numbers, "1"/"0" flags, texts as they are. */
  function WrittenValue(s: Settings, fmt: NumberFormat, k: Key): string
  {
    match k
    case Value => fmt.fixed1(s.gain)
    case Enabled => Bit(s.enabled)
    case InputDevice => s.inputId
    case OutputDevice => s.outputId
    case UnlockLimit => Bit(s.unlockLimit)
    case EqBands => SerializedBands(s.eqBands, fmt)
    case NoiseGate => fmt.fixed2(s.noiseGateThreshold)
    case Limiter => fmt.fixed1(s.limiterThreshold)
    case LimiterEnabled => Bit(s.limiterEnabled)
    case FlatMode => Bit(s.flatMode)
    case LastPreset => s.lastPresetName
    case Language => s.language
    case UpdateCheck => Bit(s.updateCheck)
  }

  /** The lines `WriteConfig` emits: the header, then one key line per key in `WriteOrder`. */
  function ConfigLines(s: Settings, fmt: NumberFormat): (r: seq<string>)
    ensures |r| == 14
  {
    ["[Settings]"] + seq(13, j requires 0 <= j < 13 => KeyLine(WriteOrder[j], WrittenValue(s, fmt, WriteOrder[j])))
  }

  /** Lines each followed by "\r\n" (`StringBuilder.AppendLine`). */
  function Terminated(lines: seq<string>): string
  {
    if lines == [] then "" else Terminated(lines[..|lines| - 1]) + lines[|lines| - 1] + "\r\n"
  }

  /** `ConfigManager.WriteConfig`: the text written to the file. */
  method WriteConfig(s: Settings, fmt: NumberFormat) returns (text: string)
    ensures text == Terminated(ConfigLines(s, fmt))
  {
    var lines := ConfigLines(s, fmt);
    text := "";
    for i := 0 to |lines|
      invariant text == Terminated(lines[..i])
    {
      assert lines[..i + 1][..i] == lines[..i];
      text := text + lines[i] + "\r\n";
    }
    assert lines[..|lines|] == lines;
  }

  lemma {:induction false} TerminatedCons(l: string, rest: seq<string>)
    ensures Terminated([l] + rest) == l + "\r\n" + Terminated(rest)
  {
    if rest != [] {
      var n := |rest| - 1;
      assert ([l] + rest)[..|rest|] == [l] + rest[..n];
      TerminatedCons(l, rest[..n]);
    } else {
      assert ([l] + rest)[..0] == [];
    }
  }

  predicate NoLineBreak(s: string)
  {
    forall i :: 0 <= i < |s| ==> !IsLineBreak(s[i])
  }

  /** Lines without line breaks, each terminated, read back as themselves. */
  lemma {:induction false} ReadTerminated(lines: seq<string>)
    requires forall k :: 0 <= k < |lines| ==> NoLineBreak(lines[k])
    ensures ReadLines(Terminated(lines)) == lines
  {
    if lines != [] {
      var l := lines[0];
      var rest := Terminated(lines[1..]);
      assert lines == [l] + lines[1..];
      TerminatedCons(l, lines[1..]);
      var text := l + "\r\n" + rest;
      assert BreakIndex(text) == |l| by {
        assert text == l + ("\r\n" + rest);
        BreakAfter(l, "\r\n" + rest);
      }
      assert text[|l| + 2..] == rest;
      ReadTerminated(lines[1..]);
    }
  }

  lemma {:induction false} BreakAfter(l: string, rest: string)
    requires NoLineBreak(l)
    requires rest != [] && IsLineBreak(rest[0])
    ensures BreakIndex(l + rest) == |l|
  {
    if l != [] {
      assert (l + rest)[1..] == l[1..] + rest;
      BreakAfter(l[1..], rest);
    }
  }

  /** A key line is recognised as its own key, and its value is the text after '=' trimmed at the end. */
  lemma KeyLineRead(k: Key, v: string)
    ensures Trim(KeyLine(k, v)) == KeyLine(k, TrimEnd(v))
    ensures KeyOf(Trim(KeyLine(k, v))) == Some(k)
    ensures Trim(KeyLine(k, v))[|KeyText(k)| + 1..] == TrimEnd(v)
  {
    var p := KeyText(k) + "=";
    assert KeyLine(k, v) == p + v;
    KeyTextLetters(k);
    assert p[0] == KeyText(k)[0];
    TrimAfterPrefix(p, v);
    KeyOfKeyLine(k, TrimEnd(v));
  }

  /**
   * No key name contains '=', so a line starts with "key=" exactly when
   * the text before its first '=' is that key's name; hence at most one
   * key matches and the order of the tests does not matter.
   */
  lemma HasKeyByName(t: string, k: Key)
    ensures HasKey(t, k) <==> IndexOf(t, '=') == |KeyText(k)| < |t| && t[..|KeyText(k)|] == KeyText(k)
  {
    NoEqualsInKeyText(k);
    PrefixBeforeEquals(t, KeyText(k));
  }

  lemma PrefixBeforeEquals(t: string, name: string)
    requires '=' !in name
    ensures StartsWith(t, name + "=") <==> IndexOf(t, '=') == |name| < |t| && t[..|name|] == name
  {
    var n := |name|;
    if StartsWith(t, name + "=") {
      assert t[..n + 1] == name + "=";
      assert t[n] == '=';
      assert forall j :: 0 <= j < n ==> t[j] == t[..n + 1][j] == name[j];
      assert t[..n] == t[..n + 1][..n];
    }
    if IndexOf(t, '=') == n < |t| && t[..n] == name {
      PrefixSnoc(t, n);
    }
  }

  /** Key names are non-empty and made of letters only. */
  lemma KeyTextLetters(k: Key)
    ensures KeyText(k) != [] && AllLetters(KeyText(k))
  {
    if k.Value? || k.Enabled? || k.InputDevice? || k.OutputDevice? {
      FirstKeysLetters(k);
    } else if k.UnlockLimit? || k.EqBands? || k.NoiseGate? || k.FlatMode? || k.Limiter? {
      MiddleKeysLetters(k);
    } else {
      LastKeysLetters(k);
    }
  }

  lemma FirstKeysLetters(k: Key)
    requires k.Value? || k.Enabled? || k.InputDevice? || k.OutputDevice?
    ensures KeyText(k) != [] && AllLetters(KeyText(k))
  {
  }

  lemma MiddleKeysLetters(k: Key)
    requires k.UnlockLimit? || k.EqBands? || k.NoiseGate? || k.FlatMode? || k.Limiter?
    ensures KeyText(k) != [] && AllLetters(KeyText(k))
  {
  }

  lemma LastKeysLetters(k: Key)
    requires k.LimiterEnabled? || k.LastPreset? || k.Language? || k.UpdateCheck?
    ensures KeyText(k) != [] && AllLetters(KeyText(k))
  {
  }

  lemma KeyTextNoBreak(k: Key)
    ensures NoLineBreak(KeyText(k) + "=")
  {
    KeyTextLetters(k);
  }

  lemma NoEqualsInKeyText(k: Key)
    ensures '=' !in KeyText(k)
  {
    KeyTextLetters(k);
  }

  lemma KeyTextInjective(k: Key, k': Key)
    requires KeyText(k) == KeyText(k')
    ensures k == k'
  {
  }

  /** When exactly one key matches, it is the one found, wherever it sits in the order. */
  lemma {:induction false} MatchingUnique(t: string, keys: seq<Key>, k: Key)
    requires k in keys && HasKey(t, k)
    requires forall k' :: k' in keys && k' != k ==> !HasKey(t, k')
    ensures Matching(t, keys) == Some(k)
  {
    if keys[0] != k {
      MatchingUnique(t, keys[1..], k);
    }
  }

  lemma KeyOfKeyLine(k: Key, w: string)
    ensures KeyOf(KeyLine(k, w)) == Some(k)
  {
    var t := KeyLine(k, w);
    var name := KeyText(k);
    HasKeyByName(t, k);
    forall k' | k' != k
      ensures !HasKey(t, k')
    {
      HasKeyByName(t, k');
      if HasKey(t, k') {
        assert t[..|name|] == name;
        KeyTextInjective(k, k');
      }
    }
    assert k in ReadOrder;
    MatchingUnique(t, ReadOrder, k);
  }

  /** A string a text setting can hold and be read back unchanged: one line, no trailing white space. */
  predicate Clean(s: string)
  {
    NoLineBreak(s) && (s == [] || !IsWhiteSpace(s[|s| - 1]))
  }

  /** Where each key sits in `WriteOrder`. */
  function WritePosition(k: Key): (j: nat)
    ensures j < 13 && WriteOrder[j] == k
  {
    match k
    case Value => 0
    case Enabled => 1
    case InputDevice => 2
    case OutputDevice => 3
    case UnlockLimit => 4
    case EqBands => 5
    case NoiseGate => 6
    case Limiter => 7
    case LimiterEnabled => 8
    case FlatMode => 9
    case LastPreset => 10
    case Language => 11
    case UpdateCheck => 12
  }

  /** Every key is written once. */
  lemma WriteOrderDistinct(j: nat)
    requires j < 13
    ensures WritePosition(WriteOrder[j]) == j
  {
  }

  /** The settings that a written file holds a `Clean` text for. */
  predicate WritableTexts(s: Settings)
  {
    Clean(s.inputId) && Clean(s.outputId) && Clean(s.lastPresetName) && Clean(s.language)
  }

  /** No written value breaks its line, and each is its own trailing trim. */
  lemma WrittenValueClean(s: Settings, fmt: NumberFormat, k: Key)
    requires Lawful(fmt) && WritableTexts(s)
    ensures NoLineBreak(WrittenValue(s, fmt, k))
    ensures k !in {Value, NoiseGate, Limiter} ==> TrimEnd(WrittenValue(s, fmt, k)) == WrittenValue(s, fmt, k)
  {
    var v := WrittenValue(s, fmt, k);
    match k {
      case Value =>
      case NoiseGate =>
      case Limiter =>
      case EqBands =>
        SerializedBandsSafe(s.eqBands, fmt);
        TrimEndOfClean(v);
      case InputDevice =>
        TrimEndOfClean(v);
      case OutputDevice =>
        TrimEndOfClean(v);
      case LastPreset =>
        TrimEndOfClean(v);
      case Language =>
        TrimEndOfClean(v);
      case _ =>
        assert v == "1" || v == "0";
    }
  }

  /** No written line contains a line break. */
  lemma ConfigLinesOneLine(s: Settings, fmt: NumberFormat)
    requires Lawful(fmt) && WritableTexts(s)
    ensures forall j :: 0 <= j < 14 ==> NoLineBreak(ConfigLines(s, fmt)[j])
  {
    var lines := ConfigLines(s, fmt);
    forall j | 0 <= j < 14
      ensures NoLineBreak(lines[j])
    {
      if j > 0 {
        var k := WriteOrder[j - 1];
        WrittenValueClean(s, fmt, k);
        KeyTextNoBreak(k);
        assert lines[j] == (KeyText(k) + "=") + WrittenValue(s, fmt, k);
      }
    }
  }

  /** The key line written for `k` is read as setting `k` from the written text. */
  lemma KeyLineDecides(s: Settings, fmt: NumberFormat, k: Key)
    requires Decides(k, TrimEnd(WrittenValue(s, fmt, k)), fmt)
    ensures LineDecides(ConfigLines(s, fmt)[WritePosition(k) + 1], k, fmt)
    ensures ApplyLine(Defaults, ConfigLines(s, fmt)[WritePosition(k) + 1], fmt)
      == Assign(Defaults, k, TrimEnd(WrittenValue(s, fmt, k)), fmt)
  {
    var line := ConfigLines(s, fmt)[WritePosition(k) + 1];
    assert line == KeyLine(k, WrittenValue(s, fmt, k));
    KeyLineRead(k, WrittenValue(s, fmt, k));
  }

  /** No line written after the one for `k` sets `k`. */
  lemma LaterLinesOtherKeys(s: Settings, fmt: NumberFormat, k: Key)
    ensures forall j :: WritePosition(k) + 1 < j < 14 ==> !LineDecides(ConfigLines(s, fmt)[j], k, fmt)
  {
    var lines := ConfigLines(s, fmt);
    forall j | WritePosition(k) + 1 < j < 14
      ensures !LineDecides(lines[j], k, fmt)
    {
      var k' := WriteOrder[j - 1];
      assert lines[j] == KeyLine(k', WrittenValue(s, fmt, k'));
      KeyLineRead(k', WrittenValue(s, fmt, k'));
      WriteOrderDistinct(j - 1);
    }
  }

  /** In the file written for `s`, each key is set by its own line alone. */
  lemma ReadBackKey(s: Settings, fmt: NumberFormat, k: Key)
    requires Lawful(fmt) && WritableTexts(s)
    requires Decides(k, TrimEnd(WrittenValue(s, fmt, k)), fmt)
    ensures Get(ReadSettings(Contents(Terminated(ConfigLines(s, fmt))), fmt), k)
      == Get(Assign(Defaults, k, TrimEnd(WrittenValue(s, fmt, k)), fmt), k)
  {
    var lines := ConfigLines(s, fmt);
    ConfigLinesOneLine(s, fmt);
    ReadTerminated(lines);
    assert ReadSettings(Contents(Terminated(lines)), fmt) == ApplyLines(Defaults, lines, fmt);
    KeyLineDecides(s, fmt, k);
    LaterLinesOtherKeys(s, fmt, k);
    LastWins(Defaults, lines, WritePosition(k) + 1, k, fmt);
  }

  /**
   * Writing the settings and reading the file again gives back every flag
   * and every `Clean` text setting as it was.
   */
  lemma WriteThenRead(s: Settings, fmt: NumberFormat, k: Key)
    requires Lawful(fmt) && WritableTexts(s)
    requires k !in {Value, NoiseGate, Limiter, EqBands}
    ensures Get(ReadSettings(Contents(Terminated(ConfigLines(s, fmt))), fmt), k) == Get(s, k)
  {
    WrittenValueClean(s, fmt, k);
    ReadBackKey(s, fmt, k);
  }

  /** Writing the settings and reading the file again gives back the bands with their type reset to Peaking. */
  lemma BandsWriteThenRead(s: Settings, fmt: NumberFormat)
    requires Lawful(fmt) && WritableTexts(s) && AllBandsRead(fmt, s.eqBands)
    ensures ReadSettings(Contents(Terminated(ConfigLines(s, fmt))), fmt).eqBands == AsPeaking(s.eqBands)
  {
    WrittenValueClean(s, fmt, EqBands);
    ReadBackKey(s, fmt, EqBands);
    BandsRoundTrip(s.eqBands, fmt);
  }

  /**
   * The requirements of the round trips can be met: a format that prints 1
   * as "1" and everything else as "0" satisfies `Lawful`, and a band made
   * of 0s and 1s survives a write and a read.
   */
  lemma LawfulFormatExists()
    ensures var fmt := NumberFormat(
                         t => if t == "1" then Some(1.0) else Some(0.0),
                         t => if t == "1" then Some(1.0) else Some(0.0),
                         x => if x == 1.0 then "1" else "0",
                         x => "0",
                         x => "0");
            var band := EQ.EqBand(1.0, 0.0, 1.0, EQ.LowShelf);
            && Lawful(fmt) && BandReads(fmt, band)
            && ParsedBands(SerializedBands([band], fmt), fmt) == [band.(kind := EQ.Peaking)]
  {
    var fmt := NumberFormat(
                 t => if t == "1" then Some(1.0) else Some(0.0),
                 t => if t == "1" then Some(1.0) else Some(0.0),
                 x => if x == 1.0 then "1" else "0",
                 x => "0",
                 x => "0");
    var band := EQ.EqBand(1.0, 0.0, 1.0, EQ.LowShelf);
    assert Lawful(fmt);
    BandsRoundTrip([band], fmt);
    assert AsPeaking([band]) == [band.(kind := EQ.Peaking)];
  }

  lemma TrimEndOfClean(s: string)
    requires s == [] || !IsWhiteSpace(s[|s| - 1])
    ensures TrimEnd(s) == s
  {
  }

  // ---------------------------------------------------------------------
  // Preset file names
  // ---------------------------------------------------------------------

  /** `Path.GetInvalidFileNameChars()` on Windows, in its order. */
  const InvalidFileNameChars: seq<char> :=
    ['"', '<', '>', '|'] + seq(32, j requires 0 <= j < 32 => j as char) + [':', '*', '?', '\\', '/']

  predicate InvalidInFileName(c: char)
  {
    c < ' ' || c == '"' || c == '<' || c == '>' || c == '|' || c == ':' || c == '*' || c == '?' || c == '\\' || c == '/'
  }

  lemma InvalidCharsListed(c: char)
    ensures c in InvalidFileNameChars <==> InvalidInFileName(c)
  {
    if c < ' ' {
      assert InvalidFileNameChars[4 + c as int] == c;
    }
  }

  /** The name with every invalid character replaced by '_'. */
  function Sanitized(name: string): (r: string)
    ensures |r| == |name|
    ensures forall j :: 0 <= j < |r| ==> !InvalidInFileName(r[j])
    ensures forall j :: 0 <= j < |r| ==> !InvalidInFileName(name[j]) ==> r[j] == name[j]
  {
    seq(|name|, j requires 0 <= j < |name| => if InvalidInFileName(name[j]) then '_' else name[j])
  }

  /** `ConfigManager.SanitizeFileName`: one `Replace` per invalid character. */
  method SanitizeFileName(name: string) returns (r: string)
    ensures r == Sanitized(name)
  {
    r := name;
    for i := 0 to |InvalidFileNameChars|
      invariant |r| == |name|
      invariant forall j :: 0 <= j < |r| ==> r[j] == if name[j] in InvalidFileNameChars[..i] then '_' else name[j]
    {
      var c := InvalidFileNameChars[i];
      assert InvalidInFileName(c) by {
        InvalidCharsListed(c);
      }
      assert InvalidFileNameChars[..i + 1] == InvalidFileNameChars[..i] + [c];
      r := Replace(r, c, '_');
    }
    assert InvalidFileNameChars[..|InvalidFileNameChars|] == InvalidFileNameChars;
    forall j | 0 <= j < |r|
      ensures r[j] == Sanitized(name)[j]
    {
      InvalidCharsListed(name[j]);
    }
  }

  /** Sanitising twice changes nothing more. */
  lemma SanitizedIdempotent(name: string)
    ensures Sanitized(Sanitized(name)) == Sanitized(name)
  {
  }

  /**
   * The file name `SavePreset` writes to: the sanitised name, or "Default"
   * when that is blank, with ".json" appended. It is never blank and holds
   * no invalid character.
   */
  method PresetFileName(name: string) returns (fileName: string)
    ensures var safe := Sanitized(name);
      fileName == (if IsBlank(safe) then "Default" else safe) + ".json"
    ensures !IsBlank(fileName[..|fileName| - 5])
    ensures forall j :: 0 <= j < |fileName| ==> !InvalidInFileName(fileName[j])
  {
    var safe := SanitizeFileName(name);
    if IsBlank(safe) {
      safe := "Default";
      assert !IsWhiteSpace(safe[0]);
    }
    fileName := safe + ".json";
    assert fileName[..|fileName| - 5] == safe;
  }
}
