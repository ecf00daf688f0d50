# Easy MIC Booster — a Dafny model of its core

Easy MIC Booster is a Windows microphone booster. It captures a microphone,
sends the samples through a processing chain, and plays the result on an
output device. The chain is a parametric equalizer, a gain stage, a noise
gate, a soft limiter and a metering tap. A window lets the user draw the
equalizer curve as a list of points and shows the output level and spectrum.

This project models the parts of the program that decide what happens to
the samples and to the settings:

- the DSP stages (`equalizer.dfy`, `dynamics.dfy`, `metering.dfy`);
- the engine that wires them and analyses the output (`engine.dfy`, `spectrum.dfy`, `devices.dfy`);
- the settings file (`config.dfy`);
- the version check (`versioning.dfy`);
- the equalizer point editor of the main window (`eq_editor.dfy`);
- the string table used by the user interface (`localization.dfy`).

`numerics.dfy`, `text.dfy`, `buffers.dfy` and `wrappers.dfy` hold what
these share: reals with `Math.Clamp` and powers, the `System.String`
operations the sources call, facts about buffer slices, and Option/Result.

**What becomes what.**

- Samples, gains and frequencies are `real`.
- `Math.Pow(10, x)`, `Math.Exp`, `Math.Log10` and `Math.Sqrt`, NAudio's
  biquad coefficient design, the Hamming window and the FFT are passed in as
  function values. Each comes with a `Lawful` predicate that states only the
  facts the proofs use, such as `Pow(10, x) > 0` or that the FFT keeps the
  frame length.
- Classes whose fields the C# updates in place stay classes. Examples are the
  stages, the engine, the point editor, the version cache and the
  localization manager.
- Each `Read` loop and each list-building loop is a method with a loop,
  proved against a function on values.
- Files, HTTP replies and devices are parameters: the text of a file, the
  outcome of a request, a device whose opening or starting may fail.

## Model

| member | source | states |
|---|---|---|
| Numerics.Clamp | src/DspProviders.cs:187 | `Math.Clamp`: the result lies in [lo, hi] and equals the value when the value is already inside |
| Numerics.IntPowUnitInterval | src/DspProviders.cs:237 | a base in [0, 1] raised to any power stays in [0, 1] |
| Numerics.IntPowMonotone | src/DspProviders.cs:237 | raising to a power keeps the order of two non-negative bases |
| Equalizer.ClampFrequency | src/DspProviders.cs:68 | the frequency is clamped to [20, rate/2 − 1], with integer division; there is no result exactly when that range is empty (where `Math.Clamp` throws); an in-range frequency is kept |
| Equalizer.DesignFilter | src/DspProviders.cs:66-86 | a band gives a filter exactly when the clamp and the factory both succeed; the filter keeps the band's kind and gain; a shelf uses slope 1 and a Peaking band its own Q |
| Equalizer.BuildFilters | src/DspProviders.cs:59-87 | no more filters than bands, and every filter is well formed: in-range frequency, shelf slope 1, fresh state |
| Equalizer.BuildFiltersAppend | src/DspProviders.cs:61-87 | the filters of two band lists back to back are the two filter lists back to back |
| Equalizer.InactiveBandExcluded | src/DspProviders.cs:64 | a band under 0.05 dB in magnitude can be removed from the list without changing the filters |
| Equalizer.ThrowingBandExcluded | src/DspProviders.cs:66-86 | an active band whose clamp or factory throws is skipped: removing it does not change the filters |
| Equalizer.SurvivorKeepsItsPlace | src/DspProviders.cs:61-87 | a surviving band's filter comes after those of earlier bands and before those of later ones |
| Equalizer.LowRateBuildsNothing | src/DspProviders.cs:66-86 | below a 42 Hz sample rate every band throws in the clamp and the list is empty |
| Equalizer.ProcessBlock | src/DspProviders.cs:106-114 | a block keeps its length, and so does the filter list |
| Equalizer.RunChain | src/DspProviders.cs:109-112 | the inner loop passes a sample through every filter in list order, as `Chain` defines |
| Equalizer.ProcessBlockStep | src/DspProviders.cs:106-114 | processing one more sample runs the chain on it with the filter states the block left behind |
| Equalizer.ChainAppend | src/DspProviders.cs:109-112 | filter order: two lists back to back act as the first list followed by the second |
| Equalizer.EmptyChainIsIdentity | src/DspProviders.cs:103 | an empty filter list passes every block through unchanged |
| Equalizer.EqualizerStage.constructor | src/DspProviders.cs:39-44 | a new equalizer is enabled and holds no filters |
| Equalizer.EqualizerStage.SetEnabled | src/DspProviders.cs:48-52 | the `Enabled` setter |
| Equalizer.EqualizerStage.UpdateBands | src/DspProviders.cs:55-93 | a null list changes nothing; otherwise the filter list is replaced wholesale by `BuildFilters` |
| Equalizer.EqualizerStage.FilterSample | src/DspProviders.cs:107-113 | one pass of the outer loop writes the chain's output in the sample's own slot |
| Equalizer.EqualizerStage.Read | src/DspProviders.cs:95-120 | when disabled, with no samples or with no filters, nothing changes; otherwise exactly the slice [offset, offset+n) is replaced by `ProcessBlock` and the filters advance |
| Equalizer.EqualizerStage.Filter | src/DspProviders.cs:103-115 | the filtering loop leaves everything outside the slice as it was |
| Metering.MeteringTap.constructor | src/DspProviders.cs:128-131 | a new tap has no subscriber |
| Metering.MeteringTap.Subscribe | src/AudioEngine.cs:111 | the engine attaches its `StreamVolume` handler |
| Metering.MeteringTap.Unsubscribe | src/AudioEngine.cs:139 | the engine detaches its handler |
| Metering.MeteringTap.Read | src/DspProviders.cs:135-154 | the buffer is not changed; a chunk is passed on exactly when samples were read and a subscriber exists, and it is a copy of exactly the slice read |
| Dynamics.TimeCoefficient | src/DspProviders.cs:190-194 | the attack and release coefficients lie in [0, 1), and above 0 at a positive sample rate |
| Dynamics.DbToLinear | src/DspProviders.cs:203 | a dB level as a linear amplitude is positive |
| Dynamics.EnvelopeStep | src/DspProviders.cs:211-214 | the new envelope lies between the old envelope and the sample's magnitude |
| Dynamics.GateGain | src/DspProviders.cs:218-238 | the gain lies in [0, 1]; it is 1 at or above the threshold or when the threshold is at most 1e-6; it is 0 for a silent envelope under a real threshold |
| Dynamics.GateGainMonotone | src/DspProviders.cs:218-238 | a quieter envelope never gets more gain than a louder one |
| Dynamics.ScaleAttenuates | src/DspProviders.cs:241 | a gain in [0, 1] never enlarges a sample and keeps its sign |
| Dynamics.GateBlock | src/DspProviders.cs:205-242 | the gate keeps the envelope non-negative and the block length |
| Dynamics.GateNeverAmplifies | src/DspProviders.cs:205-242 | no gated sample is larger than its input or of the opposite sign |
| Dynamics.GateBlockStep | src/DspProviders.cs:205-242 | one more sample updates the envelope and then scales that sample by the gate gain |
| Dynamics.GateOpenIsTransparent | src/DspProviders.cs:218-241 | while the envelope and every sample are at or above the threshold, samples pass unchanged |
| Dynamics.LimiterGain | src/DspProviders.cs:328-339 | the limiter gain is positive, and 1 whenever the envelope is at or below the threshold |
| Dynamics.LimiterBlock | src/DspProviders.cs:316-343 | the limiter keeps the envelope non-negative and the block length |
| Dynamics.LimiterNeverAmplifies | src/DspProviders.cs:342 | no limited sample is larger than its input: the gain is capped at 1 |
| Dynamics.LimiterBlockStep | src/DspProviders.cs:316-343 | one more sample updates the envelope and then scales that sample by min(gain, 1) |
| Dynamics.LimiterTransparentBelowThreshold | src/DspProviders.cs:328-342 | while the envelope and every sample stay at or under the threshold, samples pass unchanged |
| Dynamics.NoiseGate.constructor | src/DspProviders.cs:160-180 | a new gate has threshold −80 dB, a zero envelope, and 10 ms attack and 200 ms release coefficients |
| Dynamics.NoiseGate.SetThreshold | src/DspProviders.cs:184-188 | the threshold setter clamps to [−80, 0] dB |
| Dynamics.NoiseGate.Sample | src/DspProviders.cs:207-241 | one loop pass updates the envelope and writes the gated sample in its own slot |
| Dynamics.NoiseGate.Read | src/DspProviders.cs:196-245 | the slice read is replaced by `GateBlock` at the linear threshold, nothing outside it changes, and the envelope is the block's final one |
| Dynamics.Limiter.constructor | src/DspProviders.cs:255-277 | a new limiter is enabled, with threshold 0 dB, ratio 10, a zero envelope, and 1 ms attack and 100 ms release |
| Dynamics.Limiter.SetEnabled | src/DspProviders.cs:281-285 | the `Enabled` setter |
| Dynamics.Limiter.SetThresholdDb | src/DspProviders.cs:287-291 | the threshold setter clamps to [−60, 100] dB |
| Dynamics.Limiter.SetRatio | src/DspProviders.cs:293-297 | the ratio setter clamps to [1, 100] |
| Dynamics.Limiter.Sample | src/DspProviders.cs:318-342 | one loop pass updates the envelope and writes the limited sample in its own slot |
| Dynamics.Limiter.Read | src/DspProviders.cs:305-346 | a disabled limiter changes neither the buffer nor its envelope; an enabled one replaces the slice by `LimiterBlock` and nothing else |
| Dynamics.Limiter.Limit | src/DspProviders.cs:314-343 | the limiting loop leaves everything outside the slice as it was |
| Spectrum.MaxAbs | src/AudioEngine.cs:51-56 | the running maximum of magnitudes is non-negative |
| Spectrum.MaxAbsIsMaximum | src/AudioEngine.cs:51-56 | the maximum bounds every magnitude and is one of them, or 0 |
| Spectrum.MaxAbsStep | src/AudioEngine.cs:55-56 | the loop's update of the maximum for one more sample |
| Spectrum.PeakLevel | src/AudioEngine.cs:69 | the reported peak is min(1, max), so it lies in [0, 1] |
| Spectrum.NormalizeBin | src/AudioEngine.cs:236-247 | each published bin, 20·log10 of the magnitude mapped from [−60, 0] dB, is clamped to [0, 1] |
| Spectrum.NormalizedSpectrum | src/AudioEngine.cs:227-248 | the published array has 1024 values, bin by bin from the transformed frame, each in [0, 1] |
| Spectrum.FeedSample | src/AudioEngine.cs:58-66 | one sample moves the cursor to (pos+1) mod 2048, and a transform happens exactly when the cursor reaches 2048 |
| Spectrum.Feed | src/AudioEngine.cs:53-67 | the cursor stays below 2048 and every transformed frame has 2048 slots |
| Spectrum.FeedStep | src/AudioEngine.cs:53-67 | feeding one more sample is one `FeedSample` step after the rest |
| Spectrum.Spectra | src/AudioEngine.cs:227-248 | one published spectrum per transformed frame |
| Spectrum.FeedCounts | src/AudioEngine.cs:58-66 | after n samples the cursor is (pos+n) mod 2048, and (pos+n) div 2048 transforms have been published |
| Spectrum.FeedSampleWrites | src/AudioEngine.cs:58-66 | each sample is written windowed at the cursor with imaginary part 0; before the last slot no other slot changes, and the sample filling the last slot is written before the frame is transformed, published and kept |
| Engine.StartFailure | src/AudioEngine.cs:76-130 | `Start` fails exactly when opening or starting either device throws |
| Engine.SpectrumEvents | src/AudioEngine.cs:250 | one `FftDataReceived` event per transformed frame |
| Engine.AudioEngine.constructor | src/AudioEngine.cs:28-40 | a new engine is stopped, with gain 1, gate threshold 0, limiter at 40 dB and off, and the cursor at 0 |
| Engine.AudioEngine.Stop | src/AudioEngine.cs:133-163 | the engine is not running, the metering handler and the capture handler are detached, both streams are stopped and disposed, and every stage is dropped; settings and cursor are kept |
| Engine.AudioEngine.FailStart | src/AudioEngine.cs:126-130 | a failed start tears everything down and reports exactly one error |
| Engine.AudioEngine.NewNoiseGate | src/AudioEngine.cs:101-102 | the gate is built with the cached threshold, clamped |
| Engine.AudioEngine.NewLimiter | src/AudioEngine.cs:105-107 | the limiter is built with the cached threshold, clamped, and the cached switch |
| Engine.AudioEngine.BuildChain | src/AudioEngine.cs:81-111 | the chain is built fresh in the order buffer, equalizer, volume, gate, limiter, metering; the buffer discards on overflow, the equalizer is flat and the tap is subscribed |
| Engine.AudioEngine.Start | src/AudioEngine.cs:72-131 | `Start` stops first and caches gain and gate threshold; it runs with every stage built as configured, each stage and the render stream a new object, exactly when nothing threw; otherwise it is torn down with one error reported |
| Engine.AudioEngine.Launch | src/AudioEngine.cs:81-124 | from a dismantled engine: launched, or torn down with one error |
| Engine.AudioEngine.OpenStreams | src/AudioEngine.cs:113-124 | the output is opened and initialised, then both streams start |
| Engine.AudioEngine.StartStreams | src/AudioEngine.cs:121-124 | capture starts, then playback, and only then is the engine marked running |
| Engine.AudioEngine.Connect | src/AudioEngine.cs:118-119 | the capture handler is attached and the render stream initialised |
| Engine.AudioEngine.Dispose | src/AudioEngine.cs:265-268 | disposing is stopping |
| Engine.AudioEngine.UpdateParametricEq | src/AudioEngine.cs:165-179 | the gain becomes 10^(dB/20) and reaches a live volume stage; the bands replace the filters of a live equalizer |
| Engine.AudioEngine.SetNoiseGateThreshold | src/AudioEngine.cs:181-188 | the value is cached, and forwarded to a live gate, which clamps it |
| Engine.AudioEngine.SetLimiterThreshold | src/AudioEngine.cs:190-197 | the value is cached, and forwarded to a live limiter, which clamps it |
| Engine.AudioEngine.SetLimiterEnabled | src/AudioEngine.cs:199-206 | the switch is cached, and forwarded to a live limiter |
| Engine.AudioEngine.OnDataAvailable | src/AudioEngine.cs:208-213 | the recorded bytes go to the buffer when there is one |
| Engine.AudioEngine.PerformFft | src/AudioEngine.cs:217-251 | the frame is transformed in place, the normalised half-spectrum is written to the result array, allocated only once, and published |
| Engine.AudioEngine.PushSample | src/AudioEngine.cs:58-66 | one loop pass is one `FeedSample` step of the accumulator |
| Engine.AudioEngine.Advance | src/AudioEngine.cs:58-66 | the loop body writes the windowed sample, and transforms and resets at 2048 |
| Engine.AudioEngine.OnStreamVolume | src/AudioEngine.cs:46-70 | a chunk is ignored unless the engine runs; otherwise the accumulator takes every sample, each wrap publishes a spectrum, and then exactly one peak level is reported |
| Engine.AudioEngine.FeedChunk | src/AudioEngine.cs:53-67 | the loop returns the chunk's maximum magnitude and leaves the accumulator as `Feed` says |
| Text.TrimStart | src/ConfigManager.cs:69 | only leading white space is removed |
| Text.TrimEnd | src/VersionManager.cs:24 | only trailing white space is removed |
| Text.TrimmedHasNoOuterSpace | src/VersionManager.cs:78 | a trimmed string has no white space at either end |
| Text.TrimAfterPrefix | src/ConfigManager.cs:69 | trimming a line that begins with a key only trims the value's end |
| Text.IndexOf | src/ConfigManager.cs:71 | the index of the first occurrence, or the length when there is none |
| Text.Split | src/ConfigManager.cs:232 | at least one piece, and no piece contains the separator |
| Text.SplitJoin | src/ConfigManager.cs:229-232 | joining separator-free pieces and splitting again gives the pieces back |
| Text.JoinSplit | src/ConfigManager.cs:251 | splitting and joining again gives the string back |
| Text.SplitSnoc | src/VersionManager.cs:108 | appending a separator and a separator-free tail adds one piece |
| Text.RemoveEmpty | src/ConfigManager.cs:229 | `RemoveEmptyEntries` leaves no empty piece and keeps a list without empty pieces as it is |
| Text.Replace | src/ConfigManager.cs:220 | `Replace` of one character keeps the length and replaces exactly the occurrences |
| Config.Matching | src/ConfigManager.cs:71-132 | the key found is one whose "key=" starts the line; none is found only when no key matches |
| Config.KeyOf | src/ConfigManager.cs:69-132 | a line is assigned only to a key whose "key=" starts it |
| Config.ApplyLineFrame | src/ConfigManager.cs:67-133 | a line leaves every setting it does not decide as it was: unknown lines, other keys, numbers that do not parse |
| Config.ApplyLineDecided | src/ConfigManager.cs:67-133 | a deciding line's value does not depend on what was there before |
| Config.LastWins | src/ConfigManager.cs:67-133 | the last line that decides a setting wins, whatever came before it |
| Config.Untouched | src/ConfigManager.cs:44-63 | a setting no line decides keeps its default |
| Config.NoiseGateStaysNegative | src/ConfigManager.cs:98-102 | a non-negative noise gate value becomes −80, so the value read is always negative |
| Config.ReadConfig | src/ConfigManager.cs:42-138 | a missing or unreadable file gives the defaults; otherwise the lines are applied in order, and the gate threshold is negative |
| Config.BreakIndex | src/ConfigManager.cs:65 | `ReadAllLines` cuts at the first '\r' or '\n' |
| Config.ParseItems | src/ConfigManager.cs:230-242 | no more bands than items, and every band is Peaking |
| Config.ParseEqBands | src/ConfigManager.cs:224-244 | the loop builds the bands of the well-formed items in order |
| Config.SerializeEqBands | src/ConfigManager.cs:246-255 | the items are joined with ',', with none before the first |
| Config.ItemRoundTrip | src/ConfigManager.cs:235-239 | an item written for a band whose three numbers the invariant format reads back comes back as that band, made Peaking |
| Config.ItemTextSafe | src/ConfigManager.cs:252 | a written item has no ',' and no white space |
| Config.ParseItemTexts | src/ConfigManager.cs:230-242 | the items written for a list of such bands read back as the list made Peaking |
| Config.SerializedBandsSafe | src/ConfigManager.cs:246-255 | the serialised value contains no white space |
| Config.BandsRoundTrip | src/ConfigManager.cs:224-255 | serialising and parsing keeps frequency, gain and Q of every band whose numbers the invariant format reads back, in order, and resets the type to Peaking |
| Config.ConfigLines | src/ConfigManager.cs:144-158 | the header and thirteen key lines: fourteen lines |
| Config.WriteConfig | src/ConfigManager.cs:140-163 | the text is every line followed by "\r\n" |
| Config.ReadTerminated | src/ConfigManager.cs:65 | terminated lines without breaks read back as themselves |
| Config.KeyLineRead | src/ConfigManager.cs:69-132 | a written key line is recognised as its key, and its value is the text after '=' trimmed at the end |
| Config.HasKeyByName | src/ConfigManager.cs:71-132 | a line matches a key exactly when the text before its first '=' is that key's name |
| Config.KeyTextInjective | src/ConfigManager.cs:71-132 | no two keys share a name |
| Config.MatchingUnique | src/ConfigManager.cs:71-132 | when one key matches, it is found wherever it sits in the chain of tests |
| Config.WritePosition | src/ConfigManager.cs:146-158 | every key has a place in the write order |
| Config.WriteOrderDistinct | src/ConfigManager.cs:146-158 | every key is written exactly once |
| Config.WrittenValueClean | src/ConfigManager.cs:146-158 | no written value contains a line break, and texts and flags end without white space |
| Config.ConfigLinesOneLine | src/ConfigManager.cs:144-158 | no written line contains a line break |
| Config.KeyLineDecides | src/ConfigManager.cs:146-158 | each written key line decides its own setting |
| Config.LaterLinesOtherKeys | src/ConfigManager.cs:146-158 | no line written after a key's line sets that key again |
| Config.ReadBackKey | src/ConfigManager.cs:140-163 | in the written file each key is set by its own line alone |
| Config.WriteThenRead | src/ConfigManager.cs:140-163 | writing and reading again gives back every flag and every single-line text without outer white space |
| Config.BandsWriteThenRead | src/ConfigManager.cs:151 | writing and reading again gives back the bands, when their numbers read back, with their type reset to Peaking |
| Config.LawfulFormatExists | src/ConfigManager.cs:246-255 | the assumptions of the round trips can be met: a concrete format satisfies them, and a band serialised with it parses back as itself made Peaking |
| Config.InvalidCharsListed | src/ConfigManager.cs:219 | the list of invalid file-name characters is exactly the invalid characters |
| Config.Sanitized | src/ConfigManager.cs:217-222 | the length is kept, no invalid character remains, and valid characters stay in place |
| Config.SanitizeFileName | src/ConfigManager.cs:217-222 | one `Replace` per invalid character gives the sanitised name |
| Config.SanitizedIdempotent | src/ConfigManager.cs:217-222 | sanitising twice changes nothing more |
| Config.PresetFileName | src/ConfigManager.cs:195-198 | a blank sanitised name falls back to "Default"; the name is never blank and has no invalid character |
| Versioning.Wrap32 | src/VersionManager.cs:118 | unchecked 32-bit truncation lands in range and keeps in-range values |
| Versioning.DigitsValue | src/VersionManager.cs:108 | a value exists exactly for an all-digit string |
| Versioning.ParseInt32 | src/VersionManager.cs:108 | `int.Parse` succeeds only with a 32-bit value |
| Versioning.ParseShow | src/VersionManager.cs:108 | every 32-bit integer printed in decimal parses back to itself |
| Versioning.ParseAll | src/VersionManager.cs:108-109 | every piece parses, in order, or the whole parse fails |
| Versioning.DecidedByFirstDifference | src/VersionManager.cs:113-119 | the result is the difference of the first differing components |
| Versioning.ZeroIffSame | src/VersionManager.cs:113-121 | the result is 0 exactly when all components agree, padded with zeros |
| Versioning.PaddingIrrelevant | src/VersionManager.cs:111-116 | only the zero-padded components matter |
| Versioning.Antisymmetric | src/VersionManager.cs:113-121 | swapping the component lists negates the exact comparison |
| Versioning.AsWrittenAgrees | src/VersionManager.cs:118 | with no negative component the wrapped difference equals the exact one |
| Versioning.Reflexive | src/VersionManager.cs:106-122 | a well-formed version compares equal to itself |
| Versioning.VersionsAntisymmetric | src/VersionManager.cs:106-122 | swapping the versions negates the comparison, and both fail together |
| Versioning.PartsDotZero | src/VersionManager.cs:108 | appending ".0" appends a zero component |
| Versioning.TrailingZeroComponent | src/VersionManager.cs:111-116 | "1.2" and "1.2.0" compare the same on either side |
| Versioning.SingleComponent | src/VersionManager.cs:108 | a number without '.' is a one-component version |
| Versioning.TwoParts | src/VersionManager.cs:108 | "a.0" has the components a and 0 |
| Versioning.TwoPartVersions | src/VersionManager.cs:106-122 | "a.0" against "b.0" compares as a − b exactly |
| Versioning.TwoPartVersionsAsWritten | src/VersionManager.cs:106-122 | as written, "a.0" against "b.0" gives a − b wrapped to 32 bits |
| Versioning.FirstComponentDecides | src/VersionManager.cs:113-118 | the first differing component decides, exactly and as written |
| Versioning.WrapReversesOrder | src/VersionManager.cs:118 | when a − b overflows 32 bits, the code as written reports the opposite order |
| Versioning.WrapFlipsSign | src/VersionManager.cs:118 | an overflowing difference wraps to a non-zero value of the opposite sign |
| Versioning.CheckOutcome | src/VersionManager.cs:63-100 | no error exactly for a success status with a non-blank dotted text that parses; an update iff no error and the comparison is positive; errors keep the current version; a bad status gives "HTTP code"; a blank or dot-less text gives "Invalid version format" |
| Versioning.NoUpdateToSameVersion | src/VersionManager.cs:85-86 | receiving the current version back never announces an update |
| Versioning.UpdateIsOneWay | src/VersionManager.cs:85-86 | if b is an update over a, a is never an update over b |
| Versioning.CheckOutcomeAsWritten | src/VersionManager.cs:85 | when neither version has a negative component, the update decision equals the source's decision with the wrapping comparison |
| Versioning.LocatedVersion | src/VersionManager.cs:19-43 | the trimmed text of the first version file found, else "0.0.0"; an unreadable file gives "0.0.0" |
| Versioning.VersionInfo.constructor | src/VersionManager.cs:8 | nothing is cached at first |
| Versioning.VersionInfo.CurrentVersion | src/VersionManager.cs:13-47 | the first call locates the version and caches it; later calls return the cached value unchanged |
| Versioning.VersionInfo.DisplayVersion | src/VersionManager.cs:52 | "v" followed by the current version |
| EqEditor.Insert | src/MainWindow.xaml.cs:258 | inserting into a sorted list keeps it sorted and adds exactly that point |
| EqEditor.SortByFreq | src/MainWindow.xaml.cs:258 | the result is sorted by frequency and a permutation of the input |
| EqEditor.SortSorted | src/MainWindow.xaml.cs:258 | a list already in frequency order is left as it is |
| EqEditor.FirstOfKind | src/MainWindow.xaml.cs:237 | the first point of a kind, or the length exactly when there is none |
| EqEditor.EnsureShelfOthers | src/MainWindow.xaml.cs:237-255 | a shelf step changes or adds points of its own kind only |
| EqEditor.UpdateKeepsPeaking | src/MainWindow.xaml.cs:228-259 | normalising neither adds, removes nor changes a Peaking point |
| EqEditor.UpdateLength | src/MainWindow.xaml.cs:237-255 | normalising adds at most the two shelves |
| EqEditor.UpdateSnapsLowShelf | src/MainWindow.xaml.cs:237-241 | the first LowShelf point ends up at 20 Hz with everything else about it unchanged |
| EqEditor.UpdateSnapsHighShelf | src/MainWindow.xaml.cs:248-251 | the first HighShelf point ends up at 20 kHz with everything else about it unchanged |
| EqEditor.UpdateAddsLowShelf | src/MainWindow.xaml.cs:242-245 | with no LowShelf and no point within 1 Hz of 20 Hz, a 0 dB LowShelf is added at 20 Hz |
| EqEditor.UpdateAddsHighShelf | src/MainWindow.xaml.cs:252-255 | with no HighShelf and no point within 1 Hz of 20 kHz, a 0 dB HighShelf is added at 20 kHz |
| EqEditor.EnsureShelfOthersKinds | src/MainWindow.xaml.cs:237-255 | a shelf step creates no point of another kind |
| EqEditor.UpdateKeepsKinds | src/MainWindow.xaml.cs:228-259 | every kind present before normalising is present after |
| EqEditor.UpdateKeepsQ | src/MainWindow.xaml.cs:523-526 | normalising keeps every point at Q 0.1 |
| EqEditor.EngineBandsAscend | src/MainWindow.xaml.cs:771 | the bands sent to the engine are in ascending frequency |
| EqEditor.EngineBandsArePoints | src/MainWindow.xaml.cs:799-811 | with the boost on, each band plus the master gain is one of the points, and every point is sent exactly once |
| EqEditor.EngineFlat | src/MainWindow.xaml.cs:789-797 | in flat mode with equal gains the master carries the gain and every band is 0 dB |
| EqEditor.EngineBypass | src/MainWindow.xaml.cs:779-786 | with the boost off the engine gets 0 dB and no bands; with it on, bands exactly when there are points |
| EqEditor.EngineBandsQ | src/MainWindow.xaml.cs:799-811 | every band sent has Q 0.1 |
| EqEditor.FreqRange | src/MainWindow.xaml.cs:264-270 | after the clamps the maximum is at most 24 kHz and above the minimum; a maximum of at least 120 Hz keeps the minimum at 20 Hz or more; parsed values already in range are kept |
| EqEditor.FreqRangeFloorLost | src/MainWindow.xaml.cs:268-270 | the last clamp can push the minimum under 20 Hz |
| EqEditor.AddPointEffect | src/MainWindow.xaml.cs:405-414 | at 16 points nothing is added; below, exactly one copy of the new Peaking point appears and no other Peaking point changes |
| EqEditor.RemovePointEffect | src/MainWindow.xaml.cs:513-520 | removal takes exactly one copy of the Peaking target and no other Peaking point |
| EqEditor.RemoveKeepsShelves | src/MainWindow.xaml.cs:513 | a shelf can never be removed |
| EqEditor.WithAllGains | src/MainWindow.xaml.cs:368-369 | in flat mode every point takes the clicked gain and nothing else changes |
| EqEditor.DragKeepsShelvesInPlace | src/MainWindow.xaml.cs:433-445 | a drag never changes a kind or a Q, and moves the frequency only of the dragged Peaking point |
| EqEditor.FlatEditIsFlat | src/MainWindow.xaml.cs:365-378 | after a flat-mode edit the engine gets that gain as master and 0 dB bands |
| EqEditor.FlatPairNormalized | src/MainWindow.xaml.cs:983-997 | the two flat-mode shelves at 20 Hz and 20 kHz are already normalised and have Q 0.1 |
| EqEditor.LowGainFound | src/MainWindow.xaml.cs:985-988 | flat mode keeps the gain of a point within 1 Hz of 20 Hz, or 0 dB when there is none |
| EqEditor.DbToYEnds | src/MainWindow.xaml.cs:737-743 | +maxDb is drawn at the top padding and −maxDb at the bottom one |
| EqEditor.DbToYDecreasing | src/MainWindow.xaml.cs:737-743 | a higher gain is drawn higher |
| EqEditor.DbToYRoundTrip | src/MainWindow.xaml.cs:737-752 | reading the gain at the position where a gain is drawn gives that gain |
| EqEditor.YToDbRoundTrip | src/MainWindow.xaml.cs:737-752 | drawing the gain read at a position puts it at that position |
| EqEditor.LerpBetween | src/MainWindow.xaml.cs:643-648 | the log-frequency interpolation lies between the segment's two gains |
| EqEditor.SegmentFound | src/MainWindow.xaml.cs:638-651 | the search stops at the first segment holding the frequency |
| EqEditor.SegmentBetween | src/MainWindow.xaml.cs:636-651 | the search finds a segment holding the frequency and a gain between its two gains |
| EqEditor.InterpolatedBetween | src/MainWindow.xaml.cs:631-653 | for sorted positive points: the end gains outside the range, and inside it a value between the two neighbouring gains |
| EqEditor.GetInterpolatedDb | src/MainWindow.xaml.cs:631-653 | the loop computes `Interpolated` |
| EqEditor.LoadKeepsBands | src/MainWindow.xaml.cs:135-149 | every saved band comes back as a Peaking point |
| EqEditor.LoadNothingIsFlat | src/MainWindow.xaml.cs:135-139 | with no saved bands the editor starts from the flat pair at 0 dB |
| EqEditor.PointEditor.constructor | src/MainWindow.xaml.cs:32-40 | no points, range 20 Hz to 20 kHz, dB limit 40 |
| EqEditor.PointEditor.UpdateEqStartEndPoints | src/MainWindow.xaml.cs:228-259 | the points are normalised, and Q 0.1 everywhere is kept |
| EqEditor.PointEditor.LoadPoints | src/MainWindow.xaml.cs:98-149 | the dB limit follows the unlock flag, and the points are the normalised saved bands, or the flat pair |
| EqEditor.PointEditor.FreqRangeChanged | src/MainWindow.xaml.cs:261-274 | the range becomes `FreqRange` of the inputs, and the points are normalised |
| EqEditor.PointEditor.AddPointClick | src/MainWindow.xaml.cs:816-839 | refused in flat mode and at 16 points; otherwise a 0 dB Peaking point at √(min·max) is added and the list normalised |
| EqEditor.PointEditor.CanvasLeftClick | src/MainWindow.xaml.cs:363-419 | in flat mode every gain follows the click; otherwise a click on a point or outside the padding adds nothing, and anywhere else adds a Peaking point below the cap |
| EqEditor.PointEditor.Drag | src/MainWindow.xaml.cs:421-458 | the dragged point takes the new gain, and the new frequency only if it is a Peaking point away from the range edges; in flat mode all gains follow |
| EqEditor.PointEditor.Wheel | src/MainWindow.xaml.cs:476-500 | the wheel only re-forces Q 0.1, so the points are just normalised |
| EqEditor.PointEditor.RightClick | src/MainWindow.xaml.cs:502-521 | a Peaking target is removed and the list normalised; anything else changes nothing |
| EqEditor.PointEditor.FlatModeChanged | src/MainWindow.xaml.cs:977-1017 | entering flat mode leaves exactly the two shelves at the gain found near 20 Hz; leaving it only normalises |
| EqEditor.PointEditor.UnlockLimitChanged | src/MainWindow.xaml.cs:841-850 | the dB limit becomes 100 or 50, and the points are normalised |
| EqEditor.PointEditor.UpdateAudioEq | src/MainWindow.xaml.cs:765-815 | the loop sends exactly `EngineEq` of the points |
| Localization.Combine | src/Localization/LocalizationManager.cs:46 | `Path.Combine` keeps both parts, in order |
| Localization.ChosenPath | src/Localization/LocalizationManager.cs:46-58 | the current-directory file is used only when the base-directory file is missing, the directories differ and the other file exists |
| Localization.ChosenPathExists | src/Localization/LocalizationManager.cs:50-64 | a file is found exactly when one exists under the base directory, or under a different current directory |
| Localization.LoadedTable | src/Localization/LocalizationManager.cs:60-77 | a load succeeds exactly when the chosen file exists and deserialises to a non-null table |
| Localization.Translate | src/Localization/LocalizationManager.cs:91-94 | the translation of a present key, otherwise the key itself |
| Localization.UntranslatedShowsKey | src/Localization/LocalizationManager.cs:91-94 | a missing key is shown as itself |
| Localization.LanguageNotifications | src/Localization/LocalizationManager.cs:21-30 | "CurrentLanguage" and "Item[]" are raised exactly when the language changes |
| Localization.LoadAnnouncesIndexer | src/Localization/LocalizationManager.cs:69-75 | a successful load always ends with "Item[]", and raises only it when the language is unchanged |
| Localization.LocalizationManager.constructor | src/Localization/LocalizationManager.cs:16-17 | the language is "ja" and the table is empty |
| Localization.LocalizationManager.SetCurrentLanguage | src/Localization/LocalizationManager.cs:21-30 | the setter notifies only on a change |
| Localization.LocalizationManager.LoadLanguage | src/Localization/LocalizationManager.cs:42-89 | a successful load replaces the whole table, sets the language and raises "Item[]"; anything else changes nothing |

## Left out

- Floating point: samples, gains and frequencies are exact reals. `float` rounding, the `(float)` casts, NaN and infinities are not modelled. A division by zero is an explicit `None` where the source can reach it: `YToDb` at zero drawable height, and the interpolation between two points whose logarithms are equal.
- Math and NAudio numerics: the exact values of `Math.Pow`, `Math.Exp`, `Math.Log10` and `Math.Sqrt`, NAudio's biquad coefficient formulas, the Hamming window and `FastFourierTransform.FFT` are parameters, constrained only by the facts listed in their `Lawful` predicates.
- WASAPI capture and render, `BufferedWaveProvider` internals, `ToSampleProvider`/`ToWaveProvider16` conversion, `VolumeSampleProvider`'s multiplication, and device enumeration are left out. Devices are values whose opening or starting may fail, and the stages only record the state the engine sets on them.
- Concurrency: the equalizer's `lock` and the cross-thread visibility of setters. Each call is modelled as one sequential step.
- The stage `Read` methods take the number of samples the upstream source produced, instead of pulling from it.
- `Start` does not check that the input and output devices differ, and neither does the model.
- Events are logs that assume one subscriber: the engine's events, the metering tap's chunk, and `PropertyChanged`.
- Engine.AudioEngine.PerformFft: the event carries a copy of the normalised spectrum. The source passes its one shared result array, which every later transform overwrites in place, so a subscriber that reads it later can see a later spectrum. That aliasing is not modelled.
- Config.Matching: the "key=" prefix test is ordinal. The source calls the one-argument, culture-sensitive `StartsWith`, under which ignorable code points such as U+200B are skipped. A line such as "\u200BInputDevice=abc" matches a key in the source and no key in the model.
- Versioning.CheckOutcome: it decides with the exact comparison, the corrected one from "## Findings". The source uses the wrapping `CompareVersions`, so with a negative component the two can differ: for current "-1.0" and reply "2147483647.0" the source reports no update and the model reports one. `Versioning.CheckOutcomeAsWritten` proves that they decide the same whenever neither version has a negative component.
- File, JSON, registry and HTTP access are inputs: the text of `config.ini`, each language file's deserialised contents, the update server's reply, and the existence of the version files. `LoadPresets`, preset JSON serialisation, `DeletePreset` and the startup registry key are left out.
- Config.NumberFormat: .NET culture-dependent number parsing and formatting (`F1`, `F2`, the invariant culture) are parameters. So the numeric settings `Value`, `NoiseGate` and `Limiter` are not claimed to survive a write and read. The format is assumed to print no separator, white space or line break (`Config.Lawful`). Whether a number reads back from its invariant text is assumed per number (`Config.ReadsBack`), not for all reals: `float` text round-trips, but no text format can be injective on all reals. `Config.LawfulFormatExists` shows a format that meets both assumptions.
- Versioning.ParseInt32: it accepts white space, an optional sign and decimal digits. It does not accept the trailing NUL characters or the culture-specific sign symbols that `int.Parse` allows.
- Config.InvalidFileNameChars is the Windows list; other platforms' lists are not modelled.
- A null preset name, which would make `SanitizeFileName` throw, is not modelled.
- Localization.Combine: a rooted second argument, which makes `Path.Combine` discard the first, is not modelled. The culture code is any text: at start-up it is the `Language=` value read from config.ini, passed on unchecked, and the model takes any string.
- EqEditor: drawing is not modelled. That covers the canvas, the ellipses, the grid, the curve polyline, the spectrum and its 33 ms throttling, message boxes, the hit tests, and `FreqToX`/`XToFreq`. The handlers take the outcome of a hit test and the frequency and gain the pointer position converts to.
- EqEditor.PointEditor: the `_isInitializing` early returns are not modelled. Nor is the order of `UpdateAudioEq`, `RefreshAllVisuals` and `SaveSettings` calls inside a handler; the engine's band list is `EngineEq` of whatever point list it is computed from.
- EqEditor.PointEditor.Drag: the dragged point is an index into the list, not a reference to it. The list is not re-sorted during a drag, so the index stays valid.
- EqEditor.SortByFreq: the model proves the result sorted and a permutation. It does not prove that points of equal frequency keep their order (`OrderBy` is stable).
- `ApplyPreset` is left out. It sets check boxes whose change handlers run in the middle of it, an ordering that belongs to WPF.
- The `DbToY` and `YToDb` functions take the dB limit as a parameter; the editor's invariant keeps it at 40, 50 or 100, so it is never 0.

## Findings

| source | as written | input that shows it | evidently intended | confidence | as-written member | corrected member |
|---|---|---|---|---|---|---|
| src/VersionManager.cs:118 | `return p1 - p2;` on two `int` components, unchecked, so the difference wraps around in 32 bits | `CompareVersions("0.0", "-2147483648.0")` returns −2147483648: the first version, which is larger, compares as older | the sign of the comparison is the order of the first differing components | not executed | Versioning.WrapReversesOrder | Versioning.VersionsAntisymmetric |

The model's `CompareVersions` takes the exact difference and is the one the
rest of the model uses; `CompareVersionsAsWritten` keeps the 32-bit
wrap-around. `Versioning.AsWrittenAgrees` shows the two agree whenever no
component is negative.
