# Lava lamp widget — a Dafny model

The system is a draggable lava-lamp widget for a browser page or extension.
The lamp shows wax blobs that rise, hover or surge in a loop. A click on the
lamp toggles its settings panel, and dragging moves it and tilts it with the
pointer's speed. Minimising the lamp replaces it with an "ignition" minigame:
each click strikes a burst of sparks, and three quick strikes revive the
lamp. The settings persist under one key, in the extension store when it
exists and in the page's local store otherwise. The interface strings come in
English, Chinese and Japanese, chosen from the browser's language.

The model has one module per source file:

- `Types` (`Types.dfy`) holds the configuration record and its keys, the
  blob record, the string tables and browser-language detection.
- `Storage` (`Storage.dfy`) holds the default configuration and the object
  spread that merges a stored record over it. It also has a
  `SettingsStore` class with the two backends, `Save` and `Load`.
- `Blob` (`Blob.dfy`) covers one wax blob: its behaviour number and motion
  pattern, the keyframes, travel and hover heights, the speed-adjusted
  duration and the animation name.
- `Ignition` (`Ignition.dfy`) covers the minigame. The spark physics and the
  flash are functions over sequences. The strike loop is a method. The game
  itself is an `IgnitionGame` class whose events are `Frame`, `Click`,
  `DecayTimeout` and `CooldownTimeout`.
- `LavaLamp` (`LavaLamp.dfy`) holds the line-intersection helper behind the
  glass outline. It has a `Lamp` class for the drag, tilt and panel-toggle
  gesture and for the configuration handlers. It also has the loop that
  creates the batch of blobs.

Coordinates, sizes and speeds are reals. Each `Math.random()` draw is a
parameter, with a precondition that it lies in [0, 1). Pointer events,
animation frames and timer expiries are explicit method calls. The window
and element sizes are parameters of those calls.

## Model

| member | source | states |
|---|---|---|
| Types.Get | types.ts:14-24 | reading a key of the configuration yields a value tagged with that same key |
| Types.FieldsDetermineConfig | types.ts:14-24 | two configurations that agree on every key are equal |
| Types.With | components/LavaLamp.tsx:77-79 | the record update `{...prev, [key]: value}` sets the named key to the value and leaves every other key as it was |
| Types.TranslationsCoverLanguages | types.ts:85-145 | every language has a string table, and the table has no key besides the three language tags |
| Types.Lower | types.ts:166 | lower-casing keeps the length and maps each character on its own |
| Types.PreferredTag | types.ts:150-164 | the inspected tag is the first entry of `languages` if there is one, else `language`, else `userLanguage`, else `browserLanguage`, else "en" |
| Types.ClassifyTag | types.ts:166-171 | Chinese exactly when the tag starts with "zh" ignoring case; Japanese exactly when it starts with "ja" and not "zh"; English otherwise |
| Types.ClassifyIgnoresCase | types.ts:166-169 | tags that agree after lower-casing are classified alike |
| Types.BrowserLanguage | types.ts:147-172 | English without a navigator, otherwise the classification of the preferred tag; the result always has a string table |
| Storage.Whole | utils/storage.ts:21-28 | serialising a configuration stores every key with its value |
| Storage.Merge | utils/storage.ts:41 | the spread `{...base, ...record}`: each key takes the record's value when present and the base's value otherwise |
| Storage.MergeWhole | components/LavaLamp.tsx:44 | spreading a complete record over any configuration yields exactly that record |
| Storage.MergeNothing | utils/storage.ts:51 | spreading a record with no keys leaves the base unchanged |
| Storage.Overlay | components/LavaLamp.tsx:44 | the record `{...p, ...q}`: each key is taken from `q` when present there, else from `p` |
| Storage.MergeTwice | components/LavaLamp.tsx:44 | spread is associative: `{...{...base, ...p}, ...q}` equals `{...base, ...{...p, ...q}}` |
| Storage.LoadedSpread | components/LavaLamp.tsx:44 | the load step computes `{...prev, ...{...DEFAULT_CONFIG, ...stored}}`; whatever the current configuration `prev` is, the result is the defaults overridden by the stored record |
| Storage.SettingsStore.Stored | utils/storage.ts:38-58 | a record is found exactly when the extension store holds the key, and it is the record stored there. Without that store, a record is found exactly when reading the page store succeeds and it holds parsable JSON under the key, and it is that parsed record |
| Storage.SettingsStore.Load | utils/storage.ts:35-60 | with nothing stored, the defaults; otherwise every stored key overrides its default and every missing key keeps it |
| Storage.SettingsStore.Save | utils/storage.ts:21-33 | the whole configuration is written under the one key: to the extension store if present, else to the page store. A rejected page write changes nothing, so loading still finds what it found before. Whenever the backend in use accepts both the write and the read, loading afterwards returns the saved configuration |
| Storage.FreshInstall | utils/storage.ts:7-60 | on empty backends loading returns the defaults. After a save it returns the saved configuration when the backend accepts the write and the read, and still the defaults otherwise |
| Storage.SaveToFullPage | utils/storage.ts:27-31 | when the page store rejects the write (it is full) but still reads, loading returns the earlier record over the defaults, not the new configuration |
| Blob.JsRemainder | components/LavaLampBlob.tsx:17 | JavaScript's `%`: Euclidean for non-negative operands; for negative ones the result is the negated remainder of the magnitude, in (-b, 0] |
| Blob.BehaviorType | components/LavaLampBlob.tsx:15-17 | behaviour 1 for the mother blob (id 99); `id % 3` for other non-negative ids, so in 0..2; in -2..0 for negative ids |
| Blob.PatternOf | components/LavaLampBlob.tsx:21-55 | behaviour 0 selects rising, 1 hovering, and every other value the surging branch |
| Blob.PatternCycles | components/LavaLampBlob.tsx:17 | non-negative ids three apart (other than the mother) take the same pattern; across zero this fails, since JavaScript's `-2 % 3` is -2 |
| Blob.TravelDistance | components/LavaLampBlob.tsx:13 | a blob travels the container height plus four times its size |
| Blob.HoverHeight | components/LavaLampBlob.tsx:34 | hover height is 1/20 of the container for the mother and 1/5 for other blobs |
| Blob.Keyframes | components/LavaLampBlob.tsx:21-55 | each pattern's frames run from 0% to 100% with strictly increasing offsets and start at `translateY(size)`. Hovering ends where it began; the other patterns end a full travel up |
| Blob.SpeedFactor | components/LavaLampBlob.tsx:57 | the speed factor is positive, and it is smaller for the mother blob (0.2) than for any other (0.4) |
| Blob.SafeSpeed | components/LavaLampBlob.tsx:57-58 | the divisor is speed × factor, floored at 0.01 |
| Blob.AdjustedDuration | components/LavaLampBlob.tsx:57-59 | duration = adjusted duration × safe speed; a positive duration stays positive |
| Blob.FasterIsShorter | components/LavaLampBlob.tsx:57-59 | raising the speed multiplier never lengthens a cycle |
| Blob.NatText | components/LavaLampBlob.tsx:12 | a natural number is written as decimal digits without a leading zero |
| Blob.NatTextValue | components/LavaLampBlob.tsx:12 | the written digits denote the number itself |
| Blob.NatTextInjective | components/LavaLampBlob.tsx:12 | distinct naturals are written differently |
| Blob.IntTextInjective | components/LavaLampBlob.tsx:12 | distinct integers, signs included, are written differently |
| Blob.NegativeText | components/LavaLampBlob.tsx:12 | a negative number is written as a minus sign followed by the digits of its magnitude |
| Blob.NotNegativeText | components/LavaLampBlob.tsx:12 | a non-negative number is not written with a minus sign |
| Blob.AnimationName | components/LavaLampBlob.tsx:12 | each animation name is "float-" followed by the decimal text of the id |
| Blob.AnimationNamesDistinct | components/LavaLampBlob.tsx:12 | blobs with distinct ids get distinct keyframe rule names |
| Blob.BlobAnimation | components/LavaLampBlob.tsx:12-74 | a blob's animation uses its own name, the negated delay, its opacity and horizontal offset; its keyframes are the pattern its id selects, over its travel distance and hover height; its duration is the configured one adjusted by the speed multiplier and the mother's or ordinary factor, and positive for a positive configured duration |
| Blob.MotherBlobAnimation | components/LavaLampBlob.tsx:16-59 | the mother blob hovers 1/20 of the container high, at factor 0.2 |
| Ignition.Advance | components/IgnitionGame.tsx:41-48 | one frame moves a spark by its velocity, pulls vy down by 0.15, damps vx by 0.92 and burns 0.025 life, keeping id, colour and size |
| Ignition.Advanced | components/IgnitionGame.tsx:40-48 | every spark is advanced once, in order |
| Ignition.Survivors | components/IgnitionGame.tsx:49 | the filter never grows the list, keeps only sparks with positive life, and invents no spark |
| Ignition.SurvivorsKeepCount | components/IgnitionGame.tsx:49 | each spark with positive life is kept as many times as it occurs, and each dead one is dropped entirely |
| Ignition.SurvivorsKeepOrder | components/IgnitionGame.tsx:49 | the survivors are a subsequence of the input |
| Ignition.SurvivorsKeepLiving | components/IgnitionGame.tsx:49 | every spark with positive life is a member of the filtered list |
| Ignition.SurvivorsAppend | components/IgnitionGame.tsx:49 | filtering a concatenation filters each part, so older sparks stay ahead of newer ones |
| Ignition.StepSparks | components/IgnitionGame.tsx:39-50 | after a frame no dead spark remains and the count never grows. The survivors keep their order, and every spark with life above 0.025 survives. Each advanced spark with positive life is kept with its full multiplicity, so identical sparks from one strike all survive |
| Ignition.StepLowersLife | components/IgnitionGame.tsx:38-50 | a frame lowers the upper bound on life by 0.025 and keeps every life positive |
| Ignition.FramesLowerLife | components/IgnitionGame.tsx:38-57 | after n frames every life is at most its bound minus 0.025 n |
| Ignition.SparksBurnOut | components/IgnitionGame.tsx:38-57 | sparks with life at most 1 are all gone after 40 frames |
| Ignition.FramesSplit | components/IgnitionGame.tsx:57 | a + b frames are a frames followed by b frames, by the general split of an iterated step (`Ignition.IterateSplit`) |
| Ignition.DecayFlash | components/IgnitionGame.tsx:52-55 | the flash dims by 0.1 per frame, never below 0, and strictly while positive |
| Ignition.FlashFades | components/IgnitionGame.tsx:52-57 | a non-negative flash after n frames is max(0, f − 0.1 n) |
| Ignition.FullFlashFades | components/IgnitionGame.tsx:52-57 | a full flash after n frames is max(0, 1 − 0.1 n) in exact arithmetic, so it is dark after ten frames (double rounding is not modelled) |
| Ignition.SparkCount | components/IgnitionGame.tsx:119 | a strike spawns at least 15 sparks, and at least 25 once the combo is 1 or more |
| Ignition.SparkCountGrows | components/IgnitionGame.tsx:119 | each further strike of a combo spawns ten sparks more than the one before |
| Ignition.LaunchSpeed | components/IgnitionGame.tsx:129 | a spark's sideways speed is drawn between 2 and 8 times the scale |
| Ignition.LiftSpeed | components/IgnitionGame.tsx:130 | a spark's upward speed is drawn between 4 and 10 times the scale |
| Ignition.MakeSpark | components/IgnitionGame.tsx:114-134 | a struck spark keeps its drawn id, starts at life 1 and is one of the two colours. In a container with a width it flies upwards at 4 to 10 times the scale, and sideways on its own side at 2 to 8 times the scale |
| Ignition.Burst | components/IgnitionGame.tsx:118-135 | a burst has one spark per draw |
| Ignition.SpawnSparks | components/IgnitionGame.tsx:118-135 | the strike loop makes `count` sparks, the i-th from the i-th draw, all at full life |
| Ignition.IgnitionGame.constructor | components/IgnitionGame.tsx:22-28 | a new game has no sparks, combo 0, cooldown 0 and flash 0 |
| Ignition.IgnitionGame.Frame | components/IgnitionGame.tsx:38-58 | a frame replaces the sparks by their one-frame step and dims the flash; combo and cooldown are untouched; sparks stay alive at life at most 1 |
| Ignition.IgnitionGame.Click | components/IgnitionGame.tsx:102-142 | during a cooldown or without a container nothing changes. Otherwise the flash goes to 1 and the combo rises by one. The 15 + 10 × combo new sparks are appended after those in play, and a revive is requested exactly when the combo reaches 3. The cooldown is never changed |
| Ignition.IgnitionGame.DecayTimeout | components/IgnitionGame.tsx:66-76 | the decay timer resets a combo of 1 or 2 to 0 and otherwise does nothing |
| Ignition.IgnitionGame.CooldownTimeout | components/IgnitionGame.tsx:78-86 | the cooldown timer clears a positive cooldown together with the combo |
| Ignition.QuickStrikes | components/IgnitionGame.tsx:102-142 | on a fresh game four quick strikes revive on the third and fourth but not before, and spawn 25 + 35 + 45 + 55 sparks |
| Ignition.StrikeAfterPause | components/IgnitionGame.tsx:66-76 | a strike after the decay timer fired starts again at combo 1 without reviving |
| LavaLamp.Intersection | components/LavaLamp.tsx:9-15 | for parallel lines (zero denominator) the result is the second point |
| LavaLamp.IntersectionOnBothLines | components/LavaLamp.tsx:9-15 | for non-parallel lines the result lies on both lines |
| LavaLamp.JunctionsAreMirrored | components/LavaLamp.tsx:204-217 | the lamp's cap and base side lines are not parallel, and the right junction mirrors the left one about the centre line |
| LavaLamp.GrabRatio | components/LavaLamp.tsx:105-109 | the grab ratio is the click height over the element height, clamped to [0, 1]; it is 0.5 for an element without height |
| LavaLamp.ClampAxis | components/LavaLamp.tsx:138-141 | the clamped coordinate is at most the upper bound, at least the lower bound when the bounds are ordered, unchanged when in range, and always one of the three. A coordinate below the lower bound becomes the lower bound when the bounds are ordered. A coordinate above the upper bound, or any coordinate when the window is narrower than the bounds allow (lower above upper), ends at the upper bound |
| LavaLamp.Tilt | components/LavaLamp.tsx:145-150 | the tilt is movementX × (0.5 − grabRatio) × 4 clamped to ±12 degrees, and 0 when grabbed at the middle |
| LavaLamp.TiltLeverage | components/LavaLamp.tsx:145-147 | moving right tilts one way when grabbed above the middle and the other way below it |
| LavaLamp.Lamp.constructor | components/LavaLamp.tsx:23-37 | the lamp starts with the dark initial configuration at (width − 200, height − 100), no tilt and the panel hidden |
| LavaLamp.Lamp.MouseDown | components/LavaLamp.tsx:102-122 | a press on the menu is ignored; any other press records the pointer, the anchor and the grab ratio, and registers the move and release listeners |
| LavaLamp.Lamp.MouseMove | components/LavaLamp.tsx:124-153 | when dragging an unlocked lamp, the anchor follows the pointer clamped to the padded window and the tilt follows the movement. A locked lamp or an idle gesture does not move |
| LavaLamp.Lamp.MouseUp | components/LavaLamp.tsx:155-166 | a release within 5 px (Manhattan) of the press, off the menu and not minimised, toggles the panel whether or not the lamp is locked. Every release ends the drag, levels the lamp and removes the listeners |
| LavaLamp.Lamp.UpdateConfig | components/LavaLamp.tsx:77-79 | the named key takes the new value and every other key and all other state stay unchanged |
| LavaLamp.Lamp.Minimize | components/LavaLamp.tsx:81-84 | minimising sets `isMinimized` and hides the panel |
| LavaLamp.Lamp.Revive | components/LavaLamp.tsx:86-88 | reviving clears `isMinimized` and changes nothing else |
| LavaLamp.Lamp.ApplyLoaded | components/LavaLamp.tsx:43-44 | once loaded settings are spread over the current configuration, the configuration equals them |
| LavaLamp.Lamp.CreateBlobs | components/LavaLamp.tsx:169-183 | the mount effect installs twelve drawn blobs followed by the mother blob |
| LavaLamp.MakeBlob | components/LavaLamp.tsx:172-179 | an ordinary blob keeps its index as id. From draws in [0, 1) its x is in [35, 65), its size in [10, 28), its duration in [8, 23), its delay in [0, 20) and its opacity in [0.9, 1); it also meets the looser bounds that the mother blob meets too |
| LavaLamp.MakeBlobBatch | components/LavaLamp.tsx:170-181 | the batch has twelve blobs with ids 0..11 built from their draws, then the mother (id 99). Ids are distinct, and every blob lies in the middle of the glass with bounded size, duration, delay and opacity |
| LavaLamp.BatchAnimations | components/LavaLamp.tsx:169-183 | the blobs of a batch have pairwise distinct animation names; ordinary blob i takes pattern i mod 3 and the mother hovers |

## Left out

- Audio (`playSound`), the settings panel component, the SVG path strings, colours and palettes, CSS text and the visual theme (`auto` uses a media query) are not modelled. They are presentation only.
- The save effect (`components/LavaLamp.tsx:66-75`) is not modelled: on every change once loaded it writes the configuration with `saveConfig` and the lamp position to the extension store, but no `Lamp` handler calls `Storage.SettingsStore.Save`. The position read from the extension store at load is not modelled either; the position is not part of the settings record.
- The order of the asynchronous load against the start-up timers and the `hasLoaded` gate before saving is not modelled. `ApplyLoaded` is the effect of the load once it arrives.
- Numbers are exact reals, not IEEE doubles. Rounding in spark motion and in the flash decay is not modelled.
- JSON parsing is modelled by its outcome: empty text, unparsable text, or a record whose present keys have the right types. Extra keys and ill-typed values in a stored record are not modelled.
- Types.Lower: lower-cases ASCII letters only, because the Unicode case mapping of `toLowerCase` is outside the model. Only the prefixes "zh" and "ja" are inspected, and both are ASCII.
- Types.PreferredTag: a missing `languages` list or a missing language string is written as empty. JavaScript's truthiness tests treat the two alike.
- LavaLamp.Lamp.MouseMove: reads the configuration current at the event. The source's listener closes over the configuration of the render in which the gesture started.
- LavaLamp.Lamp.MouseUp: reads the configuration current at the event. The source's listener closes over the configuration of the render in which the gesture started.
- Ignition.IgnitionGame.Click: requires enough draws for a full burst even on a click it ignores. The draws are unused then.
- Ignition.IgnitionGame.DecayTimeout: the 2.5 s delay and the re-arming or cancelling of the timer on every combo change are not modelled. The method is the expiry of a timer armed for the current combo.
- Ignition.IgnitionGame.CooldownTimeout: the 2 s delay is not modelled. No code path ever makes the cooldown positive, so this event never changes anything reachable. The guard is kept as written.
- The mouse hover cursor of the minigame, the frame-request scheduling and its cancellation at unmount are not modelled. The game's unmounting when the lamp is revived is not modelled either.
- Reading the container's bounding box is not modelled. `Click` takes the rectangle, or `None` before the element is attached.
