# Compass core, modelled in Dafny

This project models the logic core of a small Android compass app.

- **Heading classifier** (`compass_state.dfy`, module `CompassStateModel`). The `CompassState` record holds an azimuth, a location fix and a magnetic-field strength. `Direction` maps the azimuth to one of eight labels. It uses the same ordered chain of comparisons as the Kotlin `direction()`: first the wrapping North test, then the closed ranges around 45, 90, …, 315, then a final fallback to "N". The `Location` record and its defaults come from `sensor/LocationManager.kt`. Kotlin floats are `real` here. Every threshold is a multiple of 22.5, which a float holds exactly, so the comparisons give the same outcome.
- **Sensor-delay slider** (`sensor_delay_setting.dfy`, module `SensorDelaySettings`). There are two ordered tables: slider position to `SensorManager` delay, and delay to display name. Three lookups fall back when a key is missing: the label of the current delay, the slider position of the current delay, and the delay written for a slider value. `ui/screen/settings/SensorDelaySetting.kt` and `ui/screen/settings/SettingsScreen.kt` hold identical copies of these tables and lookups. Both are modelled by the same members, and the table below cites each file where it applies.
- **View model** (`compass_view_model.dfy`, module `ViewModel`). `CompassViewModel` is a class with one method per callback: orientation reading, location fix, delay emitted by the settings store, failure of the orientation chain, display-flag emission, and start of location updates; a further method models the private `stopLocationUpdates`, which no code path reaches. Each method is proved against `Step`, a pure transition function over a `Snapshot` value. `Run` folds `Step` over a sequence of events. The lemmas about `Run` state what holds across many events.

Two pieces of bookkeeping stand in for what the Kotlin flow operators keep implicitly:
- **Sensor subscriptions** are numbered. `flatMapLatest` starts a new one on every delay the store emits. Only readings of the newest one are delivered.
- **Location jobs** are numbered. A job delivers fixes from launch until it is cancelled.

The settings store gives the delay as an `Int`. So a delay is an `int` here, and the four constants carry Android's values (FASTEST 0, GAME 1, UI 2, NORMAL 3). Any other integer is an unlisted delay, which is the case the fallbacks handle. No property depends on the numeric values.

Three behaviours of the code are easy to misread:
- Out-of-range azimuths (negative, or 360 and above) get "N" from the first guard, not from the final fallback. For every real azimuth the fallback is unreachable. Only NaN reaches it in the source.
- The North sector takes its lower edge 337.5 and not 22.5. The sector above it owns 22.5. Every other shared edge 45k + 22.5 (k = 1..6) belongs to the lower sector.
- `stopLocationUpdates` only cancels the job it currently holds. The construction calls `startLocationUpdates` once (CompassViewModel.kt:72). The activity calls it again (MainActivity.kt:83). That second call overwrites the handle and leaves the first job running until the view model's coroutine scope is cancelled. `stopLocationUpdates` is `private` (CompassViewModel.kt:101) and nothing in the app calls it; the model still covers it, so that what a stop would do can be stated.

## Model

| member | source | states |
|---|---|---|
| CompassStateModel.CompassState.Direction | app/src/main/java/com/shresht7/compass/state/CompassState.kt:42-55 | the result is always one of the eight labels, and it is "N" exactly when the azimuth is below 22.5 or at least 337.5 |
| CompassStateModel.SectorOfIsFirstGuard | app/src/main/java/com/shresht7/compass/state/CompassState.kt:44-53 | the arithmetic sector index names a guard the azimuth meets, and the azimuth meets no earlier guard in source order |
| CompassStateModel.FallbackUnreachable | app/src/main/java/com/shresht7/compass/state/CompassState.kt:45-53 | every real azimuth meets one of the eight guards, so the `else` fallback is never taken |
| CompassStateModel.DirectionIsSectorLabel | app/src/main/java/com/shresht7/compass/state/CompassState.kt:24-55 | for every azimuth, the classifier's label is the label of the independently computed sector index |
| CompassStateModel.SectorCentres | app/src/test/java/com/shresht7/compass/state/CompassStateKtTest.kt:8-70 | the centre 45k of each sector (k = 0..7) gets N, NE, E, SE, S, SW, W, NW respectively |
| CompassStateModel.SectorInterior | app/src/main/java/com/shresht7/compass/state/CompassState.kt:43-52 | for k = 1..7, every azimuth strictly between 45k - 22.5 and 45k + 22.5 gets the k-th label, so each sector is 45 degrees wide |
| CompassStateModel.SharedBoundaryGoesLower | app/src/main/java/com/shresht7/compass/state/CompassState.kt:46-52 | an edge 45k + 22.5 shared by two non-North sectors (k = 1..6) belongs to the lower sector, e.g. 67.5 is NE and 292.5 is W |
| CompassStateModel.TestedBoundaries | app/src/test/java/com/shresht7/compass/state/CompassStateKtTest.kt:72-118 | 22.49 is N, 22.5 is NE, 67.49 is NE, 337.5 is N, 380 is N and -10 is N |
| CompassStateModel.DefaultState | app/src/main/java/com/shresht7/compass/state/CompassState.kt:13-17 | the default record has azimuth 0, field 0 and the default Location (all zero, no altitude, no address), and it heads North |
| SensorDelaySettings.Get | app/src/main/java/com/shresht7/compass/ui/screen/settings/SettingsScreen.kt:103 | a keyed lookup misses exactly when no entry has the key, and a hit returns a value stored under that key |
| SensorDelaySettings.FindByValue | app/src/main/java/com/shresht7/compass/ui/screen/settings/SettingsScreen.kt:106 | the search finds nothing exactly when no entry holds the value; otherwise it returns the first entry in insertion order that holds it |
| SensorDelaySettings.TruncateToInt | app/src/main/java/com/shresht7/compass/ui/screen/settings/SensorDelaySetting.kt:66 | the slider value is rounded toward zero: down for non-negative values, up for negative ones |
| SensorDelaySettings.DelayLabel | app/src/main/java/com/shresht7/compass/ui/screen/settings/SensorDelaySetting.kt:60 | each listed delay gets its label (in slider order Slow, Normal, Fast, Fastest), and any unlisted delay reads "Normal"; the copy at SettingsScreen.kt:103 is the same |
| SensorDelaySettings.SliderPosition | app/src/main/java/com/shresht7/compass/ui/screen/settings/SettingsScreen.kt:106 | a listed delay puts the slider at its index in slider order, and any unlisted delay puts it at 2; the copy at SensorDelaySetting.kt:63 is the same |
| SensorDelaySettings.DelayForSlider | app/src/main/java/com/shresht7/compass/ui/screen/settings/SensorDelaySetting.kt:66 | a slider value that truncates to i in 0..3 writes the i-th delay in slider order, and any other value writes NORMAL; the copy at SettingsScreen.kt:109 is the same |
| SensorDelaySettings.SliderTableIsBijection | app/src/main/java/com/shresht7/compass/ui/screen/settings/SensorDelaySetting.kt:20-25 | positions 0, 1, 2, 3 map to UI, NORMAL, GAME, FASTEST, which are four distinct delays; every other position is absent |
| SensorDelaySettings.DisplayNames | app/src/main/java/com/shresht7/compass/ui/screen/settings/SensorDelaySetting.kt:20-33 | FASTEST is "Fastest", GAME is "Fast", NORMAL is "Normal", UI is "Slow", and positions 0..3 write delays labelled Slow, Normal, Fast, Fastest |
| SensorDelaySettings.SliderRoundTrip | app/src/main/java/com/shresht7/compass/ui/screen/settings/SettingsScreen.kt:106-109 | for every position i in 0..3, the slider position of the delay written at i is i |
| SensorDelaySettings.DelayRoundTrip | app/src/main/java/com/shresht7/compass/ui/screen/settings/SensorDelaySetting.kt:63-66 | for every listed delay, writing at that delay's slider position writes the same delay back |
| SensorDelaySettings.UnknownDelayDisagrees | app/src/main/java/com/shresht7/compass/ui/screen/settings/SensorDelaySetting.kt:60-63 | an unlisted delay is labelled "Normal" but puts the slider at 2; that position writes GAME, labelled "Fast", so label and position disagree |
| SensorDelaySettings.InitialDelay | app/src/main/java/com/shresht7/compass/ui/screen/settings/SettingsScreen.kt:90-106 | before the store emits, the delay is FASTEST, labelled "Fastest", with the slider at 3 |
| ViewModel.InitialState | app/src/main/java/com/shresht7/compass/viewModel/CompassViewModel.kt:39-72 | after construction the state is the default record (heading N), all four flags are on, a live location job is held and the orientation chain is alive with no subscription yet |
| ViewModel.StepValid | app/src/main/java/com/shresht7/compass/viewModel/CompassViewModel.kt:93-106 | every event keeps the bookkeeping invariant: only launched jobs are held or cancelled, and a delay is recorded exactly when a subscription exists |
| ViewModel.RunValid | app/src/main/java/com/shresht7/compass/viewModel/CompassViewModel.kt:54-106 | every sequence of events keeps that invariant |
| ViewModel.RunAppend | app/src/main/java/com/shresht7/compass/viewModel/CompassViewModel.kt:54-69 | callbacks are applied one at a time, in order: running two event sequences in turn equals running their concatenation |
| ViewModel.StepMonotone | app/src/main/java/com/shresht7/compass/viewModel/CompassViewModel.kt:56-106 | no single callback lowers the subscription number or the launched jobs, undoes a cancellation or revives a failed chain |
| ViewModel.RunMonotone | app/src/main/java/com/shresht7/compass/viewModel/CompassViewModel.kt:56-69 | subscription numbers and launched jobs never decrease, cancellations are never undone, and a dead orientation chain stays dead |
| ViewModel.SupersededReadingIgnored | app/src/main/java/com/shresht7/compass/viewModel/CompassViewModel.kt:56-65 | a reading from a superseded subscription never reaches the state: inserting it anywhere in later events leaves the outcome unchanged |
| ViewModel.NewDelaySupersedes | app/src/main/java/com/shresht7/compass/viewModel/CompassViewModel.kt:56-59 | once a new delay has been emitted, readings of the previous subscription are ignored after any further events |
| ViewModel.FailureIsFinal | app/src/main/java/com/shresht7/compass/viewModel/CompassViewModel.kt:56-69 | after a failure, heading and field strength keep their last values, and later delays start no new subscription, whatever events follow |
| ViewModel.StepFlag | app/src/main/java/com/shresht7/compass/viewModel/CompassViewModel.kt:75-89 | a single event changes a display flag only when it is that flag's own emission, and then the flag takes the emitted value |
| ViewModel.LatestFlagWins | app/src/main/java/com/shresht7/compass/viewModel/CompassViewModel.kt:75-89 | after any events, each display flag equals the value its own setting emitted last, or its earlier value if that setting emitted nothing |
| ViewModel.StepSeparation | app/src/main/java/com/shresht7/compass/viewModel/CompassViewModel.kt:60-97 | a reading leaves the location alone; a fix leaves heading and field strength alone; a flag emission sets its own flag and changes neither the compass state nor the other flags |
| ViewModel.CancelledJobSilent | app/src/main/java/com/shresht7/compass/viewModel/CompassViewModel.kt:101-103 | after a stop, the job that was held never changes the state again |
| ViewModel.RestartLeaksJob | app/src/main/java/com/shresht7/compass/viewModel/CompassViewModel.kt:93-106 | start, start, stop: the location resets to the default and heading and field strength are kept, but the first job is still live and its fixes still overwrite the location |
| ViewModel.ConstructionJobOutlivesStop | app/src/main/java/com/shresht7/compass/viewModel/CompassViewModel.kt:72-106 | after construction, one more start and a stop, the location is reset and no handle is held, yet job 0 is still live and its fixes overwrite the location |
| ViewModel.CompassViewModel.constructor | app/src/main/java/com/shresht7/compass/viewModel/CompassViewModel.kt:37-72 | the new object is in the initial state: default record, all flags on, one location job held |
| ViewModel.CompassViewModel.OnOrientation | app/src/main/java/com/shresht7/compass/viewModel/CompassViewModel.kt:60-65 | a reading of the live, newest subscription replaces azimuth and field strength and nothing else; any other reading changes nothing |
| ViewModel.CompassViewModel.OnLocation | app/src/main/java/com/shresht7/compass/viewModel/CompassViewModel.kt:94-97 | a fix from a running job replaces the location and nothing else; a fix from a cancelled or unknown job changes nothing |
| ViewModel.CompassViewModel.OnSensorDelay | app/src/main/java/com/shresht7/compass/viewModel/CompassViewModel.kt:56-59 | while the chain is alive, an emitted delay records the delay and starts the next subscription, which supersedes the current one; after a failure it changes nothing |
| ViewModel.CompassViewModel.OnSensorFailure | app/src/main/java/com/shresht7/compass/viewModel/CompassViewModel.kt:66-68 | a failure only ends the orientation chain; the compass state keeps its values |
| ViewModel.CompassViewModel.OnFlag | app/src/main/java/com/shresht7/compass/viewModel/CompassViewModel.kt:75-89 | the emitted value becomes that flag's value; the other flags, the compass state and the job handle are unchanged |
| ViewModel.CompassViewModel.StartLocationUpdates | app/src/main/java/com/shresht7/compass/viewModel/CompassViewModel.kt:93-99 | a new job is launched and held, overwriting the handle without cancelling a previously held job; nothing else changes |
| ViewModel.CompassViewModel.StopLocationUpdates | app/src/main/java/com/shresht7/compass/viewModel/CompassViewModel.kt:101-106 | the held job (if any) is cancelled, the handle becomes null and the location is reset to the default record; azimuth, field strength and flags are kept |

## Left out

- Floating point: azimuth, field strength and slider values are `real`. NaN and the infinities are not modelled. For the azimuth each of them would get "N" in the source: NaN through the fallback, the infinities through the first guard.
- TruncateToInt: does not model `Float.toInt()` on NaN, which Kotlin turns into 0, so a NaN slider value would write UI; nor its clamping to the `Int` range, which changes nothing here, since a clamped value is outside 0..3 either way and writes NORMAL (as +infinity does).
- The formatting functions `degrees()`, `speed()` and `magneticField()` in state/CompassState.kt are not modelled, nor the tests that depend on them. They rely on Java's decimal formatting of floats.
- sensor/CompassSensor.kt is not part of this model. Its work is platform listener registration, foreign rotation-matrix and orientation calls, and float normalisation of the angle. The sensor enters the model only as tagged `(azimuth, magneticField)` readings and a failure event.
- The location flow of sensor/LocationManager.kt (fused location client, geocoder, looper) is not modelled. Only its `Location` record is. Fixes enter as events tagged with their job.
- A failure of the location flow is not modelled. The source does not catch it, so it goes to the coroutine scope's uncaught-exception handler, outside the view model.
- Coroutines and flows (`flatMapLatest`, `launchIn`, the view-model scope, state flows) are reduced to atomic events applied in sequence. Races between sources are not modelled, nor is the cancellation of every job and subscription when the view model's scope is torn down.
- The settings store (settings/AppSettingsManager.kt) appears only as the emitted delay values and the default FASTEST. Its persistence is not modelled.
- The store write `setSensorDelay` is not modelled. The lookups model which delay is written.
- Compose rendering, navigation, the calibration dialog, the toggle composables and the activity's permission handling are not modelled. They hold no stateable logic.
