# Resolution changer: a verified model of its control logic

The app forces the display size of an Android device. It has three entry points:

- the main screen's preset list;
- a Quick Settings tile that cycles through presets;
- a shortcut activity that takes external intents.

All three call one dispatcher, `changeResolutionWithIWindowManager`. The main screen also has an "Add Resolution" dialog that appends a preset to its list.

This project models the logic behind those entry points in Dafny and proves what each one promises.

- **Resolution** (`resolution_type.dfy`): the `Resolution` data class of two `Int`s. It prints as `WxH`.
- **Preset catalogues** (`default_resolutions.dfy`): the constant lists `all` and `common`.
- **Dispatcher** (`dispatcher.dfy`): the ordered chain of mechanisms that the dispatcher tries.
  - Reflection and process launches are foreign calls, so their outcomes are inputs: `WindowManager` and `Shell`.
  - The specification functions `Attempts`, `Winner`, `TriedOf`, `Tried` and `Dispatch` describe the chain.
  - The method `ChangeResolution` runs the chain stage by stage, with a loop over the method table, and is proved equal to those functions.
- **Preference store** (`preference_store.dfy`): the integer part of `SharedPreferences`, as a class holding a map.
- **Preset cursor** (`resolution_control.dfy`): `ResolutionControl`, with the persisted cursor and `toggleNext`. Kotlin's wrapping `Int` addition and truncating `%` are written out.
- **Tile** (`resolution_tile.dfy`): `ResolutionTileService` and the tile fields it writes.
- **Shortcut** (`toggle_shortcut.dfy`): `ToggleShortcutActivity`, with its launch signature and its 750 ms duplicate filter over the two companion fields. It routes by action. The clock is a parameter.
- **Entry form** (`entry_form.dfy`): the dialog's two text fields and error flags, `validateAndSave`, and the append done by `onSave`.
- **Kotlin semantics** (`kotlin_text.dfy`): the pieces of the Kotlin standard library this logic depends on.
  - `Int` range, wrap-around of `+ 1`, and truncating `%`.
  - Decimal printing and `toIntOrNull`.
  - `contains`, natural `String` order, `sorted()` and `joinToString`.
- **Option** (`wrappers.dfy`): an `Option` datatype, with `GetOr` for Kotlin's `?:`.

Some facts about the code as written:

- The cursor is never clamped. A stored index of -2 makes the next index -1 (`MinusTwoGivesNegativeIndex`). A stored `Int.MAX_VALUE` wraps on `+ 1`: with two presets the next index is 0, but with three it would be -2 (`MaxIntCursorWraps`). `updateTileLabel` indexes with the stored value unchecked. These cases fault in the app, so they are preconditions here.
- Every preset constructor call in `DefaultResolutions.kt` passes a third, descriptive string. The `Resolution` data class declares only width and height. Only those two fields are modelled, and they define equality.
- `MainScreen` only ever sets its local `showDialog` to `false`. It starts `false` and both dialog callbacks reset it, so the dialog never opens. The dialog and `onSave` are modelled as operations anyway.
- Method 2 of the dispatcher is described as trying different parameter types. It passes `Int::class.java`, which is the primitive `int` class, so it looks up the same `setForcedDisplaySize(int, int, int)` as Method 1 and invokes it a second time. The model has one lookup outcome shared by both methods and a separate outcome for each invoke.
- The signature separates its parts with `|`, but the parts are not escaped. `SignatureDeterminesAction` therefore assumes the action text contains no `|`.

## Model

| member | source | states |
|---|---|---|
| ResolutionType.ToStringShape | app/src/main/java/com/duc1607/resolutionchanger/MainActivity.kt:56-61 | The printed form is the width's digits, one `x`, then the height's digits. No other `x` and no space appears. |
| ResolutionType.ToStringInjective | app/src/main/java/com/duc1607/resolutionchanger/MainActivity.kt:56-61 | Two resolutions that print the same are equal, so the `WxH` text identifies a resolution. |
| KotlinText.ParseIntToString | app/src/main/java/com/duc1607/resolutionchanger/MainActivity.kt:498-499 | `toIntOrNull` of the printed form of any `Int` gives that `Int` back. |
| KotlinText.Rem | app/src/main/java/com/duc1607/resolutionchanger/ResolutionControl.kt:41 | Kotlin's `%`: for a non-negative dividend the result is the Euclidean remainder in `[0, n)`. For a negative dividend the result lies in `(-n, 0]`. |
| KotlinText.Inc | app/src/main/java/com/duc1607/resolutionchanger/ResolutionControl.kt:41 | `current + 1` on an `Int` is the exact sum, or the sum less 2^32 when it overflows. It stays in `Int` range. |
| KotlinText.SortedKeys | app/src/main/java/com/duc1607/resolutionchanger/ToggleShortcutActivity.kt:27 | `keys.sorted()` holds exactly the bundle's keys, each once, in strictly increasing natural `String` order. |
| DefaultResolutions.All | app/src/main/java/com/duc1607/resolutionchanger/DefaultResolutions.kt:4-12 | The catalogue has five presets, all with positive sides and pairwise distinct. |
| DefaultResolutions.Common | app/src/main/java/com/duc1607/resolutionchanger/DefaultResolutions.kt:14-18 | `common` is non-empty and its presets are positive, distinct and all in `all`. 720x1080 is not in it. |
| DefaultResolutions.CommonFollowsCatalogueOrder | app/src/main/java/com/duc1607/resolutionchanger/DefaultResolutions.kt:4-18 | `common` has two entries: the first and third presets of `all`, in that order. |
| Dispatcher.FirstSuccess | app/src/main/java/com/duc1607/resolutionchanger/MainActivity.kt:144-361 | The result is the position of the first successful attempt, or the chain's length. Every earlier attempt failed. |
| Dispatcher.Winner | app/src/main/java/com/duc1607/resolutionchanger/MainActivity.kt:144-361 | A winning mechanism exists iff some attempt of the chain succeeds. It is the mechanism of the first successful attempt: every attempt before that one failed. |
| Dispatcher.ScanAttemptsSplit | app/src/main/java/com/duc1607/resolutionchanger/MainActivity.kt:257-278 | Scanning two method tables one after the other gives the two scans' attempts concatenated. |
| Dispatcher.ScanOnlyScanned | app/src/main/java/com/duc1607/resolutionchanger/MainActivity.kt:254-281 | The method scan contributes only attempts through scanned methods. |
| Dispatcher.ProbesNeverSucceed | app/src/main/java/com/duc1607/resolutionchanger/MainActivity.kt:200-237 | No attempt of the chain through `overrideDisplayInfo` or `setDisplayOverrideConfiguration` succeeds. |
| Dispatcher.RetryRepeatsLookup | app/src/main/java/com/duc1607/resolutionchanger/MainActivity.kt:145-198 | Methods 1 and 2 look up the same `setForcedDisplaySize(int, int, int)`. When that lookup fails, neither of them succeeds. |
| Dispatcher.FirstSuccessConcat | app/src/main/java/com/duc1607/resolutionchanger/MainActivity.kt:144-361 | The first success of a concatenated chain is in its first part when that part has one. Otherwise it is offset into the second part. |
| Dispatcher.ChainConcat | app/src/main/java/com/duc1607/resolutionchanger/MainActivity.kt:144-361 | Running two groups in sequence stops in the first group when that group has a success. Otherwise the first group is tried in full and the run goes on into the second. |
| Dispatcher.DispatchSucceedsIffSomeAttemptSucceeds | app/src/main/java/com/duc1607/resolutionchanger/MainActivity.kt:133-366 | The call reports success iff the window manager is non-null and some mechanism of its chain succeeds. |
| Dispatcher.NullWindowManagerAttemptsNothing | app/src/main/java/com/duc1607/resolutionchanger/MainActivity.kt:133-135 | With a null window manager the call returns `(false, "IWindowManager not available")` and attempts nothing, not even the shell commands. |
| Dispatcher.FailureMessages | app/src/main/java/com/duc1607/resolutionchanger/MainActivity.kt:363-372 | A failing call returns the all-failed text. When reading the method table threw, it returns `Error using IWindowManager: ` and the exception message. |
| Dispatcher.SuccessMessageNamesSize | app/src/main/java/com/duc1607/resolutionchanger/MainActivity.kt:168-354 | Every success message starts with `Resolution changed to ` and the requested `WxH`. |
| Dispatcher.FirstSuccessStopsChain | app/src/main/java/com/duc1607/resolutionchanger/MainActivity.kt:144-366 | The attempts made are a prefix of the chain in which only the last may have succeeded. The call succeeds iff that last attempt did. A failing call went through the whole chain. |
| Dispatcher.TriedIsPrefix | app/src/main/java/com/duc1607/resolutionchanger/MainActivity.kt:144-361 | The attempts made are a prefix of the chain. Every attempt before the last one failed. When the prefix is shorter than the chain, it is non-empty and its last attempt succeeded, so the cut comes right after the first success. |
| Dispatcher.ProbesOnlyLog | app/src/main/java/com/duc1607/resolutionchanger/MainActivity.kt:200-237 | No probe attempt the call makes succeeds. |
| Dispatcher.ShellTail | app/src/main/java/com/duc1607/resolutionchanger/MainActivity.kt:284-361 | The shell mechanisms occur only in the shell stage, after every reflective attempt and every scanned attempt. |
| Dispatcher.DirectWmInChain | app/src/main/java/com/duc1607/resolutionchanger/MainActivity.kt:302-330 | The chain contains a direct `wm size` attempt only when `sh -c` exited with a non-zero code. |
| Dispatcher.DirectWmOnlyAfterNonZeroExit | app/src/main/java/com/duc1607/resolutionchanger/MainActivity.kt:302-330 | The direct `wm size` command is attempted only when `sh -c` exited with a non-zero code. |
| Dispatcher.ShellExceptionSkipsDirectWm | app/src/main/java/com/duc1607/resolutionchanger/MainActivity.kt:285-361 | When `sh -c` throws, the attempt after it is the root command. The direct command is skipped. |
| Dispatcher.ForceSize | app/src/main/java/com/duc1607/resolutionchanger/MainActivity.kt:143-237 | Methods 1 to 4 return the winner and the attempts made by the reflective stage of the chain. |
| Dispatcher.ScanMethods | app/src/main/java/com/duc1607/resolutionchanger/MainActivity.kt:254-281 | The loop over the method table returns the winner and the attempts made by the scan stage. Candidates are filtered by name and by three parameters, in table order. |
| Dispatcher.RunShell | app/src/main/java/com/duc1607/resolutionchanger/MainActivity.kt:284-361 | Methods 7 and 9 return the shell stage's winner and attempts. Any winner is one of the three shell commands. |
| Dispatcher.ChainStages | app/src/main/java/com/duc1607/resolutionchanger/MainActivity.kt:143-361 | The chain's winner is the reflective stage's winner if there is one. Otherwise there is none when reading the method table threw. Otherwise it is the scan's winner, or failing that the shell's. |
| Dispatcher.RunAfterReflection | app/src/main/java/com/duc1607/resolutionchanger/MainActivity.kt:239-361 | Methods 6 to 9 return the winner and the attempts made after the reflective stage. They return nothing when the method table cannot be read. Any winner is not a probe. |
| Dispatcher.ChangeResolution | app/src/main/java/com/duc1607/resolutionchanger/MainActivity.kt:127-373 | The returned pair is `Dispatch(wm, shell, width, height)`. The attempts made are `Tried(wm, shell)`. |
| PreferenceStore.SharedPreferences.GetInt | app/src/main/java/com/duc1607/resolutionchanger/ResolutionControl.kt:14-16 | Returns the stored value, or the default when the key is absent. |
| PreferenceStore.SharedPreferences.PutInt | app/src/main/java/com/duc1607/resolutionchanger/ResolutionControl.kt:18-21 | The store maps the key to the value. Every other key is unchanged, and later reads of the key return the value. |
| ResolutionControl.Resolutions | app/src/main/java/com/duc1607/resolutionchanger/ResolutionControl.kt:12 | `resolutions()` is exactly `common`. It is non-empty and fits in an `Int`. |
| ResolutionControl.CurrentIndex | app/src/main/java/com/duc1607/resolutionchanger/ResolutionControl.kt:14-16 | The cursor is 0 when nothing is stored under `resolution_tile_prefs` / `current_index`, and the stored value otherwise. |
| ResolutionControl.SetCurrentIndex | app/src/main/java/com/duc1607/resolutionchanger/ResolutionControl.kt:18-21 | After storing `i`, `CurrentIndex` reads `i`. Nothing else in the store changes. |
| ResolutionControl.NextIndex | app/src/main/java/com/duc1607/resolutionchanger/ResolutionControl.kt:41 | `(current + 1) % size` with wrapping `Int` addition and truncating `%` lies strictly between `-size` and `size`. For a stored cursor from 0 up to `Int.MAX_VALUE - 1`, including one at or above the list size, it is `(current + 1) mod size`, in `[0, size)`. |
| ResolutionControl.NextIndexInRange | app/src/main/java/com/duc1607/resolutionchanger/ResolutionControl.kt:41 | From any cursor in `-1 .. size-1` the next index is the cyclic successor: `current + 1`, or 0 after the last preset. |
| ResolutionControl.MaxIntCursorWraps | app/src/main/java/com/duc1607/resolutionchanger/ResolutionControl.kt:41 | A stored `Int.MAX_VALUE` wraps to `Int.MIN_VALUE` on `+ 1`. With three presets the next index is -2; with the two shipped presets it is 0. |
| ResolutionControl.MinusTwoGivesNegativeIndex | app/src/main/java/com/duc1607/resolutionchanger/ResolutionControl.kt:41-42 | A stored -2 gives next index -1 for any list longer than one, so `list[nextIndex]` would fault. |
| ResolutionControl.Advance | app/src/main/java/com/duc1607/resolutionchanger/ResolutionControl.kt:41 | After `k` advances from a valid cursor, the cursor is still in `[0, size)`. |
| ResolutionControl.AdvanceCompose | app/src/main/java/com/duc1607/resolutionchanger/ResolutionControl.kt:41 | `a + b` advances equal `a` advances followed by `b` advances. |
| ResolutionControl.AdvanceWithoutWrap | app/src/main/java/com/duc1607/resolutionchanger/ResolutionControl.kt:41 | Before the end of the list, `k` advances move the cursor exactly `k` places. |
| ResolutionControl.AdvanceFullCycle | app/src/main/java/com/duc1607/resolutionchanger/ResolutionControl.kt:41 | `size` advances from a valid cursor return to it. |
| ResolutionControl.ToggleNext | app/src/main/java/com/duc1607/resolutionchanger/ResolutionControl.kt:38-46 | An empty list returns `(false, "No resolutions configured")` and leaves the store alone. Otherwise it stores the next index and returns the dispatcher's pair for that preset unchanged. |
| ResolutionTile.ResolutionTileService.CurrentIndex | app/src/main/java/com/duc1607/resolutionchanger/ResolutionTileService.kt:13-19 | The tile's `currentIndex` is exactly `ResolutionControl`'s cursor: the same file, the same key, the same default. |
| ResolutionTile.ResolutionTileService.SetCurrentIndex | app/src/main/java/com/duc1607/resolutionchanger/ResolutionTileService.kt:17-19 | The setter writes the shared cursor key and nothing else. |
| ResolutionTile.ResolutionTileService.UpdateTileLabel | app/src/main/java/com/duc1607/resolutionchanger/ResolutionTileService.kt:43-50 | With no tile it changes nothing. Otherwise the label becomes the `WxH` of the preset under the cursor and the state becomes active. It requires the cursor to lie in the list. |
| ResolutionTile.ResolutionTileService.OnStartListening | app/src/main/java/com/duc1607/resolutionchanger/ResolutionTileService.kt:21-24 | Starting to listen relabels the tile from the stored cursor. |
| ResolutionTile.ResolutionTileService.OnClick | app/src/main/java/com/duc1607/resolutionchanger/ResolutionTileService.kt:26-41 | A click stores `(current + 1) % size` and labels the tile with that preset. It dispatches the preset and returns a toast text iff the dispatch failed, carrying the failure message. |
| ResolutionTile.TileLabelsIdentifyPresets | app/src/main/java/com/duc1607/resolutionchanger/ResolutionTileService.kt:45-47 | Distinct presets of `common` get distinct tile labels. |
| ToggleShortcut.ExtraInt | app/src/main/java/com/duc1607/resolutionchanger/ToggleShortcutActivity.kt:50-51 | `getInt(key, -1) ?: -1` is the stored `Int` under the key. It is the default when there is no bundle, no such key, or a non-`Int` value. |
| ToggleShortcut.SignatureParts | app/src/main/java/com/duc1607/resolutionchanger/ToggleShortcutActivity.kt:25-29 | The signature is the action (or `(null)`), `\|`, the data (or `(null)`), `\|`, then the extras text. |
| ToggleShortcut.ExtrasSignatureSortsKeys | app/src/main/java/com/duc1607/resolutionchanger/ToggleShortcutActivity.kt:25-28 | A two-key bundle prints as `k1=v1;k2=v2` with the smaller key first, whatever order the keys were inserted in. |
| ToggleShortcut.EmptyBundleIsNotNoBundle | app/src/main/java/com/duc1607/resolutionchanger/ToggleShortcutActivity.kt:25-29 | A missing bundle (`no_extras`) and an empty bundle (empty text) give different signatures. |
| ToggleShortcut.SignatureDeterminesAction | app/src/main/java/com/duc1607/resolutionchanger/ToggleShortcutActivity.kt:29-32 | Equal signatures imply equal action texts, when neither action contains `\|`. |
| ToggleShortcut.SetResolutionNeverDuplicatesView | app/src/main/java/com/duc1607/resolutionchanger/ToggleShortcutActivity.kt:29-49 | A `SET_RESOLUTION` launch is never suppressed as a repeat of an `ACTION_VIEW` launch, whatever the timestamps. |
| ToggleShortcut.DuplicateWindowIsStrict | app/src/main/java/com/duc1607/resolutionchanger/ToggleShortcutActivity.kt:12-32 | A repeat after exactly 750 ms is accepted and one after 749 ms is suppressed. Nothing is a duplicate before any launch was accepted. |
| ToggleShortcut.ShortcutActivity.constructor | app/src/main/java/com/duc1607/resolutionchanger/ToggleShortcutActivity.kt:13-14 | The companion state starts with no signature and timestamp 0. |
| ToggleShortcut.ShortcutActivity.OnCreate | app/src/main/java/com/duc1607/resolutionchanger/ToggleShortcutActivity.kt:17-77 | A duplicate does nothing and leaves both companion fields and the store unchanged. An accepted launch sets the signature and timestamp, then routes by action. `SET_RESOLUTION` dispatches only when both sides are > 0 and never touches the store. `SET_PRESET_INDEX` stores an in-range index and then dispatches that preset, and otherwise changes nothing. Every other action, `ACTION_VIEW` and a missing action included, performs `toggleNext`. |
| EntryForm.Validate | app/src/main/java/com/duc1607/resolutionchanger/MainActivity.kt:497-507 | A resolution is produced iff neither field is in error. It is positive, and its sides are what `toIntOrNull` read from the fields. |
| EntryForm.MainScreen.constructor | app/src/main/java/com/duc1607/resolutionchanger/MainActivity.kt:378-383 | The screen starts with the full catalogue and the dialog closed. |
| EntryForm.MainScreen.OnSave | app/src/main/java/com/duc1607/resolutionchanger/MainActivity.kt:445-447 | Saving appends the resolution at the end, keeps every earlier entry in place and closes the dialog. |
| EntryForm.MainScreen.OnDismiss | app/src/main/java/com/duc1607/resolutionchanger/MainActivity.kt:444 | Dismissing closes the dialog and leaves the list unchanged. |
| EntryForm.CreateResolutionDialog.constructor | app/src/main/java/com/duc1607/resolutionchanger/MainActivity.kt:492-495 | The dialog starts with empty texts and no errors. |
| EntryForm.CreateResolutionDialog.OnWidthChange | app/src/main/java/com/duc1607/resolutionchanger/MainActivity.kt:522-525 | Editing the width replaces its text and clears its error. The height field is untouched. |
| EntryForm.CreateResolutionDialog.OnHeightChange | app/src/main/java/com/duc1607/resolutionchanger/MainActivity.kt:540-543 | Editing the height replaces its text and clears its error. The width field is untouched. |
| EntryForm.CreateResolutionDialog.ValidateAndSave | app/src/main/java/com/duc1607/resolutionchanger/MainActivity.kt:497-507 | Each error flag is set iff its text is unparsable or not positive. The parsed resolution is appended to the screen's list iff both flags are clear. Otherwise the screen is unchanged. |
| EntryForm.PrintedPositiveAccepted | app/src/main/java/com/duc1607/resolutionchanger/MainActivity.kt:497-507 | Typing the digits of a positive resolution into both fields is accepted and yields exactly that resolution. |
| EntryForm.PrintedNonPositiveRejected | app/src/main/java/com/duc1607/resolutionchanger/MainActivity.kt:501-502 | The printed form of any zero or negative `Int` is flagged as an error. |
| EntryForm.ValidateCanonical | app/src/main/java/com/duc1607/resolutionchanger/MainActivity.kt:497-507 | Any accepted pair of texts denotes the same resolution as its canonical decimal printing. |
| EntryForm.BlankOrPaddedRejected | app/src/main/java/com/duc1607/resolutionchanger/MainActivity.kt:498-502 | An empty field, or a field starting with a space, is flagged as an error. |

## Left out

- Reflection and process launches are inputs:
  - `ServiceManager`/`IWindowManager` lookups, `Method.invoke`, `Runtime.exec`, `waitFor` and reading process output are foreign calls.
  - Each attempt's outcome is an input value: it returns normally or not, or the process exits with a code or throws.
  - `getWindowManagerInterface` becomes the `Option<WindowManager>` argument.
- The two probes' lookups, found or not, only log, and nothing else depends on them. Each probe is a failed attempt, whatever its lookup did.
- Logging, `printStackTrace`, the method-listing debug loop (Method 5) and the order of log lines are not modelled.
- The snackbar, `Toast` display, `finish()`, the tile icon and `updateTile()` are left out. The toast is returned as text.
- Jetpack Compose rendering, theming, `ResolutionItem` and the preview are left out, as are the coroutine that dispatches a tapped preset and overlapping taps.
- `getCurrentResolution` (`Display.getRealSize`), the permission checks and `initializeWindowManager` are left out. They only log or read the platform.
- `SharedPreferences` and `SystemClock` are represented by a map in a class and a `now` parameter. File modes, asynchronous `apply` and other value types are left out.
- A `keySet()` that throws during unparcelling is not modelled. Every bundle is taken as readable.
- Extras values other than `Int` are represented by their `toString()` text.
- ToggleShortcut.ShortcutActivity.OnCreate: the timestamp is an unbounded integer, so 64-bit `Long` overflow of `now - lastIntentTimestamp` is not modelled.
- KotlinText.ParseIntOrNull: only ASCII digits are accepted. Kotlin also accepts other Unicode decimal digits.
- KotlinText.Less: characters are compared as code points rather than UTF-16 units. This differs only outside the Basic Multilingual Plane.
- KotlinText.Rem: for a negative dividend the contract gives only the range `(-n, 0]`. The body computes the exact truncated remainder.
- ResolutionControl.ToggleNext and ResolutionTile.ResolutionTileService.OnClick require a non-negative next index. In the app, a stored cursor that gives a negative index faults at `list[nextIndex]`, and the store is not written.
- The descriptive strings passed to the presets' constructors are not part of the model, because the data class does not declare them.
- Behaviour the code does not contain is not modelled: editing which presets the tile cycles through, parsing `preset/{index}` URIs, and clamping the cursor.
