/**
 * `ToggleShortcutActivity`: the entry point for shortcuts and external
 * intents. It drops a launch identical to the previous one within 750 ms and
 * otherwise routes by action. The two fields of its companion object are the
 * fields of the single `ShortcutActivity` object here; the clock is a parameter.
 */
module ToggleShortcut {
  import opened Wrappers
  import opened KotlinText
  import opened Dispatcher
  import opened PreferenceStore
  import ResolutionControl

  const MinDupIntervalMs := 750
  const ActionView := "android.intent.action.VIEW"
  const ActionPrefix := "com.duc1607.resolutionchanger.action."
  const ActionSetResolution := ActionPrefix + "SET_RESOLUTION"
  const ActionSetPresetIndex := ActionPrefix + "SET_PRESET_INDEX"
  const NullText := "(null)"
  const NoExtras := "no_extras"

  /** A value in the intent's extras bundle: an `Int`, or any other value through its `toString()`. */
  datatype ExtraValue = IntExtra(value: Int32) | OtherExtra(rendered: string)

  /** The parts of the launching intent that the activity reads; `data` is the URI's string form. */
  datatype Intent = Intent(action: Option<string>, data: Option<string>, extras: Option<map<string, ExtraValue>>)

  /** What a launch did; the dispatcher's pair, which the activity discards, is kept for stating properties. */
  datatype Launch =
    | Suppressed
    | Toggled(toggle: Report)
    | AppliedSize(width: Int32, height: Int32, report: Report)
    | AppliedPreset(index: nat, report: Report)
    | Ignored

  /** `"${it.get(k)}"`. */
  function Render(v: ExtraValue): string
  {
    match v
    case IntExtra(i) => IntToString(i)
    case OtherExtra(text) => text
  }

  /** `k=v` for every key in sorted order, joined by `;`; `no_extras` when there is no bundle. */
  function ExtrasSignature(extras: Option<map<string, ExtraValue>>): (s: string)
  {
    match extras
    case None => NoExtras
    case Some(bundle) =>
      var keys := SortedKeys(bundle.Keys);
      Join(seq(|keys|, i requires 0 <= i < |keys| => keys[i] + "=" + Render(bundle[keys[i]])), ";")
  }

  /** The launch signature `action|data|extras`, with `(null)` for a missing action or URI. */
  function Signature(intent: Intent): string
  {
    Join([intent.action.GetOr(NullText), intent.data.GetOr(NullText), ExtrasSignature(intent.extras)], "|")
  }

  /** `extras?.getInt(key, default) ?: default`: only an `Int` value under the key counts. */
  function ExtraInt(extras: Option<map<string, ExtraValue>>, key: string, default: Int32): (v: Int32)
    ensures extras.Some? && key in extras.value && extras.value[key].IntExtra? ==> v == extras.value[key].value
    ensures extras.None? || key !in extras.value || !extras.value[key].IntExtra? ==> v == default
  {
    if extras.Some? && key in extras.value && extras.value[key].IntExtra? then extras.value[key].value else default
  }

  /** A launch is a duplicate when its signature equals the last accepted one and less than 750 ms have passed. */
  predicate IsDuplicate(lastSignature: Option<string>, lastTimestamp: int, signature: string, now: int)
  {
    lastSignature == Some(signature) && now - lastTimestamp < MinDupIntervalMs
  }

  /** Actions other than the two explicit ones, `ACTION_VIEW` and a missing action included, advance the cursor. */
  predicate RoutesToToggle(action: Option<string>)
  {
    action != Some(ActionSetResolution) && action != Some(ActionSetPresetIndex)
  }

  class ShortcutActivity {
    var lastIntentSignature: Option<string>
    var lastIntentTimestamp: int

    constructor ()
      ensures lastIntentSignature == None && lastIntentTimestamp == 0
    {
      lastIntentSignature := None;
      lastIntentTimestamp := 0;
    }

    /** `onCreate` of one launch at clock reading `now`. */
    method OnCreate(intent: Intent, now: int, prefs: SharedPreferences, wm: Option<WindowManager>, shell: Shell)
      returns (launch: Launch)
      requires !IsDuplicate(lastIntentSignature, lastIntentTimestamp, Signature(intent), now)
        && RoutesToToggle(intent.action)
        ==> ResolutionControl.NextIndex(ResolutionControl.CurrentIndex(prefs), |ResolutionControl.Resolutions()|) >= 0
      modifies this, prefs
      ensures IsDuplicate(old(lastIntentSignature), old(lastIntentTimestamp), Signature(intent), now) ==>
        && launch == Suppressed
        && lastIntentSignature == old(lastIntentSignature) && lastIntentTimestamp == old(lastIntentTimestamp)
        && prefs.ints == old(prefs.ints)
      ensures !IsDuplicate(old(lastIntentSignature), old(lastIntentTimestamp), Signature(intent), now) ==>
        && lastIntentSignature == Some(Signature(intent)) && lastIntentTimestamp == now
        && Routed(intent, old(prefs.ints), prefs.ints, wm, shell, launch)
    {
      var signature := Signature(intent);
      if lastIntentSignature == Some(signature) && now - lastIntentTimestamp < MinDupIntervalMs {
        return Suppressed;
      }
      lastIntentSignature := Some(signature);
      lastIntentTimestamp := now;

      if intent.action == Some(ActionSetResolution) {
        var width := ExtraInt(intent.extras, "width", -1);
        var height := ExtraInt(intent.extras, "height", -1);
        if width > 0 && height > 0 {
          var success, message, tried := ChangeResolution(wm, shell, width, height);
          launch := AppliedSize(width, height, Report(success, message));
        } else {
          launch := Ignored;
        }
      } else if intent.action == Some(ActionSetPresetIndex) {
        var index := ExtraInt(intent.extras, "index", -1);
        var list := ResolutionControl.Resolutions();
        if 0 <= index < |list| {
          var res := list[index];
          ResolutionControl.SetCurrentIndex(prefs, index);
          var success, message, tried := ChangeResolution(wm, shell, res.width, res.height);
          launch := AppliedPreset(index, Report(success, message));
        } else {
          launch := Ignored;
        }
      } else {
        var success, message := ResolutionControl.ToggleNext(prefs, ResolutionControl.Resolutions(), wm, shell);
        launch := Toggled(Report(success, message));
      }
    }
  }

  /** What an accepted launch does, by action. */
  ghost predicate Routed(intent: Intent, before: map<PrefKey, Int32>, after: map<PrefKey, Int32>,
                         wm: Option<WindowManager>, shell: Shell, launch: Launch)
  {
    var list := ResolutionControl.Resolutions();
    if intent.action == Some(ActionSetResolution) then
      var width := ExtraInt(intent.extras, "width", -1);
      var height := ExtraInt(intent.extras, "height", -1);
      && after == before
      && launch == if width > 0 && height > 0 then AppliedSize(width, height, Dispatch(wm, shell, width, height)) else Ignored
    else if intent.action == Some(ActionSetPresetIndex) then
      var index := ExtraInt(intent.extras, "index", -1);
      if 0 <= index < |list| then
        && after == before[ResolutionControl.CursorKey := index]
        && launch == AppliedPreset(index, Dispatch(wm, shell, list[index].width, list[index].height))
      else
        after == before && launch == Ignored
    else
      var current := if ResolutionControl.CursorKey in before then before[ResolutionControl.CursorKey] else 0;
      var next := ResolutionControl.NextIndex(current, |list|);
      && 0 <= next < |list|
      && after == before[ResolutionControl.CursorKey := next]
      && launch == Toggled(Dispatch(wm, shell, list[next].width, list[next].height))
  }

  /** The signature is the action text, `|`, the data text, `|`, the extras text. */
  lemma SignatureParts(intent: Intent)
    ensures Signature(intent) == intent.action.GetOr(NullText) + ['|']
      + (intent.data.GetOr(NullText) + ['|'] + ExtrasSignature(intent.extras))
  {
    var a, d, e := intent.action.GetOr(NullText), intent.data.GetOr(NullText), ExtrasSignature(intent.extras);
    assert [a, d, e][1..] == [d, e];
    assert [d, e][1..] == [e];
    assert Join([d, e], "|") == d + "|" + e;
  }

  /** Launches whose action texts differ (and hold no `|`) never share a signature, so neither suppresses the other. */
  lemma {:induction false} SignatureDeterminesAction(i1: Intent, i2: Intent)
    requires '|' !in i1.action.GetOr(NullText) && '|' !in i2.action.GetOr(NullText)
    requires Signature(i1) == Signature(i2)
    ensures i1.action.GetOr(NullText) == i2.action.GetOr(NullText)
  {
    SignatureParts(i1);
    SignatureParts(i2);
    SplitAtFirst(i1.action.GetOr(NullText), i1.data.GetOr(NullText) + ['|'] + ExtrasSignature(i1.extras),
                 i2.action.GetOr(NullText), i2.data.GetOr(NullText) + ['|'] + ExtrasSignature(i2.extras), '|');
  }

  /** A shortcut that sets a size is never taken for a repeat of a view launch, whatever the clock says. */
  lemma SetResolutionNeverDuplicatesView(i1: Intent, i2: Intent, lastTimestamp: int, now: int)
    requires i1.action == Some(ActionSetResolution) && i2.action == Some(ActionView)
    ensures !IsDuplicate(Some(Signature(i2)), lastTimestamp, Signature(i1), now)
  {
    assert '|' !in ActionPrefix && '|' !in "SET_RESOLUTION" && '|' !in ActionView;
    assert |ActionSetResolution| != |ActionView|;
    if Signature(i1) == Signature(i2) {
      SignatureDeterminesAction(i1, i2);
    }
  }

  /** A bundle of two keys is printed smaller key first, whatever order the map was built in. */
  lemma {:induction false} ExtrasSignatureSortsKeys(k1: string, v1: ExtraValue, k2: string, v2: ExtraValue)
    requires Less(k1, k2)
    ensures ExtrasSignature(Some(map[k2 := v2, k1 := v1])) == k1 + "=" + Render(v1) + ";" + (k2 + "=" + Render(v2))
  {
    LessIrreflexive(k1);
    var bundle := map[k2 := v2, k1 := v1];
    var keys := SortedKeys(bundle.Keys);
    assert bundle.Keys == {k1, k2};
    assert |keys| == 2;
    if keys[0] != k1 {
      assert keys[0] == k2 && keys[1] == k1;
      LessAsymmetric(k1, k2);
      assert false;
    }
    assert keys == [k1, k2];
    var parts := seq(|keys|, i requires 0 <= i < |keys| => keys[i] + "=" + Render(bundle[keys[i]]));
    assert parts == [k1 + "=" + Render(v1), k2 + "=" + Render(v2)];
    assert parts[1..] == [k2 + "=" + Render(v2)];
    assert Join(parts[1..], ";") == k2 + "=" + Render(v2);
    assert ExtrasSignature(Some(bundle)) == Join(parts, ";");
  }

  /** A missing bundle and an empty bundle give different signatures: `no_extras` against an empty text. */
  lemma EmptyBundleIsNotNoBundle(action: Option<string>, data: Option<string>)
    ensures Signature(Intent(action, data, None)) != Signature(Intent(action, data, Some(map[])))
  {
    SignatureParts(Intent(action, data, None));
    SignatureParts(Intent(action, data, Some(map[])));
    assert ExtrasSignature(Some(map[])) == "";
  }

  /** The window is strict: a repeat after exactly 750 ms is accepted, one after 749 ms is not. */
  lemma DuplicateWindowIsStrict(signature: string, lastTimestamp: int)
    ensures !IsDuplicate(Some(signature), lastTimestamp, signature, lastTimestamp + MinDupIntervalMs)
    ensures IsDuplicate(Some(signature), lastTimestamp, signature, lastTimestamp + MinDupIntervalMs - 1)
    ensures !IsDuplicate(None, lastTimestamp, signature, lastTimestamp)
  {
  }
}
