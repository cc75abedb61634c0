/**
 * `ResolutionControl`: the preset cursor shared by the shortcut and the tile,
 * persisted under one preference key, and `toggleNext`, which advances it and
 * applies the preset it lands on.
 */
module ResolutionControl {
  import opened KotlinText
  import opened ResolutionType
  import opened DefaultResolutions
  import opened Dispatcher
  import opened PreferenceStore

  const PrefsName := "resolution_tile_prefs"
  const KeyIndex := "current_index"
  const CursorKey := PrefKey(PrefsName, KeyIndex)
  const NoResolutions := "No resolutions configured"

  /** `resolutions()`: the list the cursor indexes. */
  function Resolutions(): (r: seq<Resolution>)
    ensures 0 < |r| <= MaxInt
    ensures r == Common()
  {
    Common()
  }

  /** `getCurrentIndex`: the stored cursor, 0 when nothing is stored yet. */
  function CurrentIndex(prefs: SharedPreferences): (i: Int32)
    reads prefs
    ensures CursorKey !in prefs.ints ==> i == 0
    ensures CursorKey in prefs.ints ==> i == prefs.ints[CursorKey]
  {
    prefs.GetInt(CursorKey, 0)
  }

  /** `setCurrentIndex`: stores the cursor; nothing else in the store changes. */
  method SetCurrentIndex(prefs: SharedPreferences, index: Int32)
    modifies prefs
    ensures prefs.ints == old(prefs.ints)[CursorKey := index]
    ensures CurrentIndex(prefs) == index
  {
    prefs.PutInt(CursorKey, index);
  }

  /**
   * `(current + 1) % size` with `Int` arithmetic: the addition wraps and the
   * remainder truncates, so a cursor below -1 can give a negative index.
   */
  function NextIndex(current: Int32, size: int): (r: int)
    requires 0 < size <= MaxInt
    ensures -size < r < size
    ensures 0 <= current < MaxInt ==> r == (current + 1) % size && 0 <= r < size
  {
    Rem(Inc(current), size)
  }

  /** From any cursor in `-1 .. size - 1` the next index is the cyclic successor. */
  lemma NextIndexInRange(current: Int32, size: int)
    requires 0 < size <= MaxInt
    requires -1 <= current < size
    ensures NextIndex(current, size) == if current + 1 == size then 0 else current + 1
  {
    assert Inc(current) == current + 1;
    RemUpToDivisor(current + 1, size);
  }

  /** A stored cursor of -2 makes the next index -1 for a list longer than one entry: `list[nextIndex]` faults. */
  lemma MinusTwoGivesNegativeIndex(size: int)
    requires 1 < size <= MaxInt
    ensures NextIndex(-2, size) == -1
  {
  }

  /**
   * A stored cursor of `Int.MAX_VALUE` wraps to `Int.MIN_VALUE` on `+ 1`: with
   * three presets the next index is -2, with the two shipped presets it is 0.
   */
  lemma {:induction false} MaxIntCursorWraps()
    ensures NextIndex(MaxInt, 3) == -2
    ensures NextIndex(MaxInt, 2) == 0
  {
    ModUnique(0x8000_0000, 3, 0x2aaa_aaaa, 2);
    ModUnique(0x8000_0000, 2, 0x4000_0000, 0);
  }

  /** The cursor after `k` advances from `start`. */
  function Advance(start: int, size: int, k: nat): (i: int)
    requires 0 < size <= MaxInt && 0 <= start < size
    ensures 0 <= i < size
    decreases k
  {
    if k == 0 then start
    else
      NextIndexInRange(start, size);
      Advance(NextIndex(start, size), size, k - 1)
  }

  lemma {:induction false} AdvanceCompose(start: int, size: int, a: nat, b: nat)
    requires 0 < size <= MaxInt && 0 <= start < size
    ensures Advance(start, size, a + b) == Advance(Advance(start, size, a), size, b)
    decreases a
  {
    if a > 0 {
      NextIndexInRange(start, size);
      AdvanceCompose(NextIndex(start, size), size, a - 1, b);
    }
  }

  /** Below the end of the list, advancing `k` times moves the cursor `k` places. */
  lemma {:induction false} AdvanceWithoutWrap(start: int, size: int, k: nat)
    requires 0 < size <= MaxInt && 0 <= start && start + k < size
    ensures Advance(start, size, k) == start + k
    decreases k
  {
    if k > 0 {
      NextIndexInRange(start, size);
      AdvanceWithoutWrap(start + 1, size, k - 1);
    }
  }

  /** Advancing `size` times from a valid cursor comes back to it. */
  lemma AdvanceFullCycle(start: int, size: int)
    requires 0 < size <= MaxInt && 0 <= start < size
    ensures Advance(start, size, size) == start
  {
    var toLast := size - 1 - start;
    AdvanceCompose(start, size, toLast, start + 1);
    AdvanceWithoutWrap(start, size, toLast);
    AdvanceCompose(size - 1, size, 1, start);
    NextIndexInRange(size - 1, size);
    AdvanceWithoutWrap(0, size, start);
  }

  /**
   * `toggleNext`: on an empty list report failure and leave the cursor alone;
   * otherwise store the next index, then dispatch that preset and return the
   * dispatcher's pair unchanged. The callers pass `Resolutions()`.
   */
  method ToggleNext(prefs: SharedPreferences, list: seq<Resolution>, wm: Wrappers.Option<WindowManager>, shell: Shell)
    returns (success: bool, message: string)
    requires |list| <= MaxInt
    requires |list| > 0 ==> NextIndex(CurrentIndex(prefs), |list|) >= 0
    modifies prefs
    ensures |list| == 0 ==> !success && message == NoResolutions && prefs.ints == old(prefs.ints)
    ensures |list| > 0 ==>
      var next := NextIndex(old(CurrentIndex(prefs)), |list|);
      && prefs.ints == old(prefs.ints)[CursorKey := next]
      && Report(success, message) == Dispatch(wm, shell, list[next].width, list[next].height)
  {
    if |list| == 0 {
      return false, NoResolutions;
    }
    var nextIndex := NextIndex(CurrentIndex(prefs), |list|);
    var res := list[nextIndex];
    SetCurrentIndex(prefs, nextIndex);
    var tried;
    success, message, tried := ChangeResolution(wm, shell, res.width, res.height);
  }
}
