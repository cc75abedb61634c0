/**
 * `ResolutionTileService`: the Quick Settings tile. A click advances the same
 * persisted cursor as `ResolutionControl`, relabels the tile with the new
 * preset and applies it, showing a toast only when that fails.
 */
module ResolutionTile {
  import opened Wrappers
  import opened KotlinText
  import opened ResolutionType
  import opened DefaultResolutions
  import opened Dispatcher
  import opened PreferenceStore
  import ResolutionControl

  datatype TileState = Unavailable | Inactive | Active

  /** The fields of the framework's `Tile` that the service writes (`tileLabel` is the tile's `label`). */
  class Tile {
    var tileLabel: string
    var state: TileState

    constructor (tileLabel: string, state: TileState)
      ensures this.tileLabel == tileLabel && this.state == state
    {
      this.tileLabel := tileLabel;
      this.state := state;
    }
  }

  class ResolutionTileService {
    const resolutions: seq<Resolution> := Common()
    const prefs: SharedPreferences
    /** The framework's `qsTile`; null while the tile is not bound. */
    var qsTile: Tile?

    constructor (prefs: SharedPreferences, qsTile: Tile?)
      ensures this.prefs == prefs && this.qsTile == qsTile
    {
      this.prefs := prefs;
      this.qsTile := qsTile;
    }

    /** The `currentIndex` property reads the same file and key as `ResolutionControl`: one shared cursor. */
    function CurrentIndex(): (i: Int32)
      reads this, prefs
      ensures i == ResolutionControl.CurrentIndex(prefs)
    {
      prefs.GetInt(PrefKey("resolution_tile_prefs", "current_index"), 0)
    }

    /** The setter of `currentIndex`. */
    method SetCurrentIndex(value: Int32)
      modifies prefs
      ensures prefs.ints == old(prefs.ints)[ResolutionControl.CursorKey := value]
      ensures CurrentIndex() == value
    {
      prefs.PutInt(PrefKey("resolution_tile_prefs", "current_index"), value);
    }

    /**
     * `updateTileLabel`: nothing without a tile; otherwise the label becomes
     * the `WxH` of the preset under the cursor and the tile turns active. The
     * cursor is used as an index unchecked, so it must lie inside the list.
     */
    method UpdateTileLabel()
      requires qsTile != null ==> 0 <= CurrentIndex() < |resolutions|
      modifies qsTile
      ensures qsTile != null ==>
        qsTile.tileLabel == resolutions[CurrentIndex()].ToString() && qsTile.state == Active
    {
      var tile := qsTile;
      if tile == null {
        return;
      }
      var resolution := resolutions[CurrentIndex()];
      tile.tileLabel := IntToString(resolution.width) + "x" + IntToString(resolution.height);
      tile.state := Active;
    }

    method OnStartListening()
      requires qsTile != null ==> 0 <= CurrentIndex() < |resolutions|
      modifies qsTile
      ensures qsTile != null ==>
        qsTile.tileLabel == resolutions[CurrentIndex()].ToString() && qsTile.state == Active
    {
      UpdateTileLabel();
    }

    /**
     * `onClick`: store `(current + 1) % size`, relabel the tile with that
     * preset, dispatch it, and return the toast text when the dispatch fails.
     */
    method OnClick(wm: Option<WindowManager>, shell: Shell) returns (toast: Option<string>)
      requires ResolutionControl.NextIndex(CurrentIndex(), |resolutions|) >= 0
      modifies prefs, qsTile
      ensures var next := ResolutionControl.NextIndex(old(CurrentIndex()), |resolutions|);
        && prefs.ints == old(prefs.ints)[ResolutionControl.CursorKey := next]
        && (qsTile != null ==> qsTile.tileLabel == resolutions[next].ToString() && qsTile.state == Active)
        && var r := Dispatch(wm, shell, resolutions[next].width, resolutions[next].height);
           toast == if r.success then None else Some(r.message)
    {
      var nextIndex := ResolutionControl.NextIndex(CurrentIndex(), |resolutions|);
      var resolution := resolutions[nextIndex];
      SetCurrentIndex(nextIndex);
      UpdateTileLabel();
      var success, message, tried := ChangeResolution(wm, shell, resolution.width, resolution.height);
      toast := if success then None else Some(message);
    }
  }

  /** Distinct presets of `common` get distinct tile labels: equal labels mean the same index. */
  lemma TileLabelsIdentifyPresets(i: nat, j: nat)
    requires i < |Common()| && j < |Common()|
    requires Common()[i].ToString() == Common()[j].ToString()
    ensures i == j
  {
    ToStringInjective(Common()[i], Common()[j]);
  }
}
