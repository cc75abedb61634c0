/**
 * The shipped preset catalogues. The constructor calls in the catalogue pass a
 * third, descriptive string that the `Resolution` data class does not declare;
 * only width and height are kept here.
 */
module DefaultResolutions {
  import opened ResolutionType

  /** The full catalogue shown on the main screen, in display order. */
  function All(): (r: seq<Resolution>)
    ensures |r| == 5
    ensures forall i :: 0 <= i < |r| ==> r[i].Positive()
    ensures forall i, j :: 0 <= i < j < |r| ==> r[i] != r[j]
  {
    [ Resolution(720, 720),    // 1:1
      Resolution(780, 780),    // 1:1
      Resolution(720, 960),    // 3:4
      Resolution(720, 1080),   // 2:3
      Resolution(720, 1440) ]  // 1:2
  }

  /** The subset the tile and the shortcut cycle through; 720x1080 is commented out in the source. */
  function Common(): (r: seq<Resolution>)
    ensures |r| > 0
    ensures forall i :: 0 <= i < |r| ==> r[i].Positive() && r[i] in All()
    ensures forall i, j :: 0 <= i < j < |r| ==> r[i] != r[j]
    ensures Resolution(720, 1080) !in r
  {
    [ Resolution(720, 720),
      Resolution(720, 960) ]
  }

  /** `common` keeps the catalogue's relative order: 720x720 before 720x960, as in `all`. */
  lemma CommonFollowsCatalogueOrder()
    ensures |Common()| == 2
    ensures Common()[0] == All()[0] && Common()[1] == All()[2]
  {
  }
}
