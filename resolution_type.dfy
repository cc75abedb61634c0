/** The `Resolution` data class: a width/height pair printed as `WxH`. */
module ResolutionType {
  import opened KotlinText

  /**
   * Equality is structural on the two `Int` fields, as for a Kotlin data
   * class; the preset descriptions of the catalogue are not part of it.
   */
  datatype Resolution = Resolution(width: Int32, height: Int32)
  {
    /** `toString()`: the width, an `x`, the height. */
    function ToString(): (s: string)
    {
      IntToString(width) + "x" + IntToString(height)
    }

    predicate Positive() { width > 0 && height > 0 }
  }

  /** The printed form is the two decimal numbers around a single `x`, with no spaces. */
  lemma ToStringShape(r: Resolution)
    ensures var s := r.ToString();
      exists k :: 0 <= k < |s| && s[k] == 'x'
        && s[..k] == IntToString(r.width) && s[k + 1..] == IntToString(r.height)
        && forall j :: 0 <= j < |s| && j != k ==> s[j] != 'x' && s[j] != ' '
  {
    var s := r.ToString();
    var k := |IntToString(r.width)|;
    assert s[k] == 'x' && s[..k] == IntToString(r.width) && s[k + 1..] == IntToString(r.height);
  }

  /** Two resolutions with the same printed form are the same resolution. */
  lemma {:induction false} ToStringInjective(r1: Resolution, r2: Resolution)
    requires r1.ToString() == r2.ToString()
    ensures r1 == r2
  {
    var w1, h1 := IntToString(r1.width), IntToString(r1.height);
    var w2, h2 := IntToString(r2.width), IntToString(r2.height);
    assert w1 + ['x'] + h1 == r1.ToString();
    assert w2 + ['x'] + h2 == r2.ToString();
    SplitAtFirst(w1, h1, w2, h2, 'x');
    IntToStringInjective(r1.width, r2.width);
    IntToStringInjective(r1.height, r2.height);
  }
}
