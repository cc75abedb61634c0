/**
 * The main screen's preset list and the "Add Resolution" dialog: the two
 * text fields, their error flags, and the append of a validated entry.
 */
module EntryForm {
  import opened Wrappers
  import opened KotlinText
  import opened ResolutionType
  import opened DefaultResolutions

  /** A field is in error when its text is not an `Int` or is not positive. */
  predicate DimensionError(text: string)
  {
    match ParseIntOrNull(text)
    case None => true
    case Some(n) => n <= 0
  }

  /** The resolution a pair of field texts denotes, when neither field is in error. */
  function Validate(widthText: string, heightText: string): (r: Option<Resolution>)
    ensures r.Some? <==> !DimensionError(widthText) && !DimensionError(heightText)
    ensures r.Some? ==>
      && r.value.Positive()
      && ParseIntOrNull(widthText) == Some(r.value.width)
      && ParseIntOrNull(heightText) == Some(r.value.height)
  {
    match (ParseIntOrNull(widthText), ParseIntOrNull(heightText))
    case (Some(w), Some(h)) => if w > 0 && h > 0 then Some(Resolution(w, h)) else None
    case _ => None
  }

  /** The list shown by `MainScreen` and whether the dialog is open. */
  class MainScreen {
    var resolutions: seq<Resolution>
    var showDialog: bool

    constructor ()
      ensures resolutions == All() && !showDialog
    {
      resolutions := All();
      showDialog := false;
    }

    /** `onSave`: append the new entry at the end and close the dialog. */
    method OnSave(r: Resolution)
      modifies this
      ensures resolutions == old(resolutions) + [r]
      ensures |resolutions| == |old(resolutions)| + 1 && resolutions[..|old(resolutions)|] == old(resolutions)
      ensures !showDialog
    {
      resolutions := resolutions + [r];
      showDialog := false;
    }

    /** `onDismiss`: close the dialog, keep the list. */
    method OnDismiss()
      modifies this
      ensures resolutions == old(resolutions) && !showDialog
    {
      showDialog := false;
    }
  }

  /** The state of one `CreateResolutionDialog`. */
  class CreateResolutionDialog {
    var widthText: string
    var heightText: string
    var widthError: bool
    var heightError: bool

    constructor ()
      ensures widthText == "" && heightText == "" && !widthError && !heightError
    {
      widthText, heightText := "", "";
      widthError, heightError := false, false;
    }

    /** Editing the width field replaces its text and clears its error only. */
    method OnWidthChange(text: string)
      modifies this
      ensures widthText == text && !widthError
      ensures heightText == old(heightText) && heightError == old(heightError)
    {
      widthText := text;
      widthError := false;
    }

    /** Editing the height field replaces its text and clears its error only. */
    method OnHeightChange(text: string)
      modifies this
      ensures heightText == text && !heightError
      ensures widthText == old(widthText) && widthError == old(widthError)
    {
      heightText := text;
      heightError := false;
    }

    /**
     * `validateAndSave`: set both error flags from the current texts, and hand
     * the parsed resolution to `onSave` exactly when neither is in error.
     */
    method ValidateAndSave(screen: MainScreen)
      modifies this, screen
      ensures widthText == old(widthText) && heightText == old(heightText)
      ensures widthError == DimensionError(widthText) && heightError == DimensionError(heightText)
      ensures !widthError && !heightError ==>
        && screen.resolutions == old(screen.resolutions) + [Validate(widthText, heightText).value]
        && !screen.showDialog
      ensures widthError || heightError ==>
        screen.resolutions == old(screen.resolutions) && screen.showDialog == old(screen.showDialog)
    {
      var width := ParseIntOrNull(widthText);
      var height := ParseIntOrNull(heightText);
      widthError := width.None? || width.value <= 0;
      heightError := height.None? || height.value <= 0;
      if !widthError && !heightError && width.Some? && height.Some? {
        screen.OnSave(Resolution(width.value, height.value));
      }
    }
  }

  /** Typing the digits of a positive size into both fields is accepted and yields that size. */
  lemma {:induction false} PrintedPositiveAccepted(r: Resolution)
    requires r.Positive()
    ensures Validate(IntToString(r.width), IntToString(r.height)) == Some(r)
  {
    ParseIntToString(r.width);
    ParseIntToString(r.height);
  }

  /** The printed form of a zero or negative `Int` is always rejected. */
  lemma {:induction false} PrintedNonPositiveRejected(n: Int32)
    requires n <= 0
    ensures DimensionError(IntToString(n))
  {
    ParseIntToString(n);
  }

  /** Every accepted pair of texts denotes the same resolution as its canonical printed form. */
  lemma {:induction false} ValidateCanonical(widthText: string, heightText: string)
    requires Validate(widthText, heightText).Some?
    ensures Validate(IntToString(Validate(widthText, heightText).value.width),
                     IntToString(Validate(widthText, heightText).value.height))
      == Validate(widthText, heightText)
  {
    PrintedPositiveAccepted(Validate(widthText, heightText).value);
  }

  /** Empty text, and text with a leading space, is never a valid dimension. */
  lemma BlankOrPaddedRejected(text: string)
    ensures DimensionError("")
    ensures DimensionError(" " + text)
  {
    assert (" " + text)[0] == ' ';
  }
}
