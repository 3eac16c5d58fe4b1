/** ProfileBioSizeCalculator: measures a profile bio by rendering it in a
    hidden web view, and delivers one height through a promise.

    The web view is an external event source: the HTML loads requested are
    the output log `loads` (the bio text each one renders), and its finish
    and failure callbacks are input methods. The promise is the field
    `result`, empty until it is completed. */
module ProfileCalculators {
  import opened Models

  /** The bio a calculation renders: the user's formattedShortBio, when the
      item wraps a user that has one. */
  function BioOf(jsonable: Jsonable): (bio: Option<string>)
    ensures bio.Some? <==> jsonable.UserObject? && jsonable.user.formattedShortBio.Some?
    ensures bio.Some? ==> bio == jsonable.user.formattedShortBio
  {
    match jsonable
    case UserObject(user) => user.formattedShortBio
    case _ => None
  }

  /** The height a finished load reports: the content height (0 when the
      web view has no content size) plus the bio view's vertical margins. */
  function MeasuredHeight(contentHeight: Option<real>, marginTop: real, marginBottom: real): (h: real)
    ensures h - marginTop - marginBottom == (if contentHeight.Some? then contentHeight.value else 0.0)
  {
    contentHeight.GetOr(0.0) + marginTop + marginBottom
  }

  /** A bio with no content still measures at its margins; margins that are
      not negative never make a measurement smaller than the content. */
  lemma MeasuredHeightBounds(contentHeight: Option<real>, marginTop: real, marginBottom: real)
    requires marginTop >= 0.0 && marginBottom >= 0.0
    ensures MeasuredHeight(contentHeight, marginTop, marginBottom) >= contentHeight.GetOr(0.0)
    ensures contentHeight.None? ==> MeasuredHeight(contentHeight, marginTop, marginBottom) == marginTop + marginBottom
  {
  }

  class ProfileBioSizeCalculator {
    /** ProfileBioView.Size.margins.top and .bottom. */
    const marginTop: real
    const marginBottom: real
    var webViewWidth: real
    var delegateSet: bool
    var loads: seq<string>
    var result: Option<real>
    /** Whether calculate has been called; one promise serves one call. */
    ghost var calculated: bool

    ghost predicate Valid()
      reads this
    {
      && (!calculated ==> result.None? && loads == [])
      && |loads| <= 1
      && (|loads| == 1 <==> delegateSet)
    }

    constructor (marginTop: real, marginBottom: real)
      ensures Valid() && !calculated
      ensures this.marginTop == marginTop && this.marginBottom == marginBottom
      ensures webViewWidth == 0.0 && !delegateSet
      ensures loads == [] && result == None
    {
      this.marginTop := marginTop;
      this.marginBottom := marginBottom;
      webViewWidth := 0.0;
      delegateSet := false;
      loads := [];
      result := None;
      calculated := false;
    }

    /** completeWithSuccess: the first completion decides the result. */
    method Complete(height: real)
      modifies this`result
      ensures old(result).None? ==> result == Some(height)
      ensures old(result).Some? ==> result == old(result)
    {
      if result.None? {
        result := Some(height);
      }
    }

    /** calculate: without a bio the result is 0 at once; with one the web
        view is sized to maxWidth and loads it, and the result is pending. */
    method Calculate(item: Jsonable, maxWidth: real)
      requires Valid() && !calculated
      modifies this
      ensures Valid() && calculated
      ensures BioOf(item).None? ==>
        && result == Some(0.0) && loads == []
        && webViewWidth == old(webViewWidth) && delegateSet == old(delegateSet)
      ensures BioOf(item).Some? ==>
        && result == None && loads == [BioOf(item).value]
        && webViewWidth == maxWidth && delegateSet
    {
      calculated := true;
      match BioOf(item)
      case None =>
        Complete(0.0);
      case Some(bio) =>
        webViewWidth := maxWidth;
        delegateSet := true;
        loads := loads + [bio];
    }

    /** webViewDidFinishLoad, given the web view's content height; the web
        view reports to the calculator only once calculate made it the
        delegate and loaded the bio. */
    method WebViewDidFinishLoad(contentHeight: Option<real>)
      requires Valid() && delegateSet
      modifies this`result
      ensures Valid()
      ensures old(result).None? ==> result == Some(MeasuredHeight(contentHeight, marginTop, marginBottom))
      ensures old(result).Some? ==> result == old(result)
    {
      Complete(MeasuredHeight(contentHeight, marginTop, marginBottom));
    }

    /** webView(_:didFailLoadWithError:): the result is 0. */
    method WebViewDidFailLoad()
      requires Valid() && delegateSet
      modifies this`result
      ensures Valid()
      ensures old(result).None? ==> result == Some(0.0)
      ensures old(result).Some? ==> result == old(result)
    {
      Complete(0.0);
    }
  }
}
