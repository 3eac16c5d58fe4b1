/** ProfileHeaderCompactView: the compact profile header. Its avatar, names,
    total count, stats, bio and links views are stacked top to bottom; the
    names, bio and links views are as tall as their height constraints, and
    setting `calculatedCellHeights` moves those constraints and shows or
    hides the gray lines under the stats and the bio. */
module ProfileViews {
  import opened Models

  /** The measured heights of the header's variable sections. */
  datatype CalculatedCellHeights = CalculatedCellHeights(
    profileNames: Option<real>, profileBio: Option<real>, profileLinks: Option<real>)

  /** `height > 0` on an optional height: a missing height is less than
      every number, so it is never positive. */
  predicate OptionalGreaterThanZero(height: Option<real>) {
    match height
    case None => false
    case Some(h) => h > 0.0
  }

  /** The stats view's gray line: shown when the bio or the links have content. */
  predicate StatsGrayLineVisible(heights: CalculatedCellHeights) {
    OptionalGreaterThanZero(heights.profileBio) || OptionalGreaterThanZero(heights.profileLinks)
  }

  /** The bio view's gray line: shown when the links have content. */
  predicate BioGrayLineVisible(heights: CalculatedCellHeights) {
    OptionalGreaterThanZero(heights.profileLinks)
  }

  /** Each gray line is shown exactly when a height below it is present and
      positive; missing heights never show one. */
  lemma GrayLinesFollowContent(heights: CalculatedCellHeights)
    ensures StatsGrayLineVisible(heights) <==>
      (exists h :: h > 0.0 && (heights.profileBio == Some(h) || heights.profileLinks == Some(h)))
    ensures BioGrayLineVisible(heights) <==> (exists h :: h > 0.0 && heights.profileLinks == Some(h))
  {
    if OptionalGreaterThanZero(heights.profileBio) {
      assert heights.profileBio == Some(heights.profileBio.value);
    }
    if OptionalGreaterThanZero(heights.profileLinks) {
      assert heights.profileLinks == Some(heights.profileLinks.value);
    }
  }

  /** The constraint a present height sets, or the previous offset. */
  function Updated(offset: real, height: Option<real>): (r: real)
    ensures height.None? ==> r == offset
    ensures height.Some? ==> r == height.value
  {
    height.GetOr(offset)
  }

  class ProfileHeaderCompactView {
    /** ProfileAvatarView, ProfileTotalCountView and ProfileStatsView Size.height. */
    const avatarHeight: real
    const totalCountHeight: real
    const statsHeight: real
    var namesHeight: real
    var bioHeight: real
    var linksHeight: real
    var statsGrayLine: bool
    var bioGrayLine: bool
    var needsLayout: bool
    var calculatedCellHeights: Option<CalculatedCellHeights>

    /** arrange: the names, bio and links heights start at 0, the others
        at their views' fixed heights. */
    constructor (avatarHeight: real, totalCountHeight: real, statsHeight: real,
                 statsGrayLine: bool, bioGrayLine: bool)
      ensures this.avatarHeight == avatarHeight && this.totalCountHeight == totalCountHeight
      ensures this.statsHeight == statsHeight
      ensures namesHeight == 0.0 && bioHeight == 0.0 && linksHeight == 0.0
      ensures this.statsGrayLine == statsGrayLine && this.bioGrayLine == bioGrayLine
      ensures !needsLayout && calculatedCellHeights == None
    {
      this.avatarHeight := avatarHeight;
      this.totalCountHeight := totalCountHeight;
      this.statsHeight := statsHeight;
      namesHeight, bioHeight, linksHeight := 0.0, 0.0, 0.0;
      this.statsGrayLine := statsGrayLine;
      this.bioGrayLine := bioGrayLine;
      needsLayout := false;
      calculatedCellHeights := None;
    }

    /** Setting calculatedCellHeights, with its didSet. */
    method SetCalculatedCellHeights(heights: Option<CalculatedCellHeights>)
      modifies this`calculatedCellHeights, this`namesHeight, this`bioHeight, this`linksHeight,
               this`statsGrayLine, this`bioGrayLine, this`needsLayout
      ensures calculatedCellHeights == heights
      ensures heights.None? ==>
        && namesHeight == old(namesHeight) && bioHeight == old(bioHeight) && linksHeight == old(linksHeight)
        && statsGrayLine == old(statsGrayLine) && bioGrayLine == old(bioGrayLine)
        && needsLayout == old(needsLayout)
      ensures heights.Some? ==>
        && namesHeight == Updated(old(namesHeight), heights.value.profileNames)
        && bioHeight == Updated(old(bioHeight), heights.value.profileBio)
        && linksHeight == Updated(old(linksHeight), heights.value.profileLinks)
        && statsGrayLine == StatsGrayLineVisible(heights.value)
        && bioGrayLine == BioGrayLineVisible(heights.value)
        && needsLayout
    {
      calculatedCellHeights := heights;
      match heights
      case None =>
      case Some(h) =>
        if h.profileNames.Some? { namesHeight := h.profileNames.value; }
        if h.profileBio.Some? { bioHeight := h.profileBio.value; }
        if h.profileLinks.Some? { linksHeight := h.profileLinks.value; }
        statsGrayLine := StatsGrayLineVisible(h);
        bioGrayLine := BioGrayLineVisible(h);
        needsLayout := true;
    }
  }
}
