/**
 * Guides shown while a street segment is resized: a "min" guide at the
 * variant's recommended minimum width and a "max" guide at the widest the
 * segment may become, limited by the street's remaining width.
 *
 * Widths are in the street's width units.  The tile size and the smallest
 * segment width are constants of the segments package, passed in here.
 */
module ResizeGuides {
  import opened Wrappers

  /** The recommended widths of a segment variant; `None` when the variant gives none. */
  datatype VariantInfo = VariantInfo(minWidth: Option<real>, maxWidth: Option<real>)

  datatype Segment = Segment(segmentType: string, variantString: string, width: real)

  datatype Props = Props(isResizing: bool, activeSegment: Option<real>, segment: Option<Segment>,
                         remainingWidth: real)

  /** The guides to draw, each given by its width. */
  datatype Guides = Guides(minGuide: Option<real>, maxGuide: Option<real>)

  /** A guide's inline style, in pixels. */
  datatype GuideStyle = GuideStyle(width: real, marginLeft: real)

  /** A number-or-undefined is truthy when defined and nonzero. */
  predicate Truthy(w: Option<real>) { w.Some? && w.value != 0.0 }

  /** The width the segment could grow to: what remains on the street plus its own width. */
  function EffectiveRemaining(remainingWidth: real, segment: Segment): real {
    remainingWidth + segment.width
  }

  /**
   * Whether the max guide sits at the remaining width.  Comparisons with an
   * undefined width are false, so with no `minWidth` only the
   * `MIN_SEGMENT_WIDTH` comparison can hold.
   */
  predicate UseRemainingWidth(remaining: real, info: VariantInfo, minSegmentWidth: real) {
    remaining != 0.0 &&
    ((!Truthy(info.minWidth) && remaining >= minSegmentWidth) ||
     (info.minWidth.Some? && remaining >= info.minWidth.value)) &&
    (!Truthy(info.maxWidth) || (info.maxWidth.Some? && remaining <= info.maxWidth.value))
  }

  function MaxGuide(remaining: real, info: VariantInfo, minSegmentWidth: real): Option<real> {
    if UseRemainingWidth(remaining, info, minSegmentWidth) then Some(remaining)
    else if Truthy(info.maxWidth) then Some(info.maxWidth.value)
    else None
  }

  /** The guides `render` draws, or `None` when it renders nothing. */
  function SelectGuides(props: Props, variantInfo: (string, string) -> VariantInfo,
                        minSegmentWidth: real): (r: Option<Guides>)
    ensures r.None? <==> !props.isResizing || props.segment.None?
  {
    if !props.isResizing || props.segment.None? then None
    else
      var segment := props.segment.value;
      var info := variantInfo(segment.segmentType, segment.variantString);
      Some(Guides(
        if Truthy(info.minWidth) then Some(info.minWidth.value) else None,
        MaxGuide(EffectiveRemaining(props.remainingWidth, segment), info, minSegmentWidth)))
  }

  /** A min guide is drawn exactly when the variant recommends a minimum width, and at that width. */
  lemma MinGuideIff(props: Props, variantInfo: (string, string) -> VariantInfo, minSegmentWidth: real)
    requires props.isResizing && props.segment.Some?
    ensures var info := variantInfo(props.segment.value.segmentType, props.segment.value.variantString);
      var g := SelectGuides(props, variantInfo, minSegmentWidth).value;
      (g.minGuide.Some? <==> Truthy(info.minWidth)) &&
      (g.minGuide.Some? ==> g.minGuide.value == info.minWidth.value)
  {
  }

  /**
   * The max guide is drawn at the effective remaining width when that passes
   * the test, else at the variant's maximum width if it has one, else not at all.
   */
  lemma MaxGuideChoice(props: Props, variantInfo: (string, string) -> VariantInfo, minSegmentWidth: real)
    requires props.isResizing && props.segment.Some?
    ensures var s := props.segment.value;
      var info := variantInfo(s.segmentType, s.variantString);
      var rw := props.remainingWidth + s.width;
      var g := SelectGuides(props, variantInfo, minSegmentWidth).value;
      (g.maxGuide == Some(rw) <== UseRemainingWidth(rw, info, minSegmentWidth)) &&
      (!UseRemainingWidth(rw, info, minSegmentWidth) && Truthy(info.maxWidth) ==> g.maxGuide == info.maxWidth) &&
      (g.maxGuide.None? <==> !UseRemainingWidth(rw, info, minSegmentWidth) && !Truthy(info.maxWidth))
  {
  }

  /** With a recommended maximum width the max guide is always drawn, and never beyond that maximum. */
  lemma MaxGuideWithinMaxWidth(remaining: real, info: VariantInfo, minSegmentWidth: real)
    requires Truthy(info.maxWidth)
    ensures MaxGuide(remaining, info, minSegmentWidth).Some?
    ensures MaxGuide(remaining, info, minSegmentWidth).value <= info.maxWidth.value
  {
  }

  /** A max guide at the remaining width always respects the minimum the test checks against. */
  lemma RemainingGuideAboveMinimum(remaining: real, info: VariantInfo, minSegmentWidth: real)
    requires UseRemainingWidth(remaining, info, minSegmentWidth)
    ensures remaining != 0.0
    ensures Truthy(info.minWidth) ==> remaining >= info.minWidth.value
    ensures info.minWidth.None? ==> remaining >= minSegmentWidth
  {
  }

  /** `getStyle`: the guide is `width` tiles wide and centred on the segment's centre line. */
  function GetStyle(width: real, tileSize: real): (r: GuideStyle)
    ensures r.width == width * tileSize
    ensures r.marginLeft + r.width / 2.0 == 0.0
  {
    var pixelWidth := width * tileSize;
    GuideStyle(pixelWidth, -pixelWidth / 2.0)
  }

  /** The guides re-render only when `isResizing` changes. */
  function ShouldComponentUpdate(props: Props, nextProps: Props): bool {
    props.isResizing != nextProps.isResizing
  }

  /**
   * Showing or hiding the guides always re-renders, while changes to the
   * segment or remaining width during a drag never do.
   */
  lemma UpdateOnlyOnToggle(props: Props, nextProps: Props, variantInfo: (string, string) -> VariantInfo,
                           minSegmentWidth: real)
    requires props.segment.Some? && nextProps.segment.Some?
    ensures ShouldComponentUpdate(props, nextProps) <==>
      SelectGuides(props, variantInfo, minSegmentWidth).None? != SelectGuides(nextProps, variantInfo, minSegmentWidth).None?
    ensures props.isResizing == nextProps.isResizing ==> !ShouldComponentUpdate(props, nextProps)
  {
  }

  /** Props that agree on `isResizing` never re-render, whatever else differs. */
  lemma NoUpdateWhileResizingUnchanged(props: Props, nextProps: Props)
    requires props.isResizing == nextProps.isResizing
    ensures !ShouldComponentUpdate(props, nextProps)
  {
  }

  /** The active segment as kept in the UI state: a number, or something else. */
  datatype ActiveSegment = Number(n: real) | NotNumber

  datatype State = State(resizeDragState: bool, activeSegment: ActiveSegment, segments: seq<Segment>,
                         remainingWidth: real)

  /** `segments[i]` for a number `i`: defined only at a whole index in range. */
  function SegmentAt(segments: seq<Segment>, i: real): (r: Option<Segment>)
    ensures r.Some? <==> i == i.Floor as real && 0 <= i.Floor < |segments|
    ensures r.Some? ==> r.value == segments[i.Floor]
  {
    if i == i.Floor as real && 0 <= i.Floor < |segments| then Some(segments[i.Floor]) else None
  }

  /** `mapStateToProps`: a non-number active segment becomes null, and so does the segment then. */
  function MapStateToProps(state: State): (r: Props)
    ensures r.isResizing == state.resizeDragState && r.remainingWidth == state.remainingWidth
    ensures state.activeSegment.NotNumber? ==> r.activeSegment.None? && r.segment.None?
    ensures state.activeSegment.Number? ==> r.activeSegment == Some(state.activeSegment.n)
    ensures state.activeSegment.Number? ==> r.segment == SegmentAt(state.segments, state.activeSegment.n)
  {
    Props(state.resizeDragState,
          if state.activeSegment.Number? then Some(state.activeSegment.n) else None,
          if state.activeSegment.Number? then SegmentAt(state.segments, state.activeSegment.n) else None,
          state.remainingWidth)
  }

  /** Guides are drawn only during a drag and only for an active segment that exists. */
  lemma GuidesNeedActiveSegment(state: State, variantInfo: (string, string) -> VariantInfo, minSegmentWidth: real)
    ensures SelectGuides(MapStateToProps(state), variantInfo, minSegmentWidth).Some? <==>
      state.resizeDragState && state.activeSegment.Number? &&
      SegmentAt(state.segments, state.activeSegment.n).Some?
  {
  }
}
