/**
 * Overlay styles of the table (packages/table/src/common/internal/overlayStyleUtils.ts).
 * Each operation takes the style object the grid computed for a selected
 * region and patches some of its fields according to the region's
 * cardinality, so that the overlay's borders line up across the table's
 * quadrants and headers.
 */
module OverlayStyleUtils {
  import opened Wrappers

  /** A CSS property value: a string such as "-1px", or a number of pixels. */
  datatype CssValue = Text(text: string) | Number(px: real)

  /** What a region selects: some cells, whole rows, whole columns or the whole table. */
  datatype RegionCardinality = Cells | FullRows | FullColumns | FullTable

  /** The quadrant of the table a body overlay is drawn in. */
  datatype QuadrantType = MainQuadrant | TopQuadrant | LeftQuadrant | TopLeftQuadrant

  /** The style fields these operations read or write; `None` is an absent field. */
  datatype StyleRecord = StyleRecord(
    display: Option<CssValue>,
    top: Option<CssValue>, left: Option<CssValue>, right: Option<CssValue>, bottom: Option<CssValue>,
    width: Option<CssValue>, height: Option<CssValue>,
    borderTop: Option<CssValue>, borderLeft: Option<CssValue>,
    borderRight: Option<CssValue>, borderBottom: Option<CssValue>)

  datatype Field = Display | Top | Left | Right | Bottom | Width | Height
                 | BorderTop | BorderLeft | BorderRight | BorderBottom

  function FieldOf(s: StyleRecord, f: Field): Option<CssValue> {
    match f
    case Display => s.display
    case Top => s.top
    case Left => s.left
    case Right => s.right
    case Bottom => s.bottom
    case Width => s.width
    case Height => s.height
    case BorderTop => s.borderTop
    case BorderLeft => s.borderLeft
    case BorderRight => s.borderRight
    case BorderBottom => s.borderBottom
  }

  /** `r` and `s` differ at most in the given fields. */
  predicate AgreesExcept(r: StyleRecord, s: StyleRecord, changed: set<Field>) {
    forall f :: f !in changed ==> FieldOf(r, f) == FieldOf(s, f)
  }

  /** `{}` */
  const EmptyStyle := StyleRecord(None, None, None, None, None, None, None, None, None, None, None)

  /** `{ display: "none" }` */
  const HiddenStyle := EmptyStyle.(display := Some(Text("none")))

  /** The one-pixel correction that hides borders along quadrant boundaries. */
  const AlignmentCorrection: real := 1.0
  const AlignmentCorrectionString: string := "-1px"

  /**
   * The right border may be hidden at the edge of the frozen columns: in the
   * left and top-left quadrants, when some columns are frozen.
   */
  predicate CanHideRightBorder(quadrantType: QuadrantType, numFrozenColumns: Option<int>): (b: bool)
    ensures b ==> numFrozenColumns.Some? && numFrozenColumns.value >= 1
    ensures quadrantType == MainQuadrant || quadrantType == TopQuadrant ==> !b
    ensures numFrozenColumns.Some? && numFrozenColumns.value >= 1 ==>
              (b <==> quadrantType == LeftQuadrant || quadrantType == TopLeftQuadrant)
  {
    (quadrantType == TopLeftQuadrant || quadrantType == LeftQuadrant) &&
    numFrozenColumns.Some? && numFrozenColumns.value > 0
  }

  /**
   * The body overlay: cells keep the region style; full columns and the full
   * table stretch one pixel above the grid, to its full height plus one; full
   * rows and the full table stretch one pixel left of it, to its full width
   * plus one, and also one pixel past the right edge when the right border
   * can be hidden. Nothing else changes, and the overlay is never hidden.
   */
  function BodyOverlay(s: StyleRecord, cardinality: RegionCardinality, quadrantType: QuadrantType,
                       numFrozenColumns: Option<int>, fixedHeight: real, fixedWidth: real): (r: StyleRecord)
    ensures cardinality == Cells ==> r == s
    ensures cardinality == FullColumns || cardinality == FullTable ==>
      r.top == Some(Text(AlignmentCorrectionString)) &&
      r.height == Some(Number(fixedHeight + AlignmentCorrection))
    ensures cardinality == FullRows || cardinality == FullTable ==>
      r.left == Some(Text(AlignmentCorrectionString)) &&
      r.width == Some(Number(fixedWidth + AlignmentCorrection))
    ensures r.right ==
      if (cardinality == FullRows || cardinality == FullTable) && CanHideRightBorder(quadrantType, numFrozenColumns)
      then Some(Text(AlignmentCorrectionString))
      else s.right
    ensures cardinality == FullColumns ==> AgreesExcept(r, s, {Top, Height})
    ensures cardinality == FullRows ==> AgreesExcept(r, s, {Left, Width, Right})
    ensures AgreesExcept(r, s, {Top, Height, Left, Width, Right})
  {
    var corrected := Some(Text(AlignmentCorrectionString));
    var canHideRightBorder := CanHideRightBorder(quadrantType, numFrozenColumns);
    match cardinality
    case Cells => s
    case FullColumns =>
      s.(top := corrected, height := Some(Number(fixedHeight + AlignmentCorrection)))
    case FullRows =>
      var t := s.(left := corrected, width := Some(Number(fixedWidth + AlignmentCorrection)));
      if canHideRightBorder then t.(right := corrected) else t
    case FullTable =>
      var t := s.(left := corrected, top := corrected,
                  width := Some(Number(fixedWidth + AlignmentCorrection)),
                  height := Some(Number(fixedHeight + AlignmentCorrection)));
      if canHideRightBorder then t.(right := corrected) else t
  }

  /**
   * The menu overlay in the top-left corner: empty without a viewport, hidden
   * unless the whole table is selected, and otherwise pinned to all four
   * edges with no bottom or right border.
   */
  function MenuOverlay(s: StyleRecord, cardinality: RegionCardinality, hasViewport: bool): (r: StyleRecord)
    ensures !hasViewport ==> r == EmptyStyle
    ensures hasViewport && cardinality != FullTable ==> r == HiddenStyle
    ensures hasViewport && cardinality == FullTable ==>
      r.top == r.right == r.bottom == r.left == Some(Text("0px")) &&
      r.borderBottom == r.borderRight == Some(Text("none")) &&
      AgreesExcept(r, s, {Top, Right, Bottom, Left, BorderBottom, BorderRight})
  {
    if !hasViewport then EmptyStyle
    else match cardinality
      case FullTable =>
        s.(right := Some(Text("0px")), bottom := Some(Text("0px")),
           top := Some(Text("0px")), left := Some(Text("0px")),
           borderBottom := Some(Text("none")), borderRight := Some(Text("none")))
      case _ => HiddenStyle
  }

  /**
   * The column-header overlay: empty without a viewport; for full columns it
   * reaches one pixel below the header; for the full table it also reaches
   * one pixel to the left, without a left border; hidden otherwise.
   */
  function ColumnHeaderOverlay(s: StyleRecord, cardinality: RegionCardinality, hasViewport: bool): (r: StyleRecord)
    ensures !hasViewport ==> r == EmptyStyle
    ensures hasViewport && (cardinality == Cells || cardinality == FullRows) ==> r == HiddenStyle
    ensures hasViewport && cardinality == FullColumns ==>
      r.bottom == Some(Text("-1px")) && AgreesExcept(r, s, {Bottom})
    ensures hasViewport && cardinality == FullTable ==>
      r.bottom == r.left == Some(Text("-1px")) && r.borderLeft == Some(Text("none")) &&
      AgreesExcept(r, s, {Bottom, Left, BorderLeft})
  {
    if !hasViewport then EmptyStyle
    else match cardinality
      case FullTable => s.(left := Some(Text("-1px")), borderLeft := Some(Text("none")), bottom := Some(Text("-1px")))
      case FullColumns => s.(bottom := Some(Text("-1px")))
      case _ => HiddenStyle
  }

  /**
   * The row-header overlay: empty without a viewport; for full rows it
   * reaches one pixel right of the header; for the full table it also reaches
   * one pixel above, without a top border; hidden otherwise.
   */
  function RowHeaderOverlay(s: StyleRecord, cardinality: RegionCardinality, hasViewport: bool): (r: StyleRecord)
    ensures !hasViewport ==> r == EmptyStyle
    ensures hasViewport && (cardinality == Cells || cardinality == FullColumns) ==> r == HiddenStyle
    ensures hasViewport && cardinality == FullRows ==>
      r.right == Some(Text("-1px")) && AgreesExcept(r, s, {Right})
    ensures hasViewport && cardinality == FullTable ==>
      r.right == r.top == Some(Text("-1px")) && r.borderTop == Some(Text("none")) &&
      AgreesExcept(r, s, {Right, Top, BorderTop})
  {
    if !hasViewport then EmptyStyle
    else match cardinality
      case FullTable => s.(top := Some(Text("-1px")), borderTop := Some(Text("none")), right := Some(Text("-1px")))
      case FullRows => s.(right := Some(Text("-1px")))
      case _ => HiddenStyle
  }

  /** The style seen across the table's diagonal: rows become columns, top becomes left. */
  function Transpose(s: StyleRecord): (r: StyleRecord)
    ensures forall f :: FieldOf(r, f) == FieldOf(s, Mirror(f))
  {
    StyleRecord(s.display, s.left, s.top, s.bottom, s.right, s.height, s.width,
                s.borderLeft, s.borderTop, s.borderBottom, s.borderRight)
  }

  /** The field across the diagonal. */
  function Mirror(f: Field): Field {
    match f
    case Display => Display
    case Top => Left
    case Left => Top
    case Right => Bottom
    case Bottom => Right
    case Width => Height
    case Height => Width
    case BorderTop => BorderLeft
    case BorderLeft => BorderTop
    case BorderRight => BorderBottom
    case BorderBottom => BorderRight
  }

  /** The cardinality across the diagonal: full rows become full columns. */
  function TransposeCardinality(c: RegionCardinality): RegionCardinality {
    match c
    case Cells => Cells
    case FullRows => FullColumns
    case FullColumns => FullRows
    case FullTable => FullTable
  }

  /** The row-header overlay is the column-header overlay seen across the diagonal. */
  lemma RowHeaderMirrorsColumnHeader(s: StyleRecord, cardinality: RegionCardinality, hasViewport: bool)
    ensures RowHeaderOverlay(s, cardinality, hasViewport) ==
            Transpose(ColumnHeaderOverlay(Transpose(s), TransposeCardinality(cardinality), hasViewport))
  {
  }

  /** The full-table body overlay is the full-rows overlay followed by the full-columns one. */
  lemma BodyFullTableComposes(s: StyleRecord, quadrantType: QuadrantType, numFrozenColumns: Option<int>,
                              fixedHeight: real, fixedWidth: real)
    ensures BodyOverlay(s, FullTable, quadrantType, numFrozenColumns, fixedHeight, fixedWidth) ==
            BodyOverlay(BodyOverlay(s, FullRows, quadrantType, numFrozenColumns, fixedHeight, fixedWidth),
                        FullColumns, quadrantType, numFrozenColumns, fixedHeight, fixedWidth)
  {
  }

  /** Patching a body overlay a second time changes nothing more. */
  lemma BodyOverlayIdempotent(s: StyleRecord, cardinality: RegionCardinality, quadrantType: QuadrantType,
                              numFrozenColumns: Option<int>, fixedHeight: real, fixedWidth: real)
    ensures var once := BodyOverlay(s, cardinality, quadrantType, numFrozenColumns, fixedHeight, fixedWidth);
      BodyOverlay(once, cardinality, quadrantType, numFrozenColumns, fixedHeight, fixedWidth) == once
  {
  }

  /** The main and top quadrants, and a table without frozen columns, never hide the right border. */
  lemma RightBorderKeptOutsideFrozenColumns(s: StyleRecord, cardinality: RegionCardinality,
                                            quadrantType: QuadrantType, numFrozenColumns: Option<int>,
                                            fixedHeight: real, fixedWidth: real)
    requires quadrantType == MainQuadrant || quadrantType == TopQuadrant ||
             numFrozenColumns.None? || numFrozenColumns.value <= 0
    ensures BodyOverlay(s, cardinality, quadrantType, numFrozenColumns, fixedHeight, fixedWidth).right == s.right
  {
  }

  /** A mutable style object, as returned by the grid for a region. */
  class Style {
    var display: Option<CssValue>
    var top: Option<CssValue>
    var left: Option<CssValue>
    var right: Option<CssValue>
    var bottom: Option<CssValue>
    var width: Option<CssValue>
    var height: Option<CssValue>
    var borderTop: Option<CssValue>
    var borderLeft: Option<CssValue>
    var borderRight: Option<CssValue>
    var borderBottom: Option<CssValue>

    function Snapshot(): StyleRecord
      reads this
    {
      StyleRecord(display, top, left, right, bottom, width, height,
                  borderTop, borderLeft, borderRight, borderBottom)
    }

    constructor(r: StyleRecord)
      ensures Snapshot() == r
    {
      display := r.display;
      top := r.top;
      left := r.left;
      right := r.right;
      bottom := r.bottom;
      width := r.width;
      height := r.height;
      borderTop := r.borderTop;
      borderLeft := r.borderLeft;
      borderRight := r.borderRight;
      borderBottom := r.borderBottom;
    }
  }

  /**
   * `getBodyOverlayStyle`: patches the region style in place and returns it.
   * The region's cardinality, the grid's height and width and the region
   * style object are inputs.
   */
  method GetBodyOverlayStyle(style: Style, cardinality: RegionCardinality, quadrantType: QuadrantType,
                             numFrozenColumns: Option<int>, fixedHeight: real, fixedWidth: real)
    returns (r: Style)
    modifies style
    ensures r == style
    ensures r.Snapshot() ==
      BodyOverlay(old(style.Snapshot()), cardinality, quadrantType, numFrozenColumns, fixedHeight, fixedWidth)
  {
    var canHideRightBorder := CanHideRightBorder(quadrantType, numFrozenColumns);
    match cardinality {
      case Cells =>
      case FullColumns =>
        style.top := Some(Text(AlignmentCorrectionString));
        style.height := Some(Number(fixedHeight + AlignmentCorrection));
      case FullRows =>
        style.left := Some(Text(AlignmentCorrectionString));
        style.width := Some(Number(fixedWidth + AlignmentCorrection));
        if canHideRightBorder {
          style.right := Some(Text(AlignmentCorrectionString));
        }
      case FullTable =>
        style.left := Some(Text(AlignmentCorrectionString));
        style.top := Some(Text(AlignmentCorrectionString));
        style.width := Some(Number(fixedWidth + AlignmentCorrection));
        style.height := Some(Number(fixedHeight + AlignmentCorrection));
        if canHideRightBorder {
          style.right := Some(Text(AlignmentCorrectionString));
        }
    }
    r := style;
  }

  /**
   * `getMenuOverlayStyle`: patches and returns the region style for the full
   * table; otherwise returns a new object and leaves the region style alone.
   */
  method GetMenuOverlayStyle(style: Style, cardinality: RegionCardinality, hasViewport: bool)
    returns (r: Style)
    modifies style
    ensures r.Snapshot() == MenuOverlay(old(style.Snapshot()), cardinality, hasViewport)
    ensures hasViewport && cardinality == FullTable ==> r == style
    ensures !(hasViewport && cardinality == FullTable) ==> fresh(r) && unchanged(style)
  {
    if !hasViewport {
      r := new Style(EmptyStyle);
      return;
    }
    match cardinality {
      case FullTable =>
        style.right := Some(Text("0px"));
        style.bottom := Some(Text("0px"));
        style.top := Some(Text("0px"));
        style.left := Some(Text("0px"));
        style.borderBottom := Some(Text("none"));
        style.borderRight := Some(Text("none"));
        r := style;
      case _ =>
        r := new Style(HiddenStyle);
    }
  }

  /**
   * `getColumnHeaderOverlayStyle`: patches and returns the region style for
   * full columns and the full table; otherwise returns a new object.
   */
  method GetColumnHeaderOverlayStyle(style: Style, cardinality: RegionCardinality, hasViewport: bool)
    returns (r: Style)
    modifies style
    ensures r.Snapshot() == ColumnHeaderOverlay(old(style.Snapshot()), cardinality, hasViewport)
    ensures hasViewport && (cardinality == FullTable || cardinality == FullColumns) ==> r == style
    ensures !(hasViewport && (cardinality == FullTable || cardinality == FullColumns)) ==>
      fresh(r) && unchanged(style)
  {
    if !hasViewport {
      r := new Style(EmptyStyle);
      return;
    }
    match cardinality {
      case FullTable =>
        style.left := Some(Text("-1px"));
        style.borderLeft := Some(Text("none"));
        style.bottom := Some(Text("-1px"));
        r := style;
      case FullColumns =>
        style.bottom := Some(Text("-1px"));
        r := style;
      case _ =>
        r := new Style(HiddenStyle);
    }
  }

  /**
   * `getRowHeaderOverlayStyle`: patches and returns the region style for
   * full rows and the full table; otherwise returns a new object.
   */
  method GetRowHeaderOverlayStyle(style: Style, cardinality: RegionCardinality, hasViewport: bool)
    returns (r: Style)
    modifies style
    ensures r.Snapshot() == RowHeaderOverlay(old(style.Snapshot()), cardinality, hasViewport)
    ensures hasViewport && (cardinality == FullTable || cardinality == FullRows) ==> r == style
    ensures !(hasViewport && (cardinality == FullTable || cardinality == FullRows)) ==>
      fresh(r) && unchanged(style)
  {
    if !hasViewport {
      r := new Style(EmptyStyle);
      return;
    }
    match cardinality {
      case FullTable =>
        style.top := Some(Text("-1px"));
        style.borderTop := Some(Text("none"));
        style.right := Some(Text("-1px"));
        r := style;
      case FullRows =>
        style.right := Some(Text("-1px"));
        r := style;
      case _ =>
        r := new Style(HiddenStyle);
    }
  }
}
