/**
 * `ClippingGradientDecoration`: for every list item whose view type is
 * targeted, clip the canvas to a rounded rectangle around the item's target
 * view and draw one list-sized background through it, so that items appear
 * to share a continuous background. Runs of neighbouring items of the same
 * view type are "grouped": the corners they share use the smaller grouped
 * radius, and the gap between them the grouped margin.
 *
 * The adapter is its sequence of view types (`getItemViewType(i)` is
 * `types[i]`, `itemCount` is `|types|`); the canvas is replaced by the list
 * of clip-and-draw operations `onDraw` would issue.
 */
module ClippingDecoration {
  import opened Options
  import opened Geometry

  /** `RecyclerView.NO_POSITION`. */
  const NO_POSITION: int := -1

  /** The pixel sizes of `DecorationStyle`; its two drawables are told apart by `Background`. */
  datatype DecorationStyle = DecorationStyle(
    groupedMargin: int,
    regularMargin: int,
    groupedCornerRadius: int,
    regularCornerRadius: int)

  /** Which of the style's two drawables an item is drawn with. */
  datatype Background = PrimaryBackground | SecondaryBackground

  datatype Decoration = Decoration(
    style: DecorationStyle,
    primaryViewTypes: set<int>,
    secondaryViewTypes: set<int>)
  {
    /** Every view type the decoration draws behind. */
    function TargetViewTypes(): set<int>
    {
      primaryViewTypes + secondaryViewTypes
    }
  }

  /** What a view holder tells the decoration: its view type and adapter position. */
  datatype Holder = Holder(itemViewType: int, adapterPosition: int)

  // ---------------------------------------------------------------------
  // Neighbours, corners and margins
  // ---------------------------------------------------------------------

  datatype Grouping = Grouped | Regular

  datatype Side = LeftSide | RightSide

  datatype Corners<T> = Corners(topLeft: T, topRight: T, bottomRight: T, bottomLeft: T)

  function Opposite(side: Side): Side
  {
    if side == LeftSide then RightSide else LeftSide
  }

  function TopCorner<T>(c: Corners<T>, side: Side): T
  {
    if side == LeftSide then c.topLeft else c.topRight
  }

  function BottomCorner<T>(c: Corners<T>, side: Side): T
  {
    if side == LeftSide then c.bottomLeft else c.bottomRight
  }

  /**
   * The side on which an item of type `t` joins its group: the right for a
   * primary type, the left for any other; a type in both sets counts as
   * primary.
   */
  function GroupedSide(dec: Decoration, t: int): (side: Side)
    ensures t in dec.primaryViewTypes ==> side == RightSide
    ensures t !in dec.primaryViewTypes ==> side == LeftSide
  {
    if t in dec.primaryViewTypes then RightSide else LeftSide
  }

  /** The drawable an item of type `t` is drawn with; a type in both sets counts as primary. */
  function BackgroundFor(dec: Decoration, t: int): (b: Background)
    ensures b == PrimaryBackground <==> t in dec.primaryViewTypes
  {
    if t in dec.primaryViewTypes then PrimaryBackground else SecondaryBackground
  }

  /** Whether the item before `position` exists and has the view type `itemType`. */
  function PrevIsSameType(types: seq<int>, position: int, itemType: int): (b: bool)
    requires 0 <= position < |types|
    ensures position == 0 ==> !b
    ensures 0 < position ==> (b <==> types[position - 1] == itemType)
  {
    position > 0 && types[position - 1] == itemType
  }

  /** Whether the item after `position` exists and has the view type `itemType`. */
  function NextIsSameType(types: seq<int>, position: int, itemType: int): (b: bool)
    requires 0 <= position < |types|
    ensures position == |types| - 1 ==> !b
    ensures position < |types| - 1 ==> (b <==> types[position + 1] == itemType)
  {
    position < |types| - 1 && types[position + 1] == itemType
  }

  function GroupedIf(b: bool): Grouping
  {
    if b then Grouped else Regular
  }

  /**
   * The corner choice of `onDraw`: only the corners on the item's grouped
   * side can be grouped, the top one exactly when the previous item has the
   * same type and the bottom one exactly when the next item does.
   */
  function CornerGrouping(dec: Decoration, itemType: int, prevSame: bool, nextSame: bool): (c: Corners<Grouping>)
    ensures var side := GroupedSide(dec, itemType);
      && (TopCorner(c, side) == Grouped <==> prevSame)
      && (BottomCorner(c, side) == Grouped <==> nextSame)
      && TopCorner(c, Opposite(side)) == Regular
      && BottomCorner(c, Opposite(side)) == Regular
  {
    if itemType in dec.primaryViewTypes then
      Corners(Regular, GroupedIf(prevSame), GroupedIf(nextSame), Regular)
    else
      Corners(GroupedIf(prevSame), Regular, Regular, GroupedIf(nextSame))
  }

  /** The corners of the item at `position`, whose type is `types[position]`. */
  function ShapeAt(dec: Decoration, types: seq<int>, position: int): Corners<Grouping>
    requires 0 <= position < |types|
  {
    var t := types[position];
    CornerGrouping(dec, t, PrevIsSameType(types, position, t), NextIsSameType(types, position, t))
  }

  function RadiusOf(style: DecorationStyle, g: Grouping): (r: int)
    ensures g == Grouped ==> r == style.groupedCornerRadius
    ensures g == Regular ==> r == style.regularCornerRadius
  {
    if g == Grouped then style.groupedCornerRadius else style.regularCornerRadius
  }

  /** Every corner radius is one of the style's two radii. */
  predicate RadiiFromStyle(style: DecorationStyle, c: Corners<int>)
  {
    && IsStyleRadius(style, c.topLeft) && IsStyleRadius(style, c.topRight)
    && IsStyleRadius(style, c.bottomRight) && IsStyleRadius(style, c.bottomLeft)
  }

  predicate IsStyleRadius(style: DecorationStyle, r: int)
  {
    r == style.groupedCornerRadius || r == style.regularCornerRadius
  }

  /** The four radii handed to `addRoundRect`. */
  function CornerRadii(style: DecorationStyle, c: Corners<Grouping>): (r: Corners<int>)
    ensures RadiiFromStyle(style, r)
    ensures r.topLeft == RadiusOf(style, c.topLeft) && r.topRight == RadiusOf(style, c.topRight)
    ensures r.bottomRight == RadiusOf(style, c.bottomRight) && r.bottomLeft == RadiusOf(style, c.bottomLeft)
  {
    Corners(RadiusOf(style, c.topLeft), RadiusOf(style, c.topRight),
            RadiusOf(style, c.bottomRight), RadiusOf(style, c.bottomLeft))
  }

  /**
   * Two neighbouring targeted items agree on the corners where they meet:
   * the bottom corner on the first one's grouped side and the top corner on
   * the second one's grouped side are both grouped when the two have the
   * same type (and then the sides coincide), and both regular otherwise.
   */
  lemma NeighboursAgreeOnSharedCorners(dec: Decoration, types: seq<int>, i: int)
    requires 0 <= i < |types| - 1
    ensures
      var (a, b) := (types[i], types[i + 1]);
      var lower := BottomCorner(ShapeAt(dec, types, i), GroupedSide(dec, a));
      var upper := TopCorner(ShapeAt(dec, types, i + 1), GroupedSide(dec, b));
      && lower == upper
      && (lower == Grouped <==> a == b)
      && (a == b ==> GroupedSide(dec, a) == GroupedSide(dec, b))
  {
  }

  /** A maximal run of one type is closed by regular corners at both of its ends. */
  lemma RunEndsAreRegular(dec: Decoration, types: seq<int>, from: int, to: int)
    requires 0 <= from <= to < |types|
    requires forall k :: from <= k <= to ==> types[k] == types[from]
    requires from == 0 || types[from - 1] != types[from]
    requires to == |types| - 1 || types[to + 1] != types[from]
    ensures
      var side := GroupedSide(dec, types[from]);
      && TopCorner(ShapeAt(dec, types, from), side) == Regular
      && BottomCorner(ShapeAt(dec, types, to), side) == Regular
      && (forall k :: from <= k < to ==> BottomCorner(ShapeAt(dec, types, k), side) == Grouped)
      && (forall k :: from < k <= to ==> TopCorner(ShapeAt(dec, types, k), side) == Grouped)
  {
    var side := GroupedSide(dec, types[from]);
    forall k | from <= k < to
      ensures BottomCorner(ShapeAt(dec, types, k), side) == Grouped
    {
      assert types[k + 1] == types[k];
    }
    forall k | from < k <= to
      ensures TopCorner(ShapeAt(dec, types, k), side) == Grouped
    {
      assert types[k - 1] == types[k];
    }
  }

  /** The top margin of `getItemOffsets`, as written there. */
  function TopMarginGrouping(types: seq<int>, position: int, itemType: int): (g: Grouping)
    requires 0 <= position < |types|
    ensures g == Grouped <==> PrevIsSameType(types, position, itemType)
    ensures position == 0 ==> g == Regular
  {
    if position > 0 && itemType == types[position - 1] then Grouped else Regular
  }

  /** The top margin is grouped exactly when the top corner on the item's grouped side is. */
  lemma MarginAgreesWithTopCorner(dec: Decoration, types: seq<int>, position: int)
    requires 0 <= position < |types|
    ensures
      var t := types[position];
      TopMarginGrouping(types, position, t) == TopCorner(ShapeAt(dec, types, position), GroupedSide(dec, t))
  {
  }

  function MarginOf(style: DecorationStyle, g: Grouping): int
  {
    if g == Grouped then style.groupedMargin else style.regularMargin
  }

  /** The holder's position is one the adapter knows, or NO_POSITION. */
  predicate PositionKnown(types: seq<int>, h: Holder)
  {
    h.adapterPosition == NO_POSITION || 0 <= h.adapterPosition < |types|
  }

  /** Whether the decoration draws for / makes room for this holder at all. */
  predicate Decorates(dec: Decoration, h: Holder)
  {
    h.itemViewType in dec.TargetViewTypes() && h.adapterPosition != NO_POSITION
  }

  /**
   * `getItemOffsets`: an empty rectangle, except that a targeted item at a
   * known position gets a top margin, the grouped one exactly when the
   * previous item has its type.
   */
  function ItemOffsets(dec: Decoration, adapter: Option<seq<int>>, holder: Option<Holder>): (r: Rect)
    requires adapter.Some? && holder.Some? ==> PositionKnown(adapter.value, holder.value)
    ensures r.left == 0 && r.right == 0 && r.bottom == 0
    ensures adapter.None? || holder.None? || !Decorates(dec, holder.value) ==> r == EMPTY_RECT
    ensures adapter.Some? && holder.Some? && Decorates(dec, holder.value) ==>
      var (types, h) := (adapter.value, holder.value);
      var p := h.adapterPosition;
      && (p > 0 && types[p - 1] == h.itemViewType ==> r.top == dec.style.groupedMargin)
      && (!(p > 0 && types[p - 1] == h.itemViewType) ==> r.top == dec.style.regularMargin)
  {
    if adapter.None? || holder.None? then EMPTY_RECT
    else if holder.value.itemViewType !in dec.TargetViewTypes() then EMPTY_RECT
    else if holder.value.adapterPosition == NO_POSITION then EMPTY_RECT
    else
      var h := holder.value;
      EMPTY_RECT.(top := MarginOf(dec.style, TopMarginGrouping(adapter.value, h.adapterPosition, h.itemViewType)))
  }

  /** `getItemOffsets`, writing into the caller's `outRect`. */
  method GetItemOffsets(outRect: MutableRect, dec: Decoration, adapter: Option<seq<int>>, holder: Option<Holder>)
    requires adapter.Some? && holder.Some? ==> PositionKnown(adapter.value, holder.value)
    modifies outRect
    ensures outRect.Value() == ItemOffsets(dec, adapter, holder)
  {
    outRect.SetEmpty();
    if adapter.None? || holder.None? {
      return;
    }
    var itemViewType := holder.value.itemViewType;
    if itemViewType !in dec.TargetViewTypes() {
      return;
    }
    var position := holder.value.adapterPosition;
    if position == NO_POSITION {
      return;
    }
    outRect.top := if position > 0 && itemViewType == adapter.value[position - 1]
                   then dec.style.groupedMargin
                   else dec.style.regularMargin;
  }

  // ---------------------------------------------------------------------
  // Positions in the view hierarchy
  // ---------------------------------------------------------------------

  /**
   * The ancestors `relativeTo` adds up: those strictly below `group`, that
   * is the longest prefix of the parent chain in which `group` does not
   * occur (all of it when `group` is not an ancestor).
   */
  function AncestorsBelow(parents: seq<ViewBox>, group: int): (below: seq<ViewBox>)
    ensures |below| <= |parents| && below == parents[..|below|]
    ensures forall k :: 0 <= k < |below| ==> below[k].id != group
    ensures |below| < |parents| ==> parents[|below|].id == group
  {
    if parents == [] || parents[0].id == group then []
    else [parents[0]] + AncestorsBelow(parents[1..], group)
  }

  /** The summed offsets of a list of views. */
  function SumOffsets(views: seq<ViewBox>): Point
  {
    if views == [] then Point(0, 0)
    else
      var rest := SumOffsets(views[..|views| - 1]);
      var last := views[|views| - 1];
      Point(rest.x + last.left, rest.y + last.top)
  }

  /**
   * `relativeTo`: the view's own offset plus the offsets of every ancestor
   * below `group`, walked one parent at a time.
   */
  method RelativeTo(view: ViewBox, parents: seq<ViewBox>, group: int) returns (p: Point)
    ensures p.x == view.left + SumOffsets(AncestorsBelow(parents, group)).x
    ensures p.y == view.top + SumOffsets(AncestorsBelow(parents, group)).y
  {
    p := Point(view.left, view.top);
    var i := 0;
    while i < |parents| && parents[i].id != group
      invariant 0 <= i <= |parents|
      invariant forall k :: 0 <= k < i ==> parents[k].id != group
      invariant p.x == view.left + SumOffsets(parents[..i]).x
      invariant p.y == view.top + SumOffsets(parents[..i]).y
    {
      assert parents[..i + 1][..i] == parents[..i];
      p := Point(p.x + parents[i].left, p.y + parents[i].top);
      i := i + 1;
    }
    assert AncestorsBelow(parents, group) == parents[..i];
  }

  // ---------------------------------------------------------------------
  // onDraw
  // ---------------------------------------------------------------------

  /** The clipping target of an item: its own box and size, and its parent chain upwards. */
  datatype TargetView = TargetView(box: ViewBox, width: int, height: int, parents: seq<ViewBox>)

  /** A child of the list: its holder (if it has one), its clipping target and its translation. */
  datatype ChildView = ChildView(holder: Option<Holder>, target: TargetView, translationY: real)

  /** The list itself: its identity and size. */
  datatype ListView = ListView(id: int, width: int, height: int)

  /** One clip-and-draw: the clipped rounded rectangle, its radii, and the background drawn through it over `bounds`. */
  datatype ClipDraw = ClipDraw(clip: RectF, radii: Corners<int>, background: Background, bounds: Rect)

  predicate ChildKnown(types: seq<int>, child: ChildView)
  {
    child.holder.Some? ==> PositionKnown(types, child.holder.value)
  }

  predicate ChildrenKnown(types: seq<int>, children: seq<ChildView>)
  {
    forall k :: 0 <= k < |children| ==> ChildKnown(types, children[k])
  }

  /** Every holder at a position the adapter knows reports the adapter's view type there. */
  predicate HoldersMatchAdapter(types: seq<int>, children: seq<ChildView>)
  {
    forall c :: c in children && c.holder.Some? && 0 <= c.holder.value.adapterPosition < |types| ==>
      c.holder.value.itemViewType == types[c.holder.value.adapterPosition]
  }

  /** What `onDraw` does for one child: nothing, or one clip-and-draw. */
  function ClipFor(dec: Decoration, types: seq<int>, list: ListView, child: ChildView): (op: Option<ClipDraw>)
    requires ChildKnown(types, child)
    ensures op.Some? <==> child.holder.Some? && Decorates(dec, child.holder.value)
    ensures op.Some? ==>
      var h := child.holder.value;
      && op.value.bounds == Rect(0, 0, list.width, list.height)
      && RadiiFromStyle(dec.style, op.value.radii)
      && (op.value.background == PrimaryBackground <==> h.itemViewType in dec.primaryViewTypes)
  {
    if child.holder.None? then None
    else
      var h := child.holder.value;
      if h.itemViewType !in dec.TargetViewTypes() || h.adapterPosition == NO_POSITION then None
      else
        var t := child.target;
        var rel := SumOffsets(AncestorsBelow(t.parents, list.id));
        var x := (t.box.left + rel.x) as real;
        var y := (t.box.top + rel.y) as real + child.translationY;
        var corners := CornerGrouping(dec, h.itemViewType,
                                      PrevIsSameType(types, h.adapterPosition, h.itemViewType),
                                      NextIsSameType(types, h.adapterPosition, h.itemViewType));
        Some(ClipDraw(RectF(x, y, x + t.width as real, y + t.height as real),
                      CornerRadii(dec.style, corners),
                      BackgroundFor(dec, h.itemViewType),
                      Rect(0, 0, list.width, list.height)))
  }

  /**
   * Where `onDraw` clips: the target's box, placed where `relativeTo` puts
   * it and moved down by the child's translation.
   */
  lemma ClipForPlacement(dec: Decoration, types: seq<int>, list: ListView, child: ChildView)
    requires ChildKnown(types, child)
    ensures
      var op := ClipFor(dec, types, list, child);
      op.Some? ==>
        var (t, clip) := (child.target, op.value.clip);
        var rel := SumOffsets(AncestorsBelow(t.parents, list.id));
        && clip.left == (t.box.left + rel.x) as real
        && clip.top == (t.box.top + rel.y) as real + child.translationY
        && clip.right - clip.left == t.width as real
        && clip.bottom - clip.top == t.height as real
  {
  }

  /**
   * The corners `onDraw` rounds: on the item's grouped side the top corner
   * takes the grouped radius when the previous item has the same type and
   * the bottom one when the next does; the other side is regular. When the
   * holder reports the adapter's type, these are the radii of `ShapeAt`.
   */
  lemma ClipForCorners(dec: Decoration, types: seq<int>, list: ListView, child: ChildView)
    requires ChildKnown(types, child)
    ensures
      var op := ClipFor(dec, types, list, child);
      op.Some? ==>
        var h := child.holder.value;
        var (r, side, style) := (op.value.radii, GroupedSide(dec, h.itemViewType), dec.style);
        var prevSame := PrevIsSameType(types, h.adapterPosition, h.itemViewType);
        var nextSame := NextIsSameType(types, h.adapterPosition, h.itemViewType);
        && TopCorner(r, side) == (if prevSame then style.groupedCornerRadius else style.regularCornerRadius)
        && BottomCorner(r, side) == (if nextSame then style.groupedCornerRadius else style.regularCornerRadius)
        && TopCorner(r, Opposite(side)) == style.regularCornerRadius
        && BottomCorner(r, Opposite(side)) == style.regularCornerRadius
        && (h.itemViewType == types[h.adapterPosition] ==>
              r == CornerRadii(style, ShapeAt(dec, types, h.adapterPosition)))
  {
  }

  /** The clip-and-draws for the children in order, skipping the ones not decorated. */
  function DrawOps(dec: Decoration, types: seq<int>, list: ListView, children: seq<ChildView>): (ops: seq<ClipDraw>)
    requires ChildrenKnown(types, children)
    ensures |ops| <= |children|
    ensures forall k :: 0 <= k < |ops| ==>
      && ops[k].bounds == Rect(0, 0, list.width, list.height)
      && RadiiFromStyle(dec.style, ops[k].radii)
  {
    if children == [] then []
    else
      var init := children[..|children| - 1];
      assert ChildrenKnown(types, init);
      var op := ClipFor(dec, types, list, children[|children| - 1]);
      DrawOps(dec, types, list, init) + (if op.Some? then [op.value] else [])
  }

  /** The children the decoration draws behind, in order. */
  function DecoratedChildren(dec: Decoration, children: seq<ChildView>): (ds: seq<ChildView>)
    ensures |ds| <= |children|
    ensures forall c :: c in ds ==> c in children && c.holder.Some? && Decorates(dec, c.holder.value)
    ensures forall c :: c in children && c.holder.Some? && Decorates(dec, c.holder.value) ==> c in ds
  {
    if children == [] then []
    else
      var last := children[|children| - 1];
      DecoratedChildren(dec, children[..|children| - 1]) +
        (if last.holder.Some? && Decorates(dec, last.holder.value) then [last] else [])
  }

  /**
   * The decorated children keep the children's order: one more child is
   * appended at the end when it is decorated, and changes nothing otherwise.
   */
  lemma DecoratedChildrenStep(dec: Decoration, children: seq<ChildView>, i: int)
    requires 0 <= i < |children|
    ensures
      var c := children[i];
      DecoratedChildren(dec, children[..i + 1]) ==
        DecoratedChildren(dec, children[..i]) + (if c.holder.Some? && Decorates(dec, c.holder.value) then [c] else [])
  {
    assert children[..i + 1][..i] == children[..i];
  }

  /**
   * `onDraw` issues one clip-and-draw per decorated child, in order: the
   * k-th operation is the one `ClipFor` gives for the k-th decorated child.
   */
  lemma {:induction false} DrawOpsPerDecoratedChild(dec: Decoration, types: seq<int>, list: ListView, children: seq<ChildView>)
    requires ChildrenKnown(types, children)
    ensures
      var (ops, ds) := (DrawOps(dec, types, list, children), DecoratedChildren(dec, children));
      && |ops| == |ds|
      && forall k :: 0 <= k < |ds| ==> ChildKnown(types, ds[k]) && ClipFor(dec, types, list, ds[k]) == Some(ops[k])
  {
    if children != [] {
      var init := children[..|children| - 1];
      var last := children[|children| - 1];
      assert ChildrenKnown(types, init);
      DrawOpsPerDecoratedChild(dec, types, list, init);
      assert ChildKnown(types, last);
    }
  }

  /** One more child adds its clip-and-draw, if it has one, at the end. */
  lemma DrawOpsStep(dec: Decoration, types: seq<int>, list: ListView, children: seq<ChildView>, i: int)
    requires ChildrenKnown(types, children) && 0 <= i < |children|
    ensures ChildKnown(types, children[i])
    ensures
      var op := ClipFor(dec, types, list, children[i]);
      DrawOps(dec, types, list, children[..i + 1]) ==
        DrawOps(dec, types, list, children[..i]) + (if op.Some? then [op.value] else [])
  {
    assert children[..i + 1][..i] == children[..i];
  }

  /**
   * The clip-and-draw of a decorated child, unfolded into the expressions
   * `OnDraw`'s loop computes (the radii chosen corner by corner, as the two
   * `addRoundRect` calls do), so that the loop proof matches them term by term.
   */
  lemma ClipForDecorated(dec: Decoration, types: seq<int>, list: ListView, child: ChildView)
    requires ChildKnown(types, child) && child.holder.Some? && Decorates(dec, child.holder.value)
    ensures
      var (h, t, style) := (child.holder.value, child.target, dec.style);
      var rel := SumOffsets(AncestorsBelow(t.parents, list.id));
      var (x, y) := ((t.box.left + rel.x) as real, (t.box.top + rel.y) as real + child.translationY);
      var prevSame := h.adapterPosition > 0 && types[h.adapterPosition - 1] == h.itemViewType;
      var nextSame := h.adapterPosition < |types| - 1 && types[h.adapterPosition + 1] == h.itemViewType;
      var (g, r) := (style.groupedCornerRadius, style.regularCornerRadius);
      ClipFor(dec, types, list, child) == Some(ClipDraw(
        RectF(x, y, x + t.width as real, y + t.height as real),
        if h.itemViewType in dec.primaryViewTypes then
          Corners(r, if prevSame then g else r, if nextSame then g else r, r)
        else
          Corners(if prevSame then g else r, r, r, if nextSame then g else r),
        if h.itemViewType in dec.primaryViewTypes then PrimaryBackground else SecondaryBackground,
        Rect(0, 0, list.width, list.height)))
  {
  }

  /**
   * `onDraw`: walk the children in order; skip those without a holder, of a
   * type that is not targeted, or without a position; for the others clip
   * to the target's rounded rectangle and draw the type's background over
   * the whole list. Without an adapter nothing is drawn.
   */
  method OnDraw(dec: Decoration, adapter: Option<seq<int>>, list: ListView, children: seq<ChildView>)
    returns (ops: seq<ClipDraw>)
    requires adapter.Some? ==> ChildrenKnown(adapter.value, children)
    ensures adapter.None? ==> ops == []
    ensures adapter.Some? ==> ops == DrawOps(dec, adapter.value, list, children)
  {
    ops := [];
    if adapter.None? {
      return;
    }
    var types := adapter.value;
    for i := 0 to |children|
      invariant ops == DrawOps(dec, types, list, children[..i])
    {
      DrawOpsStep(dec, types, list, children, i);
      var child := children[i];
      if child.holder.None? {
        continue;
      }
      var itemViewType := child.holder.value.itemViewType;
      if itemViewType !in dec.TargetViewTypes() {
        assert ClipFor(dec, types, list, child).None?;
        continue;
      }
      var position := child.holder.value.adapterPosition;
      if position == NO_POSITION {
        assert ClipFor(dec, types, list, child).None?;
        continue;
      }
      var rel := RelativeTo(child.target.box, child.target.parents, list.id);
      var x := rel.x as real;
      var y := rel.y as real + child.translationY;
      var prevItemIsSameType := position > 0 && types[position - 1] == itemViewType;
      var nextItemIsSameType := position < |types| - 1 && types[position + 1] == itemViewType;
      var rect := RectF(x, y, x + child.target.width as real, y + child.target.height as real);
      var radii :=
        if itemViewType in dec.primaryViewTypes then
          Corners(dec.style.regularCornerRadius,
                  if prevItemIsSameType then dec.style.groupedCornerRadius else dec.style.regularCornerRadius,
                  if nextItemIsSameType then dec.style.groupedCornerRadius else dec.style.regularCornerRadius,
                  dec.style.regularCornerRadius)
        else
          Corners(if prevItemIsSameType then dec.style.groupedCornerRadius else dec.style.regularCornerRadius,
                  dec.style.regularCornerRadius,
                  dec.style.regularCornerRadius,
                  if nextItemIsSameType then dec.style.groupedCornerRadius else dec.style.regularCornerRadius);
      var background := if itemViewType in dec.primaryViewTypes then PrimaryBackground else SecondaryBackground;
      ClipForDecorated(dec, types, list, child);
      ops := ops + [ClipDraw(rect, radii, background, Rect(0, 0, list.width, list.height))];
    }
    assert children[..|children|] == children;
  }
}
