/** The status bar widget: a progress value with a minimum and a maximum
    (not confined to them), and the synchronisation pass that sizes the
    widget's inner child nodes from that progress. */
module StatusBar {
  import opened BevyMath

  /** Which axis of the inner node grows with progress. */
  datatype Direction = Horizontal | Vertical

  /** A layout length of the host UI. */
  datatype Val = Undefined | Auto | Px(px: real) | Percent(percent: real)

  /** The two-dimensional size of a node's style. */
  datatype Size = Size(width: Val, height: Val)

  /** A direct child of a status bar entity, as the synchronisation sees it:
      either it carries the inner-bar tag and a style (whose size the pass
      rewrites), or it is anything else (which the pass skips). */
  datatype Child = Other | Inner(size: Size)

  /** The dimension of `size` that `direction` drives. */
  function Driven(size: Size, direction: Direction): (v: Val)
  {
    match direction
    case Horizontal => size.width
    case Vertical => size.height
  }

  /** The dimension of `size` that `direction` leaves alone. */
  function Across(size: Size, direction: Direction): (v: Val)
  {
    match direction
    case Horizontal => size.height
    case Vertical => size.width
  }

  /** Replaces the driven dimension of `size` by `value`: the driven
      dimension reads back as `value`, the other one is kept. */
  function Resize(size: Size, direction: Direction, value: Val): (r: Size)
    ensures Driven(r, direction) == value
    ensures Across(r, direction) == Across(size, direction)
  {
    match direction
    case Horizontal => Size(value, size.height)
    case Vertical => Size(size.width, value)
  }

  /** A size is determined by its driven and its other dimension, so writing
      back what was read changes nothing and a second write overrides the
      first. */
  lemma ResizeLaws(size: Size, direction: Direction, v: Val, w: Val)
    ensures Resize(size, direction, Driven(size, direction)) == size
    ensures Resize(Resize(size, direction, v), direction, w) == Resize(size, direction, w)
  {
  }

  class StatusBarWidget {
    var progress: real
    var min: real
    var max: real
    var direction: Direction

    /** The bounds are ordered; both constructors establish it and no
        operation changes the bounds. */
    ghost predicate Valid()
      reads this
    {
      min <= max
    }

    /** A new widget with the given progress and bounds, growing
        horizontally. The progress itself is not checked against the
        bounds; crossed bounds abort, so callers must order them. */
    constructor (progress: real, min: real, max: real)
      requires min <= max
      ensures Valid()
      ensures this.progress == progress && this.min == min && this.max == max
      ensures direction == Horizontal
    {
      this.progress := progress;
      this.min := min;
      this.max := max;
      direction := Horizontal;
    }

    /** The derived default: everything zero, growing horizontally. */
    constructor Default()
      ensures Valid()
      ensures progress == 0.0 && min == 0.0 && max == 0.0
      ensures direction == Horizontal
    {
      progress, min, max := 0.0, 0.0, 0.0;
      direction := Horizontal;
    }

    /** The stored progress. */
    function GetProgress(): (p: real)
      reads this
      ensures p == progress
    {
      progress
    }

    /** Stores `value` when it lies within the bounds. A value below the
        minimum stores 0.0 and a value above the maximum stores 1.0, the
        literal numbers and not the bounds, so the stored progress may end
        up outside the bounds. Nothing but the progress changes. */
    method SetProgress(value: real)
      requires Valid()
      modifies this
      ensures Valid()
      ensures min <= value <= max ==> progress == value
      ensures value < min ==> progress == 0.0
      ensures value > max ==> progress == 1.0
      ensures min == old(min) && max == old(max) && direction == old(direction)
    {
      if value >= min && value <= max {
        progress := value;
      } else if value < min {
        progress := 0.0;
      } else if value > max {
        progress := 1.0;
      } else {
        // The abort arm of the source, unreachable for any bounds, ordered
        // or not: over reals a value that is not within them is below the
        // minimum or above the maximum.
        assert false;
      }
    }

    /** The share of its parent, in percent, that an inner node is given:
        0 at the minimum, 100 at the maximum, and within 0 to 100 exactly
        when the progress lies within the bounds. Nothing clamps it. */
    function FillPercent(): (r: real)
      reads this
      requires min < max
      ensures progress == min ==> r == 0.0
      ensures progress == max ==> r == 100.0
      ensures min <= progress <= max <==> 0.0 <= r <= 100.0
    {
      MapRangeEndpoints((min, max), (0.0, 100.0));
      MapRangeWithin(progress, (min, max), (0.0, 100.0));
      MapRange(progress, (min, max), (0.0, 100.0))
    }

    /** A child is syncable against this widget when the range mapping is
        defined for it: children without an inner style never map. */
    predicate CanSync(child: Child)
      reads this
    {
      child.Inner? ==> min < max
    }

    /** A child after one synchronisation against this widget: a child
        without an inner style stays as it was; an inner child's driven
        dimension becomes the fill percentage and its other dimension is
        kept. */
    function Synced(child: Child): (r: Child)
      reads this
      requires CanSync(child)
      ensures child.Other? ==> r == child
      ensures child.Inner? ==>
        && r.Inner?
        && Driven(r.size, direction) == Percent(FillPercent())
        && Across(r.size, direction) == Across(child.size, direction)
    {
      match child
      case Other => Other
      case Inner(size) => Inner(Resize(size, direction, Percent(FillPercent())))
    }
  }

  /** Synchronising twice against an unchanged widget gives what one pass
      gives, so only the most recent pass decides an inner node's size. */
  lemma SyncedIdempotent(widget: StatusBarWidget, child: Child)
    requires widget.CanSync(child)
    ensures widget.CanSync(widget.Synced(child))
    ensures widget.Synced(widget.Synced(child)) == widget.Synced(child)
  {
  }

  /** Rewrites, in place, the driven dimension of every inner child of
      `widget` to the widget's fill percentage; other children and the
      other dimension are left as they were. */
  method SyncChildren(widget: StatusBarWidget, children: array<Child>)
    requires forall i :: 0 <= i < children.Length ==> widget.CanSync(children[i])
    modifies children
    ensures forall i :: 0 <= i < children.Length ==>
      widget.CanSync(old(children[i])) && children[i] == widget.Synced(old(children[i]))
  {
    for i := 0 to children.Length
      invariant forall j :: 0 <= j < i ==> children[j] == widget.Synced(old(children[j]))
      invariant forall j :: i <= j < children.Length ==> children[j] == old(children[j])
    {
      match children[i]
      case Inner(size) =>
        var newValue := Percent(MapRange(widget.GetProgress(), (widget.min, widget.max), (0.0, 100.0)));
        children[i] := Inner(
          match widget.direction
          case Horizontal => Size(newValue, size.height)
          case Vertical => Size(size.width, newValue));
      case Other =>
    }
  }

  /** One result of the widget query: a widget, whether it changed since the
      last pass, and its direct children. */
  datatype QueryItem = QueryItem(widget: StatusBarWidget, changed: bool, children: array<Child>)

  /** Every child entity has one parent, so no two widgets share children. */
  predicate DistinctChildren(items: seq<QueryItem>)
  {
    forall i, j :: 0 <= i < j < |items| ==> items[i].children != items[j].children
  }

  /** Every changed widget can be mapped onto each of its children. */
  predicate Syncable(items: seq<QueryItem>)
    reads set i | 0 <= i < |items| :: items[i].widget
    reads set i | 0 <= i < |items| :: items[i].children
  {
    forall i, j :: 0 <= i < |items| && 0 <= j < items[i].children.Length && items[i].changed ==>
      items[i].widget.CanSync(items[i].children[j])
  }

  /** One synchronisation pass: the children of every changed widget are
      synchronised against it, and the children of unchanged widgets are
      not written. */
  method UpdateStatusBars(items: seq<QueryItem>)
    requires DistinctChildren(items)
    requires Syncable(items)
    modifies set i | 0 <= i < |items| :: items[i].children
    ensures forall i, j :: 0 <= i < |items| && 0 <= j < items[i].children.Length && !items[i].changed ==>
      items[i].children[j] == old(items[i].children[j])
    ensures forall i, j :: 0 <= i < |items| && 0 <= j < items[i].children.Length && items[i].changed ==>
      items[i].widget.CanSync(old(items[i].children[j])) &&
      items[i].children[j] == items[i].widget.Synced(old(items[i].children[j]))
  {
    for k := 0 to |items|
      invariant forall i, j :: 0 <= i < k && 0 <= j < items[i].children.Length && !items[i].changed ==>
        items[i].children[j] == old(items[i].children[j])
      invariant forall i, j :: 0 <= i < k && 0 <= j < items[i].children.Length && items[i].changed ==>
        items[i].widget.CanSync(old(items[i].children[j])) &&
        items[i].children[j] == items[i].widget.Synced(old(items[i].children[j]))
      invariant forall i, j :: k <= i < |items| && 0 <= j < items[i].children.Length ==>
        items[i].children[j] == old(items[i].children[j])
    {
      if items[k].changed {
        SyncChildren(items[k].widget, items[k].children);
      }
    }
  }

  /** A bar at 75 of 0..150 growing horizontally: after a pass its inner
      node is half as wide as its parent and keeps its height. */
  method HalfFullBar() returns (child: Child)
    ensures child == Inner(Size(Percent(50.0), Percent(100.0)))
  {
    var widget := new StatusBarWidget(75.0, 0.0, 150.0);
    var children := new Child[] [Inner(Size(Percent(0.0), Percent(100.0)))];
    ghost var before := children[0];
    var items := [QueryItem(widget, true, children)];
    UpdateStatusBars(items);
    assert items[0].children[0] == widget.Synced(before);
    assert widget.FillPercent() == 50.0;
    child := children[0];
  }

  /** The same bar, not marked changed: the pass writes nothing. */
  method UnchangedBar() returns (child: Child)
    ensures child == Inner(Size(Percent(0.0), Percent(100.0)))
  {
    var widget := new StatusBarWidget(75.0, 0.0, 150.0);
    var children := new Child[] [Inner(Size(Percent(0.0), Percent(100.0))), Other];
    ghost var before := children[0];
    var items := [QueryItem(widget, false, children)];
    UpdateStatusBars(items);
    assert items[0].children[0] == before;
    child := children[0];
  }

  /** Setting -10 on a 0..1 bar stores 0.0, and the inner node shrinks to
      nothing; a child without an inner style is skipped. */
  method UnderflowBar() returns (stored: real, child: Child, other: Child)
    ensures stored == 0.0
    ensures child == Inner(Size(Percent(0.0), Auto))
    ensures other == Other
  {
    var widget := new StatusBarWidget(-10.0, 0.0, 1.0);
    widget.SetProgress(-10.0);
    stored := widget.GetProgress();
    var children := new Child[] [Other, Inner(Size(Px(30.0), Auto))];
    ghost var before := children[..];
    var items := [QueryItem(widget, true, children)];
    UpdateStatusBars(items);
    assert items[0].children[0] == widget.Synced(before[0]);
    assert items[0].children[1] == widget.Synced(before[1]);
    assert widget.FillPercent() == 0.0;
    child, other := children[1], children[0];
  }

  /** Setting 2 on a 0..1 bar stores 1.0, and the inner node fills its
      parent. */
  method OverflowBar() returns (stored: real, child: Child)
    ensures stored == 1.0
    ensures child == Inner(Size(Percent(100.0), Percent(100.0)))
  {
    var widget := new StatusBarWidget(2.0, 0.0, 1.0);
    widget.SetProgress(2.0);
    stored := widget.GetProgress();
    var children := new Child[] [Inner(Size(Percent(0.0), Percent(100.0)))];
    ghost var before := children[0];
    var items := [QueryItem(widget, true, children)];
    UpdateStatusBars(items);
    assert items[0].children[0] == widget.Synced(before);
    assert widget.FillPercent() == 100.0;
    child := children[0];
  }

  /** On a 5..10 bar, setting 20 stores the literal 1.0, which lies below
      the minimum, so the inner node is given a negative width: stored
      progress is not confined to the bounds, nor the percentage to 0..100. */
  method SnapLeavesBounds() returns (stored: real, child: Child)
    ensures stored == 1.0 && stored < 5.0
    ensures child == Inner(Size(Percent(-80.0), Percent(100.0)))
  {
    var widget := new StatusBarWidget(7.0, 5.0, 10.0);
    widget.SetProgress(20.0);
    stored := widget.GetProgress();
    var children := new Child[] [Inner(Size(Percent(40.0), Percent(100.0)))];
    ghost var before := children[0];
    var items := [QueryItem(widget, true, children)];
    UpdateStatusBars(items);
    assert items[0].children[0] == widget.Synced(before);
    assert widget.FillPercent() == -80.0;
    child := children[0];
  }
}
