# Status bar widget

A model of the status bar widget of the `bevy_widget` crate: a progress,
health or mana bar whose state is a progress value with a minimum, a maximum
and a growth direction, and whose synchronisation pass sizes the bar's inner
child nodes from that progress.

- `map_range.dfy` (module `BevyMath`): the range mapping the widget imports
  from the engine's math crate, taken to be the unclamped linear formula,
  with its endpoint, order, inverse and range-preservation properties.
- `status_bar.dfy` (module `StatusBar`): the direction, layout length and
  size values; the `StatusBarWidget` class with its two constructors, the
  progress accessor and the snapping setter; the per-widget and the
  whole-query synchronisation methods, which rewrite children in place; and
  client methods that run concrete bars through construction, setting and a
  pass.

Floats (`f32`) are modelled as `real`. A child of a status bar is either an
inner node with a style, holding a `Size`, or anything else. The engine's
change filter is a `changed` flag on each query item.

The field documentation calls min..max the valid range of progress
(`crates/bevy_widget/src/status_bar.rs:22-28`), but the constructor does not
check the progress it is given, and the setter stores the literal `0.0`
below the minimum and `1.0` above the maximum. So a stored progress can lie
outside the bounds and, with the unclamped mapping assumed below, a fill
percentage outside 0..100. The model keeps
this behaviour and does not claim the range as an invariant;
`SnapLeavesBounds` shows a bar at -80%.

## Model

| member | source | states |
|---|---|---|
| BevyMath.MapRange | crates/bevy_widget/src/status_bar.rs:97-101 | the mapped value lies on the straight line through (from.0, to.0) and (from.1, to.1); a degenerate source interval is excluded |
| BevyMath.MapRangeEndpoints | crates/bevy_widget/src/status_bar.rs:97-101 | the minimum maps to the start of the target interval and the maximum to its end |
| BevyMath.MapRangeMonotonic | crates/bevy_widget/src/status_bar.rs:97-101 | for increasing intervals, x < y iff the images are in that order, strictly and non-strictly |
| BevyMath.MapRangeInverse | crates/bevy_widget/src/status_bar.rs:14 | mapping back from the target interval to the source interval returns the original value |
| BevyMath.MapRangeWithin | crates/bevy_widget/src/status_bar.rs:97-101 | a value lands within the target interval iff it lies within the source interval; nothing clamps |
| StatusBar.Resize | crates/bevy_widget/src/status_bar.rs:103-106 | the driven dimension (width when horizontal, height when vertical) reads back as the new value and the other dimension is kept |
| StatusBar.ResizeLaws | crates/bevy_widget/src/status_bar.rs:103-106 | writing back the driven dimension changes nothing; a second write overrides the first |
| StatusBar.StatusBarWidget.constructor | crates/bevy_widget/src/status_bar.rs:53-64 | crossed bounds abort (precondition min <= max); progress, min and max are stored as given without a range check, and the direction is horizontal |
| StatusBar.StatusBarWidget.Default | crates/bevy_widget/src/status_bar.rs:19-44 | the derived default is zero progress and bounds with horizontal direction, and has ordered bounds |
| StatusBar.StatusBarWidget.GetProgress | crates/bevy_widget/src/status_bar.rs:67-69 | returns the stored progress; reads the widget and changes nothing |
| StatusBar.StatusBarWidget.SetProgress | crates/bevy_widget/src/status_bar.rs:75-86 | an in-range value is stored exactly; below the minimum stores 0.0, above the maximum stores 1.0; the abort arm is unreachable; bounds and direction are unchanged, so the ordered bounds persist |
| StatusBar.StatusBarWidget.FillPercent | crates/bevy_widget/src/status_bar.rs:97-101 | the inner node's percentage is 0 at the minimum and 100 at the maximum, and within 0..100 exactly when progress is within the bounds |
| StatusBar.StatusBarWidget.Synced | crates/bevy_widget/src/status_bar.rs:95-106 | a child without an inner style is left alone; an inner child's driven dimension becomes the fill percentage and its other dimension is kept |
| StatusBar.SyncedIdempotent | crates/bevy_widget/src/status_bar.rs:96-106 | a second pass against an unchanged widget writes what the first wrote |
| StatusBar.SyncChildren | crates/bevy_widget/src/status_bar.rs:94-108 | every child of the widget, in place, becomes its synchronised form: inner children resized along the widget's axis, all others untouched |
| StatusBar.UpdateStatusBars | crates/bevy_widget/src/status_bar.rs:89-110 | children of changed widgets are synchronised; children of unchanged widgets are not written |
| StatusBar.HalfFullBar | crates/bevy_widget/src/status_bar.rs:96-106 | a horizontal bar at 75 of 0..150 gives its inner node width 50% and keeps its height of 100% |
| StatusBar.UnchangedBar | crates/bevy_widget/src/status_bar.rs:90-93 | a widget not marked changed leaves its inner child as it was |
| StatusBar.UnderflowBar | crates/bevy_widget/src/status_bar.rs:79-80 | setting -10 on a 0..1 bar stores 0.0 and yields width 0%; a child without an inner style is skipped |
| StatusBar.OverflowBar | crates/bevy_widget/src/status_bar.rs:82 | setting 2 on a 0..1 bar stores 1.0 and yields width 100% |
| StatusBar.SnapLeavesBounds | crates/bevy_widget/src/status_bar.rs:74-86 | setting 20 on a 5..10 bar stores 1.0, below the minimum, and yields width -80% |

## Left out

- Engine glue: plugin registration, system scheduling, component reflection and the example scene. They hold no logic.
- Entity queries, change detection and the parent/child hierarchy lookup. A pass is given a sequence of query items, each a widget, a `changed` flag and the array of its direct children. Distinct widgets have distinct child arrays.
- Style fields other than `size`. The pass reads and writes only the size.
- IEEE `f32` arithmetic: rounding, infinities and NaN. A NaN progress would reach the abort arm of the setter. NaN bounds would pass the constructor's check.
- BevyMath.MapRange: the helper's body lives in the engine's math crate, outside the modelled file. The model takes it to be `to.0 + (value - from.0) * (to.1 - to.0) / (from.1 - from.0)` with no clamping; the percentages outside 0..100 (as in `SnapLeavesBounds`) rest on that assumption.
- StatusBar.SyncChildren: requires `min < max` whenever an inner child is present. With `min == max`, which the constructor and the default allow, the mapping divides by zero: NaN when progress equals the bounds, ±infinity otherwise. Either way it writes a non-finite percentage that `real` cannot represent.
- StatusBar.UpdateStatusBars: the same `min < max` requirement for every changed widget that has an inner child, for the same reason.
- StatusBar.StatusBarWidget.FillPercent: defined only for `min < max`, for the same reason.
- StatusBar.StatusBarWidget.constructor: the abort on crossed bounds is a precondition, not a modelled error value, because the abort is not recoverable.
- The direction has no public setter in the source; the model's `direction` field is left writable, and the vertical case is covered by the contracts rather than by a client method.
- The warning promised in the setter's comment is never emitted by the source, so it is not modelled.
