# SmartTabLayout in Dafny

A model of the decision layer of SmartTabLayout. SmartTabLayout is an Android
tab strip that follows a `ViewPager`. The model covers:

- **The tab strip (`SmartTabStrip`).** It holds the selection reported by the
  pager: selected position, offset toward the next page, and last settled
  position. It also holds the indicator and divider colorizer and the
  indication interpolator. Each draw pass emits the full-width underline, the
  selection indicator and the separators between tabs.
  - `Strip.Draw` is the specification of a draw pass: a list of draw commands,
    plus the exception that ended the pass, if one did.
  - `Strip.SmartTabStrip.OnDraw` is the imperative pass, proved equal to `Draw`.
- **The scrolling container (`SmartTabLayout`).**
  - It builds one tab per adapter page.
  - It turns pager events into strip updates and scroll targets, and marks
    exactly the selected page's tab as selected.
  - It forwards every accepted event to the application's listener, and maps a
    tab click to a page.
  - Its constructor refuses distributing tabs evenly together with an
    always-centred indicator.
- **The indicator interpolators (`SmartTabIndicationInterpolator`).**
  - A registry maps ids 0 and 1 to the shared smart and linear instances.
  - The linear interpolator moves both edges with the offset.
  - The smart interpolator moves the edges along an accelerating and a
    decelerating curve, and thins the indicator while it is stretched.
- **The null-safe view accessors (`Utils`).**
- **The pager items (`FragmentPagerItem`, v4 and v13).** Each stores its page's
  position in a fragment arguments bundle.

Java semantics are written out in module `JavaLang`:

- `(int)` casts truncate toward zero (`Trunc`).
- `Math.round` is `floor(x + 0.5)` (`Round`).
- `int / 2` and `int %` truncate toward zero (`Half`, `Rem`).
- Exceptions are values of `Exception`.

Every operation that can throw returns a `Result`, an `Option<Exception>` or an
`Outcome`. Examples: an empty colour array in a circular lookup (`%` by zero),
a null tab view, an unknown interpolator id, or a bundle that is null.

Offsets and ratios are reals. Colours are ARGB byte tuples. Tabs are values
`Tab(id, left, right, width, selected)`, where `id` stands for the view
object's identity. A bundle is a class over a `map<string, Value>`.

Facts about the code that the model keeps:

- `blendColors` truncates each channel with an `(int)` cast
  (SmartTabStrip.java:163), and `Color.rgb` makes the result opaque.
- The draw pass blends only when the two indicator colours differ
  (SmartTabStrip.java:236-238).
- The separators are drawn for every pair of neighbouring tabs; their height
  is `(int) (clamp(dividerHeight) * height)` with no further guard
  (SmartTabStrip.java:215, 273-280).
- The indicator is drawn along the bottom edge only, from the tab's `left`
  and `right` (SmartTabStrip.java:239-263).
- The indicator's `left <= right` is proved for the linear interpolator only.
  For the smart interpolator it depends on the foreign curves.

Module layout:

| file | module | contents |
|---|---|---|
| `wrappers.dfy` | `Wrappers` | `Option`, `Result`, `Outcome` |
| `java_lang.dfy` | `JavaLang` | exceptions, `Trunc`, `Round`, `Half`, `Rem` |
| `colors.dfy` | `Colors` | `blendColors` and the two colorizers |
| `interpolation.dfy` | `Interpolation` | the interpolator registry, edges and thickness |
| `strip.dfy` | `Strip` | the draw pass and class `SmartTabStrip` |
| `layout.dfy` | `Layout` | scroll targets, population, class `SmartTabLayout`, its constructor |
| `view_utils.dfy` | `ViewUtils` | the `Utils` accessors |
| `bundles.dfy` | `Bundles` | the arguments bundle |
| `pager_item_v4.dfy` | `PagerItemV4` | the v4 `FragmentPagerItem` |
| `pager_item_v13.dfy` | `PagerItemV13` | the v13 `FragmentPagerItem` |

## Model

| member | source | states |
|---|---|---|
| JavaLang.Trunc | library/src/main/java/com/ogaclejapan/smarttablayout/SmartTabStrip.java:163 | `(int) x` truncates toward zero: `r <= x < r + 1` for `x >= 0`, `r - 1 < x <= r` for negative `x` |
| JavaLang.Round | library/src/main/java/com/ogaclejapan/smarttablayout/SmartTabLayout.java:405 | `Math.round(x)` is the integer within half a unit of `x`, ties rounding up |
| JavaLang.Half | library/src/main/java/com/ogaclejapan/smarttablayout/SmartTabLayout.java:374 | `a / 2` on `int` truncates toward zero: `a` is `2h` or `2h + 1` when `a >= 0`, `2h` or `2h - 1` when negative |
| JavaLang.Rem | library/src/main/java/com/ogaclejapan/smarttablayout/SmartTabStrip.java:290 | `a % n` on `int` is the Euclidean remainder for `a >= 0`; for negative `a` it is in `(-n, 0]`, and 0 exactly when `n` divides `a` |
| Colors.MixChannel | library/src/main/java/com/ogaclejapan/smarttablayout/SmartTabStrip.java:159-163 | one channel of the blend lies between the two inputs' channels; ratio 1 gives the first, ratio 0 the second, equal inputs are kept |
| Colors.BlendColors | library/src/main/java/com/ogaclejapan/smarttablayout/SmartTabStrip.java:158-164 | the blend is opaque; each of red, green and blue lies between the inputs' channels; ratio 1 gives color1's channels, ratio 0 gives color2's |
| Colors.CircularLookup | library/src/main/java/com/ogaclejapan/smarttablayout/SmartTabStrip.java:289-296 | `colors[position % length]`: an empty array throws `ArithmeticException`; a non-negative position gets the colour at its remainder; a negative one succeeds only on a multiple of the length, and otherwise throws `ArrayIndexOutOfBoundsException` |
| Colors.CircularPeriodic | library/src/main/java/com/ogaclejapan/smarttablayout/SmartTabStrip.java:289-296 | positions a whole number of periods apart get the same colour |
| Colors.SingleColorEverywhere | library/src/main/java/com/ogaclejapan/smarttablayout/SmartTabStrip.java:298-300 | with a single colour, every position gets that colour, negative ones included, since `position % 1` is 0 |
| Colors.SimpleColorizerTotal | library/src/main/java/com/ogaclejapan/smarttablayout/SmartTabStrip.java:283-305 | a default colorizer with non-empty arrays answers every non-negative position, for the indicator and the divider |
| Colors.IndicatorColor | library/src/main/java/com/ogaclejapan/smarttablayout/SmartTabStrip.java:216-218 | the definition of `tabColorizer.getIndicatorColor(position)`: the custom colorizer answers directly, the default one by `CircularLookup`; `CircularLookup`, `CircularPeriodic` and `SimpleColorizerTotal` state what it returns, `IndicatorAtRest`, `IndicatorMidScroll` and `DrawFaults` how the draw pass uses it |
| Colors.DividerColor | library/src/main/java/com/ogaclejapan/smarttablayout/SmartTabStrip.java:216-218 | the definition of `tabColorizer.getDividerColor(position)`; `CircularLookup` and `SimpleColorizerTotal` state what it returns, `SeparatorsShape`, `DividersFault` and `DrawFaults` how the separators use it |
| Interpolation.Of | library/src/main/java/com/ogaclejapan/smarttablayout/SmartTabIndicationInterpolator.java:31-40 | success exactly for ids 0 and 1; 0 gives the shared `SMART` instance, 1 the shared `LINEAR` instance; any other id fails with `IllegalArgumentException` carrying the id |
| Interpolation.ThicknessInverse | library/src/main/java/com/ogaclejapan/smarttablayout/SmartTabIndicationInterpolator.java:76-79 | the linear interpolator has the default thickness; the smart thickness times `1 - leftEdge + rightEdge` is 1 |
| Interpolation.LinearIndication | library/src/main/java/com/ogaclejapan/smarttablayout/SmartTabIndicationInterpolator.java:83-95 | the linear left and right edges both equal the offset, and its thickness is 1 |
| Interpolation.SmartEdges | library/src/main/java/com/ogaclejapan/smarttablayout/SmartTabIndicationInterpolator.java:52-74 | the shared smart instance's edges are the accelerate and decelerate curves at factor 3.0 |
| Interpolation.SmartThicknessFullWhenEdgesMeet | library/src/main/java/com/ogaclejapan/smarttablayout/SmartTabIndicationInterpolator.java:76-79 | smart thickness is 1 when the two edges coincide |
| Interpolation.SmartThinsWhileStretched | library/src/main/java/com/ogaclejapan/smarttablayout/SmartTabIndicationInterpolator.java:76-79 | while the right edge leads the left, the smart thickness is strictly between 0 and 1 |
| Interpolation.SmartThickensWhileLeftLeads | library/src/main/java/com/ogaclejapan/smarttablayout/SmartTabIndicationInterpolator.java:76-79 | while the left edge leads by less than 1, the smart thickness exceeds 1 |
| Interpolation.LeftEdge | library/src/main/java/com/ogaclejapan/smarttablayout/SmartTabIndicationInterpolator.java:66-88 | the definition of `getLeftEdge`: the offset for the linear interpolator, the accelerate curve for the smart one; `LinearIndication` and `SmartEdges` state its value |
| Interpolation.RightEdge | library/src/main/java/com/ogaclejapan/smarttablayout/SmartTabIndicationInterpolator.java:71-93 | the definition of `getRightEdge`: the offset for the linear interpolator, the decelerate curve for the smart one; `LinearIndication` and `SmartEdges` state its value |
| Interpolation.DefaultThickness | library/src/main/java/com/ogaclejapan/smarttablayout/SmartTabIndicationInterpolator.java:46-48 | the definition of the inherited `getThickness`: always 1; `ThicknessInverse` and `LinearIndication` state that the linear interpolator uses it |
| Interpolation.Thickness | library/src/main/java/com/ogaclejapan/smarttablayout/SmartTabIndicationInterpolator.java:46-79 | the definition of `getThickness` per interpolator; `ThicknessInverse` states it is 1 for the linear one and the reciprocal of `1 - L + R` for the smart one, and `SmartThicknessFullWhenEdgesMeet`, `SmartThinsWhileStretched` and `SmartThickensWhileLeftLeads` bound it |
| Strip.IndicatorPass | library/src/main/java/com/ogaclejapan/smarttablayout/SmartTabStrip.java:227-265 | the indicator part of a draw pass; a painted step is an indicator rectangle |
| Strip.Clamp01 | library/src/main/java/com/ogaclejapan/smarttablayout/SmartTabStrip.java:215 | the divider height fraction is clamped into [0, 1] and left alone inside it |
| Strip.DividersShape | library/src/main/java/com/ogaclejapan/smarttablayout/SmartTabStrip.java:273-280 | separators are drawn in order, divider `i` at tab `i`'s right edge in divider colour `i`; without a fault all are drawn; a fault is the first failing colour lookup |
| Strip.DividersSticky | library/src/main/java/com/ogaclejapan/smarttablayout/SmartTabStrip.java:273-280 | once a separator's colour lookup has thrown, no further separator is drawn |
| Strip.DividersFault | library/src/main/java/com/ogaclejapan/smarttablayout/SmartTabStrip.java:273-280 | the separators throw `ArithmeticException` exactly when there is one to draw and the default colorizer has no divider colours |
| Strip.DrawOrder | library/src/main/java/com/ogaclejapan/smarttablayout/SmartTabStrip.java:220-280 | without a fault the underline is drawn exactly once, before the indicator iff the indicator is in front; there is an indicator iff there are children; the separators come last; with no children the pass is the underline alone |
| Strip.DividerPlacement | library/src/main/java/com/ogaclejapan/smarttablayout/SmartTabStrip.java:267-280 | without a fault the pass ends with exactly its `childCount - 1` separators, and no separator comes before them |
| Strip.SeparatorsShape | library/src/main/java/com/ogaclejapan/smarttablayout/SmartTabStrip.java:273-280 | completed separators: there are `childCount - 1`; divider `i` is at tab `i`'s right edge in divider colour `i`, `px = (int) (clamp(dividerHeight) * height)` tall from `(height - px) / 2` |
| Strip.DrawFaults | library/src/main/java/com/ogaclejapan/smarttablayout/SmartTabStrip.java:227-280 | a pass throws: `NullPointerException` for a selected position without a child, `ArithmeticException` for empty indicator colours, then `ArithmeticException` for empty divider colours with two or more children; otherwise it completes |
| Strip.IndicatorAtRest | library/src/main/java/com/ogaclejapan/smarttablayout/SmartTabStrip.java:228-256 | at offset 0 or on the last tab the indicator spans the selected tab, in its colour, from `height - indicatorThickness` to `height` |
| Strip.IndicatorMidScroll | library/src/main/java/com/ogaclejapan/smarttablayout/SmartTabStrip.java:234-251 | mid-scroll the indicator is the travelling indicator for the two tabs' indicator colours |
| Strip.TravellingShape | library/src/main/java/com/ogaclejapan/smarttablayout/SmartTabStrip.java:234-256 | the travelling indicator has `left == (int) (L * next.left + (1 - L) * current.left)`, and `right` likewise with R; each edge stays between the two tabs' edges while L and R are in [0, 1]; it is `indicatorThickness * thickness(offset)` tall about the at-rest centre line; its colour is `blendColors(next, current, offset)` unless the two colours are equal |
| Strip.IndicatorRectShape | library/src/main/java/com/ogaclejapan/smarttablayout/SmartTabStrip.java:254-256 | the indicator rectangle is `thickness` tall and centred on `height - indicatorThickness / 2` |
| Strip.EdgeMixBetween | library/src/main/java/com/ogaclejapan/smarttablayout/SmartTabStrip.java:247-250 | an edge truncated from a mix with a part in [0, 1] lands between the two tabs' edges; it is the blended channel's fact, `Colors.MixTrunc`, for edges |
| Strip.LinearIndicatorOrdered | library/src/main/java/com/ogaclejapan/smarttablayout/SmartTabStrip.java:244-250 | with the linear interpolator the indicator keeps `left <= right` mid-scroll when both tabs do |
| Strip.LinearHalfwayExample | library/src/main/java/com/ogaclejapan/smarttablayout/SmartTabStrip.java:244-250 | tabs [0,50], [50,110], [110,150], linear, halfway from the first to the second: the indicator spans [25, 80] |
| Strip.SmartTabStrip.constructor | library/src/main/java/com/ogaclejapan/smarttablayout/SmartTabStrip.java:127-143 | a strip with no children and no custom colorizer, settled on position 0, with the given style, colours and interpolator |
| Strip.SmartTabStrip.SetCustomTabColorizer | library/src/main/java/com/ogaclejapan/smarttablayout/SmartTabStrip.java:171-174 | only the custom colorizer changes; the pass then uses it when present, the default colorizer otherwise |
| Strip.SmartTabStrip.SetSelectedIndicatorColors | library/src/main/java/com/ogaclejapan/smarttablayout/SmartTabStrip.java:176-181 | the custom colorizer is removed and the indicator colours replaced; the pass then uses the default colorizer with the new colours |
| Strip.SmartTabStrip.SetDividerColors | library/src/main/java/com/ogaclejapan/smarttablayout/SmartTabStrip.java:183-188 | the custom colorizer is removed and the divider colours replaced; the pass then uses the default colorizer with the new colours |
| Strip.SmartTabStrip.OnViewPagerPageChanged | library/src/main/java/com/ogaclejapan/smarttablayout/SmartTabStrip.java:190-197 | position and offset are recorded; the last position becomes the position exactly when the offset is 0 and is unchanged otherwise; nothing else changes |
| Strip.SmartTabStrip.AddView | library/src/main/java/com/ogaclejapan/smarttablayout/SmartTabLayout.java:346 | the tab is appended to the children |
| Strip.SmartTabStrip.SetTabSelected | library/src/main/java/com/ogaclejapan/smarttablayout/SmartTabLayout.java:433 | only the selected state of child `index` changes |
| Strip.SmartTabStrip.RemoveAllViews | library/src/main/java/com/ogaclejapan/smarttablayout/SmartTabLayout.java:267 | the strip has no children |
| Strip.SmartTabStrip.OnDraw | library/src/main/java/com/ogaclejapan/smarttablayout/SmartTabStrip.java:211-281 | the imperative draw pass issues exactly the commands, and the exception, of the specification `Draw` |
| Strip.SmartTabStrip.DrawIndicator | library/src/main/java/com/ogaclejapan/smarttablayout/SmartTabStrip.java:227-265 | the indicator code, with its reassigned `left`, `right`, `color` and `thickness`, computes the specified indicator step |
| Strip.SmartTabStrip.DrawDividers | library/src/main/java/com/ogaclejapan/smarttablayout/SmartTabStrip.java:273-280 | the separator loop draws exactly the specified separators, stopping at a throwing colour lookup |
| Strip.UnderlineOf | library/src/main/java/com/ogaclejapan/smarttablayout/SmartTabStrip.java:221-224 | the definition of the thin underline along the bottom edge; `DrawOrder` and `DecorationsShape` state where it goes in a pass |
| Strip.IndicatorRect | library/src/main/java/com/ogaclejapan/smarttablayout/SmartTabStrip.java:253-263 | the definition of the indicator rectangle and its corner choice; `IndicatorRectShape` states its height and centre line |
| Strip.Travelling | library/src/main/java/com/ogaclejapan/smarttablayout/SmartTabStrip.java:234-256 | the definition of the mid-scroll indicator; `TravellingShape` states its edges, band and colour, and `LinearIndicatorOrdered` that it keeps `left <= right` for the linear interpolator |
| Strip.EdgeMix | library/src/main/java/com/ogaclejapan/smarttablayout/SmartTabStrip.java:247-250 | the definition of the `(int) (t * next + (1 - t) * current)` edge; `EdgeMixBetween` states it lies between the two edges and `EdgeMixMonotone` that it grows with them |
| Strip.DividerHeightPx | library/src/main/java/com/ogaclejapan/smarttablayout/SmartTabStrip.java:215 | the definition of `dividerHeightPx`; `SeparatorsShape` states that every separator has this height |
| Strip.Dividers | library/src/main/java/com/ogaclejapan/smarttablayout/SmartTabStrip.java:273-280 | the definition of the first `k` rounds of the separator loop; `DividersShape`, `DividersSticky` and `DividersFault` state its meaning, and `DrawDividers` is proved equal to it |
| Strip.Separators | library/src/main/java/com/ogaclejapan/smarttablayout/SmartTabStrip.java:273-280 | the definition of the whole separator loop; `SeparatorsShape` states their count, position, height and colour, and `DividerPlacement` that they come last |
| Strip.Decorations | library/src/main/java/com/ogaclejapan/smarttablayout/SmartTabStrip.java:220-271 | the definition of the underline and indicator commands in drawing order; `DecorationsShape` states their number and order |
| Strip.Draw | library/src/main/java/com/ogaclejapan/smarttablayout/SmartTabStrip.java:211-281 | the specification of a draw pass; `DrawOrder`, `DividerPlacement`, `SeparatorsShape` and `DrawFaults` state its meaning, and `OnDraw` is proved equal to it |
| Strip.SmartTabStrip.TabColorizer | library/src/main/java/com/ogaclejapan/smarttablayout/SmartTabStrip.java:216-218 | the definition of the colorizer a pass uses, the custom one when set; `SetCustomTabColorizer`, `SetSelectedIndicatorColors` and `SetDividerColors` state how it follows the setters |
| Layout.Reselected | library/src/main/java/com/ogaclejapan/smarttablayout/SmartTabLayout.java:432-434 | the selection loop keeps the number of tabs |
| Layout.CentredTarget | library/src/main/java/com/ogaclejapan/smarttablayout/SmartTabLayout.java:372-376 | in centred mode the target, less the offset, is `left + (width - width0) / 2` up to the integer-division half pixel, so the tab's centre lands where the padded first tab's centre sits at scroll 0 |
| Layout.OffsetTarget | library/src/main/java/com/ogaclejapan/smarttablayout/SmartTabLayout.java:372-378 | otherwise the target is `left + offset`, less the title offset unless the first tab is at rest |
| Layout.NoTargetOutsideTabs | library/src/main/java/com/ogaclejapan/smarttablayout/SmartTabLayout.java:365-368 | there is no scroll target exactly when the index has no child (including an empty strip) |
| Layout.ExtraOffsetFaults | library/src/main/java/com/ogaclejapan/smarttablayout/SmartTabLayout.java:401-406 | the extra offset throws `NullPointerException` exactly in centred mode mid-scroll at the last tab |
| Layout.ProportionalExtraOffset | library/src/main/java/com/ogaclejapan/smarttablayout/SmartTabLayout.java:396-399 | outside the centred mid-scroll case the extra offset `(int) (offset * width)` lies in `[0, width]` |
| Layout.CentredExtraOffset | library/src/main/java/com/ogaclejapan/smarttablayout/SmartTabLayout.java:401-406 | centred and mid-scroll, the extra offset `round(offset * (width/2 + nextWidth/2))` lies between 0 and the sum of the halves |
| Layout.ReselectedCount | library/src/main/java/com/ogaclejapan/smarttablayout/SmartTabLayout.java:432-434 | after the selection loop exactly one tab is selected when the position has a tab, none otherwise |
| Layout.PopulateShape | library/src/main/java/com/ogaclejapan/smarttablayout/SmartTabLayout.java:325-352 | tabs are added in page order, the current page's marked selected, up to the first null view; `IllegalStateException` exactly when some view is null |
| Layout.PopulateSticky | library/src/main/java/com/ogaclejapan/smarttablayout/SmartTabLayout.java:335-337 | once a null view has thrown, later pages add no tab and the outcome stays the same |
| Layout.PopulateSelectsCurrent | library/src/main/java/com/ogaclejapan/smarttablayout/SmartTabLayout.java:348-350 | from unselected views exactly the current page's tab is selected, or none when the current item is not a page |
| Layout.SmartTabLayout.constructor | library/src/main/java/com/ogaclejapan/smarttablayout/SmartTabLayout.java:124-176 | a layout with no pager and no listener, idle scroll state, scrolled to 0 |
| Layout.SmartTabLayout.SetOnPageChangeListener | library/src/main/java/com/ogaclejapan/smarttablayout/SmartTabLayout.java:239-241 | only whether an application listener is present changes |
| Layout.SmartTabLayout.ScrollToTab | library/src/main/java/com/ogaclejapan/smarttablayout/SmartTabLayout.java:364-382 | scrolls to the scroll target; without a child at the index the scroll position is unchanged |
| Layout.SmartTabLayout.OnPageScrolled | library/src/main/java/com/ogaclejapan/smarttablayout/SmartTabLayout.java:388-414 | out of range nothing changes and nothing is forwarded; in range the strip records position and offset, then the layout scrolls to the target with the extra offset and forwards the event unchanged; a throwing extra offset leaves the scroll and the log alone |
| Layout.SmartTabLayout.ExtraScroll | library/src/main/java/com/ogaclejapan/smarttablayout/SmartTabLayout.java:396-406 | the extra offset code computes `ExtraOffset`, the failure included |
| Layout.SmartTabLayout.OnPageScrollStateChanged | library/src/main/java/com/ogaclejapan/smarttablayout/SmartTabLayout.java:417-423 | records the scroll state and forwards the event unchanged |
| Layout.SmartTabLayout.OnPageSelected | library/src/main/java/com/ogaclejapan/smarttablayout/SmartTabLayout.java:426-439 | exactly the tab at the position becomes selected and the tabs are otherwise untouched; only when the last scroll state was idle does the strip settle on `(position, 0)` and the layout scroll to the tab; the event is forwarded |
| Layout.SmartTabLayout.SetViewPager | library/src/main/java/com/ogaclejapan/smarttablayout/SmartTabLayout.java:266-274 | the strip is cleared; with an adapter an idle listener is attached and the strip holds the specified population |
| Layout.SmartTabLayout.PopulateTabStrip | library/src/main/java/com/ogaclejapan/smarttablayout/SmartTabLayout.java:325-353 | the loop appends exactly the specified population to the strip, stopping with `IllegalStateException` at a null view |
| Layout.SmartTabLayout.OnClick | library/src/main/java/com/ogaclejapan/smarttablayout/SmartTabLayout.java:443-453 | the page requested is the first index whose tab is the clicked view; a view that is no tab requests nothing |
| Layout.NewSmartTabLayout | library/src/main/java/com/ogaclejapan/smarttablayout/SmartTabLayout.java:155-172 | construction fails exactly for an unknown interpolator id (`IllegalArgumentException`, raised first by the strip) or for even distribution together with a centred indicator (`UnsupportedOperationException`); otherwise the title offset is `(int) (24 * density)`, the strip holds the resolved style, interpolator, curves and colours with no children, settled on position 0 at offset 0, and the layout is idle, scrolled to 0, with no pager, no listeners and nothing forwarded |
| Layout.ScrollTarget | library/src/main/java/com/ogaclejapan/smarttablayout/SmartTabLayout.java:364-382 | the definition of the `scrollTo` argument of `scrollToTab`; `CentredTarget`, `OffsetTarget` and `NoTargetOutsideTabs` state its meaning, and `ScrollToTab` is proved to scroll there |
| Layout.ExtraOffset | library/src/main/java/com/ogaclejapan/smarttablayout/SmartTabLayout.java:396-406 | the definition of `extraOffset` in `onPageScrolled`; `ExtraOffsetFaults`, `ProportionalExtraOffset` and `CentredExtraOffset` state its meaning, and `ExtraScroll` is proved equal to it |
| Layout.Populate | library/src/main/java/com/ogaclejapan/smarttablayout/SmartTabLayout.java:325-352 | the specification of `populateTabStrip`; `PopulateShape`, `PopulateSticky` and `PopulateSelectsCurrent` state its meaning, and `PopulateTabStrip` is proved equal to it |
| Layout.TitleOffsetPx | library/src/main/java/com/ogaclejapan/smarttablayout/SmartTabLayout.java:155 | the definition of `mTitleOffset`; `NewSmartTabLayout` states that the new layout has it and `OffsetTarget` how the scroll uses it |
| Layout.StyleOf | library/src/main/java/com/ogaclejapan/smarttablayout/SmartTabStrip.java:76-138 | the definition of the strip style resolved from the attributes; `NewSmartTabLayout` states that the new strip has it |
| Layout.SmartTabLayout.Forward | library/src/main/java/com/ogaclejapan/smarttablayout/SmartTabLayout.java:410-413 | the definition of a call to the application listener when one is set, as also at 420-422 and 436-438; `OnPageScrolled`, `OnPageScrollStateChanged` and `OnPageSelected` state that each event is forwarded last |
| ViewUtils.NullViewIsZero | library/src/main/java/com/ogaclejapan/smarttablayout/Utils.java:29-81 | every accessor reads 0 for a null view, and the margin accessors do not throw for it |
| ViewUtils.WidthAccessors | library/src/main/java/com/ogaclejapan/smarttablayout/Utils.java:29-35 | width and measured width of a view are its stored ones |
| ViewUtils.UnpaddedEdges | library/src/main/java/com/ogaclejapan/smarttablayout/Utils.java:37-57 | the one-argument edges are the unpadded ones, the view's own left and right |
| ViewUtils.PaddedEdges | library/src/main/java/com/ogaclejapan/smarttablayout/Utils.java:41-57 | the padded edges are `left + paddingStart` and `right - paddingEnd`, so the padded span is the unpadded one less both paddings |
| ViewUtils.MarginSum | library/src/main/java/com/ogaclejapan/smarttablayout/Utils.java:59-81 | the horizontal margin is start plus end margin and fails exactly when they do, with `ClassCastException` for non-margin parameters and `NullPointerException` for none |
| ViewUtils.GetMeasuredWidth | library/src/main/java/com/ogaclejapan/smarttablayout/Utils.java:29-31 | the definition of `getMeasuredWidth`; `NullViewIsZero` and `WidthAccessors` state its value |
| ViewUtils.GetWidth | library/src/main/java/com/ogaclejapan/smarttablayout/Utils.java:33-35 | the definition of `getWidth`; `NullViewIsZero` and `WidthAccessors` state its value |
| ViewUtils.GetRightEdge | library/src/main/java/com/ogaclejapan/smarttablayout/Utils.java:41-46 | the definition of `getRight(v, withoutPadding)`; `NullViewIsZero`, `UnpaddedEdges` and `PaddedEdges` state its value |
| ViewUtils.GetRight | library/src/main/java/com/ogaclejapan/smarttablayout/Utils.java:37-39 | the definition of `getRight(v)`; `UnpaddedEdges` states it is the view's right edge |
| ViewUtils.GetLeftEdge | library/src/main/java/com/ogaclejapan/smarttablayout/Utils.java:52-57 | the definition of `getLeft(v, withoutPadding)`; `NullViewIsZero`, `UnpaddedEdges` and `PaddedEdges` state its value |
| ViewUtils.GetLeft | library/src/main/java/com/ogaclejapan/smarttablayout/Utils.java:48-50 | the definition of `getLeft(v)`; `UnpaddedEdges` states it is the view's left edge |
| ViewUtils.MarginParamsOf | library/src/main/java/com/ogaclejapan/smarttablayout/Utils.java:63 | the definition of the `(ViewGroup.MarginLayoutParams)` cast; `MarginSum` states its `ClassCastException` and null cases |
| ViewUtils.GetMarginStart | library/src/main/java/com/ogaclejapan/smarttablayout/Utils.java:59-65 | the definition of `getMarginStart`; `NullViewIsZero` and `MarginSum` state its value and failures |
| ViewUtils.GetMarginEnd | library/src/main/java/com/ogaclejapan/smarttablayout/Utils.java:67-73 | the definition of `getMarginEnd`; `NullViewIsZero` and `MarginSum` state its value and failures |
| ViewUtils.GetMarginHorizontally | library/src/main/java/com/ogaclejapan/smarttablayout/Utils.java:75-81 | the definition of `getMarginHorizontally`; `MarginSum` states it is the start plus the end margin, with the same failures |
| Bundles.PutThenGet | utils-v4/src/main/java/com/ogaclejapan/smarttablayout/utils/v4/FragmentPagerItem.java:54-64 | a stored `int` is present and reads back, and every other key is untouched |
| Bundles.LastPutWins | utils-v4/src/main/java/com/ogaclejapan/smarttablayout/utils/v4/FragmentPagerItem.java:66-69 | storing twice under one key keeps only the last value |
| Bundles.Bundle.constructor | utils-v4/src/main/java/com/ogaclejapan/smarttablayout/utils/v4/FragmentPagerItem.java:47 | a new bundle is empty |
| Bundles.Bundle.PutInt | utils-v4/src/main/java/com/ogaclejapan/smarttablayout/utils/v4/FragmentPagerItem.java:63 | the entries become the old ones with the key mapped to the value |
| Bundles.Bundle.ContainsKey | utils-v4/src/main/java/com/ogaclejapan/smarttablayout/utils/v4/FragmentPagerItem.java:55 | the definition of `Bundle.containsKey`; `PutThenGet` states that a stored key is present |
| Bundles.Bundle.GetInt | utils-v4/src/main/java/com/ogaclejapan/smarttablayout/utils/v4/FragmentPagerItem.java:59 | the definition of `Bundle.getInt`; `PutThenGet` and `LastPutWins` state that it reads back the last stored value |
| PagerItemV4.AbsentPosition | utils-v4/src/main/java/com/ogaclejapan/smarttablayout/utils/v4/FragmentPagerItem.java:54-60 | a null bundle or one without the key has no position, and its position reads 0 |
| PagerItemV4.PositionOfBundle | utils-v4/src/main/java/com/ogaclejapan/smarttablayout/utils/v4/FragmentPagerItem.java:58-60 | for a bundle the position is its `int` under `"FragmentPagerItem:Position"` |
| PagerItemV4.SetPosition | utils-v4/src/main/java/com/ogaclejapan/smarttablayout/utils/v4/FragmentPagerItem.java:62-64 | only the `"FragmentPagerItem:Position"` entry changes, and it then reads back as the position; a null bundle throws |
| PagerItemV4.FragmentPagerItem.constructor | utils-v4/src/main/java/com/ogaclejapan/smarttablayout/utils/v4/FragmentPagerItem.java:32-36 | the item keeps title, width, class name and extras |
| PagerItemV4.FragmentPagerItem.Instantiate | utils-v4/src/main/java/com/ogaclejapan/smarttablayout/utils/v4/FragmentPagerItem.java:66-69 | the position is written into the item's own extras before the fragment is made with them as arguments, so the fragment reads that position; without extras it throws |
| PagerItemV4.Of | utils-v4/src/main/java/com/ogaclejapan/smarttablayout/utils/v4/FragmentPagerItem.java:38-40 | default width, the class's name and a new empty bundle |
| PagerItemV4.OfExtras | utils-v4/src/main/java/com/ogaclejapan/smarttablayout/utils/v4/FragmentPagerItem.java:42-44 | default width, the class's name and the given extras |
| PagerItemV4.OfWidth | utils-v4/src/main/java/com/ogaclejapan/smarttablayout/utils/v4/FragmentPagerItem.java:46-48 | the given width, the class's name and a new empty bundle |
| PagerItemV4.OfWidthExtras | utils-v4/src/main/java/com/ogaclejapan/smarttablayout/utils/v4/FragmentPagerItem.java:50-52 | the given width and extras, and the class's name |
| PagerItemV4.HasPosition | utils-v4/src/main/java/com/ogaclejapan/smarttablayout/utils/v4/FragmentPagerItem.java:54-56 | the definition of `hasPosition`; `AbsentPosition` states that it is false for a null bundle or a missing key, and `Bundles.PutThenGet` that a stored key makes it true |
| PagerItemV4.GetPosition | utils-v4/src/main/java/com/ogaclejapan/smarttablayout/utils/v4/FragmentPagerItem.java:58-60 | the definition of `getPosition`; `AbsentPosition`, `PositionOfBundle`, `SetPosition` and `Instantiate` state what it reads |
| PagerItemV13.AbsentPosition | utils-v13/src/main/java/com/ogaclejapan/smarttablayout/utils/v13/FragmentPagerItem.java:57-63 | a null bundle or one without the key has no position, and its position reads 0 |
| PagerItemV13.PositionOfBundle | utils-v13/src/main/java/com/ogaclejapan/smarttablayout/utils/v13/FragmentPagerItem.java:61-63 | for a bundle the position is its `int` under `"FragmentPagerItem:Position"` |
| PagerItemV13.SetPosition | utils-v13/src/main/java/com/ogaclejapan/smarttablayout/utils/v13/FragmentPagerItem.java:65-67 | only the `"FragmentPagerItem:Position"` key of the arguments changes, and it then reads back as the position; a null bundle throws |
| PagerItemV13.FragmentPagerItem.constructor | utils-v13/src/main/java/com/ogaclejapan/smarttablayout/utils/v13/FragmentPagerItem.java:32-36 | the item keeps title, width, class name and arguments |
| PagerItemV13.FragmentPagerItem.Instantiate | utils-v13/src/main/java/com/ogaclejapan/smarttablayout/utils/v13/FragmentPagerItem.java:69-72 | the position is stored in the arguments before the fragment is made with them, so the fragment reads that position; without arguments it throws |
| PagerItemV13.Of | utils-v13/src/main/java/com/ogaclejapan/smarttablayout/utils/v13/FragmentPagerItem.java:38-40 | default width, the class's name and a new empty bundle |
| PagerItemV13.OfArgs | utils-v13/src/main/java/com/ogaclejapan/smarttablayout/utils/v13/FragmentPagerItem.java:42-45 | default width, the class's name and the given arguments |
| PagerItemV13.OfWidth | utils-v13/src/main/java/com/ogaclejapan/smarttablayout/utils/v13/FragmentPagerItem.java:47-50 | the given width, the class's name and a new empty bundle |
| PagerItemV13.OfWidthArgs | utils-v13/src/main/java/com/ogaclejapan/smarttablayout/utils/v13/FragmentPagerItem.java:52-55 | the given width and arguments, and the class's name |
| PagerItemV13.HasPosition | utils-v13/src/main/java/com/ogaclejapan/smarttablayout/utils/v13/FragmentPagerItem.java:57-59 | the definition of `hasPosition`; `AbsentPosition` states that it is false for a null bundle or a missing key, and `Bundles.PutThenGet` that a stored key makes it true |
| PagerItemV13.GetPosition | utils-v13/src/main/java/com/ogaclejapan/smarttablayout/utils/v13/FragmentPagerItem.java:61-63 | the definition of `getPosition`; `AbsentPosition`, `PositionOfBundle`, `SetPosition` and `Instantiate` state what it reads |

## Left out

- Drawing itself is left out: the canvas, paints, `RectF`, stroke widths and rounded-rect rendering. A draw pass yields its commands as values; the corner radius only picks rounded versus plain.
- Floats are modelled as reals. Android's `Color` packing and 32-bit `int` overflow are not modelled.
- Attribute and resource resolution (`TypedArray`, theme colours, density and DIP conversion) is left out. Its results are inputs to `NewSmartTabLayout` and to the strip constructor.
- The default tab text view and `SimpleTabProvider` inflation are left out. The views an adapter's pages yield are an input, `Adapter.tabViews`.
- The `distributeEvenly` layout weights in `populateTabStrip` are left out, including the cast of a tab's layout parameters to `LinearLayout.LayoutParams`.
- `onSizeChanged`, `onAttachedToWindow`, `getTabAt`, `setIndicationInterpolator`, `setCustomTabView` and `setDistributeEvenly` are left out. They are lifecycle callbacks, a lookup and configuration setters; apart from `distributeEvenly`, no modelled operation reads the state they touch, so leaving them out changes no modelled result. `distributeEvenly` is a constant of the layout, so the conflict with a centred indicator is refused only at construction; Java's `setDistributeEvenly` can turn the flag on afterwards without that check.
- `HorizontalScrollView.scrollTo` is modelled as setting `scrollX` to its argument. The platform's clamping to the scroll range is left out.
- The `ViewPager` is external. `setOnPageChangeListener` is recorded as `listenerAttached`; earlier pagers keep their old listeners unmodelled.
- Layout.SmartTabLayout.OnClick: returns the page the pager is asked to show instead of calling `setCurrentItem`.
- The application's listener is recorded as the sequence of calls it receives.
- The accelerate and decelerate curves of the smart interpolator are foreign code. They are parameters, `EdgeCurves`, with no assumed values.
- `Utils.getDisplayMetrics` is left out; it is window-manager I/O.
- Strip.SmartTabStrip.SetSelectedIndicatorColors: the colours are copied by value. Java keeps the caller's `int[]` by reference, so a later write to that array changes the next draw pass; that aliasing is not modelled. A null array, which Java accepts and which throws `NullPointerException` at the next lookup, is not modelled either.
- Strip.SmartTabStrip.SetDividerColors: the colours are copied by value. Java keeps the caller's `int[]` by reference, so a later write to that array changes the next draw pass; that aliasing is not modelled. A null array, which Java accepts and which throws `NullPointerException` at the next lookup, is not modelled either.
- PagerItemV4.FragmentPagerItem.Instantiate: `Fragment.instantiate` is foreign code. The model hands back the class name and extras it is called with; its failure for a class that cannot be instantiated is not modelled.
- PagerItemV13.FragmentPagerItem.Instantiate: `Fragment.instantiate` is foreign code. The model hands back the class name and arguments it is called with; its failure for a class that cannot be instantiated is not modelled.
- Colors.BlendColors: requires the ratio to be in [0, 1]. That is the range the pager reports and the range the draw pass uses; the Java code accepts any float.
- Interpolation.ThicknessInverse: requires `1 - leftEdge + rightEdge` to be non-zero. Java's float division would give an infinity, which the model does not represent.
- Strip.SmartTabStrip.OnDraw: requires, mid-scroll, an offset of at most 1 and a defined smart thickness (`Strip.Drawable`). These are the two requirements above, as they reach the draw pass.
- `PagerItem` is not part of this model. `DEFAULT_WIDTH` is taken as 1.0, and no property depends on its value.
