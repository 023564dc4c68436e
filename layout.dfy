/**
 * `SmartTabLayout`: the horizontally scrolling container around the tab strip.
 * It builds one tab per page of the pager's adapter, keeps the selected tab in
 * view as the pager scrolls, mirrors the pager's selection onto the tabs'
 * selected state and forwards page events to the application's listener.
 */
module Layout {
  import opened Wrappers
  import opened JavaLang
  import opened Colors
  import opened Interpolation
  import opened Strip

  /** `ViewPager.SCROLL_STATE_IDLE` */
  const SCROLL_STATE_IDLE: int := 0
  const TITLE_OFFSET_DIPS: int := 24

  /** The calls the layout forwards to the application's page change listener. */
  datatype PageEvent =
    | PageScrolled(position: int, positionOffset: real, positionOffsetPixels: int)
    | PageScrollStateChanged(state: int)
    | PageSelected(position: int)

  /**
   * A pager's adapter as the layout sees it: per page, the tab view that the
   * tab provider (or the default text tab) creates for it, `None` for null.
   */
  datatype Adapter = Adapter(tabViews: seq<Option<Tab>>)

  datatype ViewPager = ViewPager(adapter: Option<Adapter>, currentItem: int)

  /** The styled attributes the two constructors read. */
  datatype Attributes = Attributes(
    density: real,
    distributeEvenly: bool,
    indicatorAlwaysInCenter: bool,
    indicatorInFront: bool,
    indicationInterpolatorId: int,
    indicatorColors: seq<Color>,
    indicatorThickness: int,
    indicatorCornerRadius: real,
    underlineColor: Color,
    underlineThickness: int,
    dividerColors: seq<Color>)

  /**
   * `scrollToTab(tabIndex, positionOffset)`: the horizontal scroll target, or
   * `None` when there is no child at `tabIndex` and nothing scrolls.
   */
  function ScrollTarget(tabs: seq<Tab>, alwaysInCenter: bool, titleOffset: int, tabIndex: int, positionOffset: int): Option<int> {
    if |tabs| == 0 || tabIndex < 0 || tabIndex >= |tabs| then None
    else
      var selected := tabs[tabIndex];
      var target := selected.left + positionOffset;
      if alwaysInCenter then Some(target - Half(tabs[0].width - selected.width))
      else if tabIndex > 0 || positionOffset > 0 then Some(target - titleOffset)
      else Some(target)
  }

  /**
   * The extra scroll of `onPageScrolled`: the offset fraction of the current
   * tab's width, or, with the indicator kept in the centre and the pager
   * between pages, of half the current and half the next tab's widths
   * (rounded); the next tab's width is read from a null child at the last tab.
   */
  function ExtraOffset(tabs: seq<Tab>, alwaysInCenter: bool, position: int, positionOffset: real): Result<int, Exception>
    requires 0 <= position < |tabs|
  {
    if 0.0 < positionOffset < 1.0 && alwaysInCenter then
      if position + 1 >= |tabs| then Failure(NullPointer)
      else
        var current := Half(tabs[position].width);
        var next := Half(tabs[position + 1].width);
        Success(Round(positionOffset * (current + next) as real))
    else
      Success(Trunc(positionOffset * tabs[position].width as real))
  }

  /** What `onPageSelected` leaves: exactly the tab at `position` is selected. */
  function Reselected(tabs: seq<Tab>, position: int): (r: seq<Tab>)
    ensures |r| == |tabs|
  {
    seq(|tabs|, i requires 0 <= i < |tabs| => tabs[i].(selected := i == position))
  }

  /** The number of selected tabs. */
  function SelectedCount(tabs: seq<Tab>): nat {
    if tabs == [] then 0
    else SelectedCount(tabs[..|tabs| - 1]) + (if tabs[|tabs| - 1].selected then 1 else 0)
  }

  /** The tabs `populateTabStrip` has added, and the exception that stopped it. */
  datatype Population = Population(tabs: seq<Tab>, fault: Option<Exception>)

  /** The tab added for page `i`: the created view, selected if it is the pager's current page. */
  function AddedTab(view: Tab, i: int, currentItem: int): Tab {
    if i == currentItem then view.(selected := true) else view
  }

  /** The first `k` pages of `populateTabStrip`, stopped by the first null tab view. */
  function Populate(views: seq<Option<Tab>>, currentItem: int, k: nat): Population
    requires k <= |views|
  {
    if k == 0 then Population([], None)
    else
      var prev := Populate(views, currentItem, k - 1);
      if prev.fault.Some? then prev
      else
        match views[k - 1]
        case None => Population(prev.tabs, Some(IllegalState))
        case Some(view) => Population(prev.tabs + [AddedTab(view, k - 1, currentItem)], None)
  }

  /**
   * With the indicator kept in the centre the target puts the selected
   * tab's centre where the first tab's centre is at scroll 0 (up to the
   * half-pixel of integer division): `target - offset` is `left + (width -
   * width0) / 2`.
   */
  lemma CentredTarget(tabs: seq<Tab>, titleOffset: int, tabIndex: int, positionOffset: int)
    requires 0 <= tabIndex < |tabs|
    ensures var t := ScrollTarget(tabs, true, titleOffset, tabIndex, positionOffset);
      var tab := tabs[tabIndex];
      && t.Some?
      && -1 <= 2 * (t.value - positionOffset) - (2 * tab.left + tab.width - tabs[0].width) <= 1
  {
  }

  /**
   * Without centring the target is the tab's left edge plus the offset, less
   * the title offset everywhere except for the first tab at rest.
   */
  lemma OffsetTarget(tabs: seq<Tab>, titleOffset: int, tabIndex: int, positionOffset: int)
    requires 0 <= tabIndex < |tabs|
    ensures var t := ScrollTarget(tabs, false, titleOffset, tabIndex, positionOffset);
      && t.Some?
      && t.value == tabs[tabIndex].left + positionOffset -
                    (if tabIndex > 0 || positionOffset > 0 then titleOffset else 0)
  {
  }

  /** No scroll exactly when the index has no child. */
  lemma NoTargetOutsideTabs(tabs: seq<Tab>, alwaysInCenter: bool, titleOffset: int, tabIndex: int, positionOffset: int)
    ensures ScrollTarget(tabs, alwaysInCenter, titleOffset, tabIndex, positionOffset).None? <==>
            !(0 <= tabIndex < |tabs|)
  {
  }

  /** The extra offset fails only at the last tab mid-scroll with centring, on a null child. */
  lemma ExtraOffsetFaults(tabs: seq<Tab>, alwaysInCenter: bool, position: int, positionOffset: real)
    requires 0 <= position < |tabs|
    ensures ExtraOffset(tabs, alwaysInCenter, position, positionOffset).Failure? <==>
              alwaysInCenter && 0.0 < positionOffset < 1.0 && position == |tabs| - 1
    ensures ExtraOffset(tabs, alwaysInCenter, position, positionOffset).Failure? ==>
              ExtraOffset(tabs, alwaysInCenter, position, positionOffset).error == NullPointer
  {
  }

  /** Away from the centred mid-scroll case the extra offset is a part of the tab's width. */
  lemma ProportionalExtraOffset(tabs: seq<Tab>, alwaysInCenter: bool, position: int, positionOffset: real)
    requires 0 <= position < |tabs| && tabs[position].width >= 0
    requires 0.0 <= positionOffset <= 1.0 && !(alwaysInCenter && 0.0 < positionOffset < 1.0)
    ensures ExtraOffset(tabs, alwaysInCenter, position, positionOffset).Success?
    ensures 0 <= ExtraOffset(tabs, alwaysInCenter, position, positionOffset).value <= tabs[position].width
  {
    var w := tabs[position].width;
    var p := positionOffset * w as real;
    ScaledWithin(w as real, positionOffset, p) by {
      assert w as real * positionOffset == p;
    }
    TruncWithin(p, 0, w);
  }

  /** Centred and mid-scroll, the extra offset is a part of half the two tabs' widths. */
  lemma CentredExtraOffset(tabs: seq<Tab>, position: int, positionOffset: real)
    requires 0 <= position < |tabs| - 1
    requires tabs[position].width >= 0 && tabs[position + 1].width >= 0
    requires 0.0 < positionOffset < 1.0
    ensures ExtraOffset(tabs, true, position, positionOffset).Success?
    ensures 0 <= ExtraOffset(tabs, true, position, positionOffset).value <=
               Half(tabs[position].width) + Half(tabs[position + 1].width)
  {
    var d := Half(tabs[position].width) + Half(tabs[position + 1].width);
    var p := positionOffset * d as real;
    ScaledWithin(d as real, positionOffset, p) by {
      assert d as real * positionOffset == p;
    }
    RoundWithin(p, 0, d);
  }

  /** Rounding keeps a value within integer bounds. */
  lemma RoundWithin(x: real, lo: int, hi: int)
    requires lo as real <= x <= hi as real
    ensures lo <= Round(x) <= hi
  {
  }

  /** After `onPageSelected` exactly one tab is selected when the position has a tab, none otherwise. */
  lemma {:induction false} ReselectedCount(tabs: seq<Tab>, position: int)
    ensures SelectedCount(Reselected(tabs, position)) == if 0 <= position < |tabs| then 1 else 0
  {
    if tabs != [] {
      var init := tabs[..|tabs| - 1];
      ReselectedCount(init, position);
      assert Reselected(tabs, position)[..|tabs| - 1] == Reselected(init, position);
    }
  }

  /**
   * `populateTabStrip` adds the created views in page order, the one at the
   * current page marked selected, up to the first null view; it fails with
   * `IllegalStateException` exactly when some view is null.
   */
  lemma {:induction false} PopulateShape(views: seq<Option<Tab>>, currentItem: int, k: nat)
    requires k <= |views|
    ensures var p := Populate(views, currentItem, k);
      && |p.tabs| <= k
      && (forall i :: 0 <= i < |p.tabs| ==>
            views[i].Some? && p.tabs[i] == AddedTab(views[i].value, i, currentItem))
      && (p.fault.None? <==> forall i :: 0 <= i < k ==> views[i].Some?)
      && (p.fault.None? ==> |p.tabs| == k)
      && (p.fault.Some? ==> p.fault.value == IllegalState && |p.tabs| < k && views[|p.tabs|].None?)
  {
    if k > 0 {
      PopulateShape(views, currentItem, k - 1);
    }
  }

  /** Once a null view has stopped `populateTabStrip`, later pages add nothing. */
  lemma {:induction false} PopulateSticky(views: seq<Option<Tab>>, currentItem: int, i: nat, k: nat)
    requires i <= k <= |views|
    requires Populate(views, currentItem, i).fault.Some?
    ensures Populate(views, currentItem, k) == Populate(views, currentItem, i)
  {
    if i < k {
      PopulateSticky(views, currentItem, i, k - 1);
    }
  }

  /**
   * Populating from unselected views selects exactly the current page's tab,
   * or none when the current item is not a page.
   */
  lemma {:induction false} PopulateSelectsCurrent(views: seq<Option<Tab>>, currentItem: int, k: nat)
    requires k <= |views|
    requires forall i :: 0 <= i < |views| ==> views[i].Some? && !views[i].value.selected
    ensures SelectedCount(Populate(views, currentItem, k).tabs) == if 0 <= currentItem < k then 1 else 0
  {
    if k > 0 {
      PopulateSelectsCurrent(views, currentItem, k - 1);
      PopulateShape(views, currentItem, k - 1);
      var tabs := Populate(views, currentItem, k).tabs;
      assert tabs[..|tabs| - 1] == Populate(views, currentItem, k - 1).tabs;
    }
  }

  /** The layout: the strip it scrolls, the pager it follows and its listener state. */
  class SmartTabLayout {
    const strip: SmartTabStrip
    const titleOffset: int
    const distributeEvenly: bool
    var viewPager: Option<ViewPager>
    /** whether an `InternalViewPagerListener` is registered on the pager */
    var listenerAttached: bool
    /** the internal listener's `mScrollState` */
    var scrollState: int
    var scrollX: int
    /** whether the application has set a page change listener */
    var hasPageChangeListener: bool
    /** the calls forwarded to the application's listener, oldest first */
    var forwarded: seq<PageEvent>

    constructor (strip: SmartTabStrip, titleOffset: int, distributeEvenly: bool)
      ensures this.strip == strip && this.titleOffset == titleOffset && this.distributeEvenly == distributeEvenly
      ensures viewPager == None && !listenerAttached && scrollState == SCROLL_STATE_IDLE && scrollX == 0
      ensures !hasPageChangeListener && forwarded == []
    {
      this.strip := strip;
      this.titleOffset := titleOffset;
      this.distributeEvenly := distributeEvenly;
      viewPager := None;
      listenerAttached := false;
      scrollState := SCROLL_STATE_IDLE;
      scrollX := 0;
      hasPageChangeListener := false;
      forwarded := [];
    }

    /** The application's listener receives `e`, if there is one. */
    function Forward(e: PageEvent): seq<PageEvent>
      reads this
    {
      if hasPageChangeListener then forwarded + [e] else forwarded
    }

    /** `setOnPageChangeListener`. */
    method SetOnPageChangeListener(present: bool)
      modifies this`hasPageChangeListener
      ensures hasPageChangeListener == present
    {
      hasPageChangeListener := present;
    }

    /** `scrollToTab`: scrolls to the target, if the index has a child. */
    method ScrollToTab(tabIndex: int, positionOffset: int)
      modifies this`scrollX
      ensures scrollX == match ScrollTarget(strip.tabs, strip.indicatorAlwaysInCenter, titleOffset, tabIndex, positionOffset)
                         case None => old(scrollX)
                         case Some(x) => x
    {
      var tabStripChildCount := |strip.tabs|;
      if tabStripChildCount == 0 || tabIndex < 0 || tabIndex >= tabStripChildCount {
        return;
      }
      var selectedChild := strip.tabs[tabIndex];
      var targetScrollX := selectedChild.left + positionOffset;
      if strip.indicatorAlwaysInCenter {
        targetScrollX := targetScrollX - Half(strip.tabs[0].width - selectedChild.width);
      } else if tabIndex > 0 || positionOffset > 0 {
        targetScrollX := targetScrollX - titleOffset;
      }
      scrollX := targetScrollX;
    }

    /**
     * `onPageScrolled`: for a position with a tab, moves the strip's
     * selection, scrolls by the extra offset and forwards the event; the
     * centred extra offset at the last tab throws after the strip has moved.
     */
    method OnPageScrolled(position: int, positionOffset: real, positionOffsetPixels: int) returns (fault: Option<Exception>)
      modifies this`scrollX, this`forwarded, strip`selectedPosition, strip`selectionOffset, strip`lastPosition
      ensures !(0 <= position < |strip.tabs|) ==>
        && fault == None && scrollX == old(scrollX) && forwarded == old(forwarded)
        && strip.selectedPosition == old(strip.selectedPosition)
        && strip.selectionOffset == old(strip.selectionOffset)
        && strip.lastPosition == old(strip.lastPosition)
      ensures 0 <= position < |strip.tabs| ==>
        && strip.selectedPosition == position && strip.selectionOffset == positionOffset
        && strip.lastPosition == (if positionOffset == 0.0 then position else old(strip.lastPosition))
        && var extra := ExtraOffset(strip.tabs, strip.indicatorAlwaysInCenter, position, positionOffset);
           match extra
           case Failure(e) => fault == Some(e) && scrollX == old(scrollX) && forwarded == old(forwarded)
           case Success(x) =>
             && fault == None
             && scrollX == ScrollTarget(strip.tabs, strip.indicatorAlwaysInCenter, titleOffset, position, x).value
             && forwarded == old(Forward(PageScrolled(position, positionOffset, positionOffsetPixels)))
    {
      var tabStripChildCount := |strip.tabs|;
      if tabStripChildCount == 0 || position < 0 || position >= tabStripChildCount {
        return None;
      }
      strip.OnViewPagerPageChanged(position, positionOffset);

      var extra := ExtraScroll(position, positionOffset);
      if extra.Failure? {
        return Some(extra.error);
      }
      var extraOffset := extra.value;

      ScrollToTab(position, extraOffset);

      if hasPageChangeListener {
        forwarded := forwarded + [PageScrolled(position, positionOffset, positionOffsetPixels)];
      }
      fault := None;
    }

    /** The extra offset computed by `onPageScrolled`, as `ExtraOffset` specifies. */
    method ExtraScroll(position: int, positionOffset: real) returns (extra: Result<int, Exception>)
      requires 0 <= position < |strip.tabs|
      ensures extra == ExtraOffset(strip.tabs, strip.indicatorAlwaysInCenter, position, positionOffset)
    {
      ghost var spec := ExtraOffset(strip.tabs, strip.indicatorAlwaysInCenter, position, positionOffset);
      var selectedTitle := strip.tabs[position];
      var extraOffset := Trunc(positionOffset * selectedTitle.width as real);
      if 0.0 < positionOffset < 1.0 && strip.indicatorAlwaysInCenter {
        if position + 1 >= |strip.tabs| {
          return Failure(NullPointer);
        }
        var current := Half(strip.tabs[position].width);
        var next := Half(strip.tabs[position + 1].width);
        extraOffset := Round(positionOffset * (current + next) as real);
        assert spec.Success? && spec.value == extraOffset;
      } else {
        assert spec.Success? && spec.value == extraOffset;
      }
      extra := Success(extraOffset);
    }

    /** `onPageScrollStateChanged`: records the state and forwards the event. */
    method OnPageScrollStateChanged(state: int)
      modifies this`scrollState, this`forwarded
      ensures scrollState == state
      ensures forwarded == old(Forward(PageScrollStateChanged(state)))
    {
      scrollState := state;
      if hasPageChangeListener {
        forwarded := forwarded + [PageScrollStateChanged(state)];
      }
    }

    /**
     * `onPageSelected`: when the pager is idle the strip settles on the page
     * and the layout scrolls to it; in every case exactly the tab at the page
     * becomes selected, and the event is forwarded.
     */
    method OnPageSelected(position: int)
      modifies this`scrollX, this`forwarded, strip`selectedPosition, strip`selectionOffset, strip`lastPosition, strip`tabs
      ensures strip.tabs == Reselected(old(strip.tabs), position)
      ensures old(scrollState) == SCROLL_STATE_IDLE ==>
        && strip.selectedPosition == position && strip.selectionOffset == 0.0 && strip.lastPosition == position
        && scrollX == match ScrollTarget(old(strip.tabs), strip.indicatorAlwaysInCenter, titleOffset, position, 0)
                      case None => old(scrollX)
                      case Some(x) => x
      ensures old(scrollState) != SCROLL_STATE_IDLE ==>
        && strip.selectedPosition == old(strip.selectedPosition)
        && strip.selectionOffset == old(strip.selectionOffset)
        && strip.lastPosition == old(strip.lastPosition)
        && scrollX == old(scrollX)
      ensures forwarded == old(Forward(PageSelected(position)))
    {
      if scrollState == SCROLL_STATE_IDLE {
        strip.OnViewPagerPageChanged(position, 0.0);
        ScrollToTab(position, 0);
      }

      var i := 0;
      var size := |strip.tabs|;
      while i < size
        modifies strip`tabs
        invariant 0 <= i <= size == |strip.tabs|
        invariant forall j :: 0 <= j < i ==> strip.tabs[j] == old(strip.tabs)[j].(selected := j == position)
        invariant forall j :: i <= j < size ==> strip.tabs[j] == old(strip.tabs)[j]
      {
        strip.SetTabSelected(i, position == i);
        i := i + 1;
      }

      if hasPageChangeListener {
        forwarded := forwarded + [PageSelected(position)];
      }
    }

    /**
     * `setViewPager`: clears the strip, takes the pager and, when it has an
     * adapter, registers a fresh internal listener (idle) and populates the strip.
     */
    method SetViewPager(pager: Option<ViewPager>) returns (fault: Option<Exception>)
      modifies this`viewPager, this`listenerAttached, this`scrollState, strip`tabs
      ensures viewPager == pager
      ensures pager.None? || pager.value.adapter.None? ==>
        strip.tabs == [] && fault == None &&
        listenerAttached == old(listenerAttached) && scrollState == old(scrollState)
      ensures pager.Some? && pager.value.adapter.Some? ==>
        var views := pager.value.adapter.value.tabViews;
        var p := Populate(views, pager.value.currentItem, |views|);
        listenerAttached && scrollState == SCROLL_STATE_IDLE && strip.tabs == p.tabs && fault == p.fault
    {
      strip.RemoveAllViews();
      viewPager := pager;
      fault := None;
      if pager.Some? && pager.value.adapter.Some? {
        listenerAttached := true;
        scrollState := SCROLL_STATE_IDLE;
        fault := PopulateTabStrip();
      }
    }

    /**
     * `populateTabStrip`: adds the adapter's tab views in page order, the one
     * at the current page selected, and throws on the first null view.
     */
    method PopulateTabStrip() returns (fault: Option<Exception>)
      requires viewPager.Some? && viewPager.value.adapter.Some?
      modifies strip`tabs
      ensures var views := viewPager.value.adapter.value.tabViews;
        var p := Populate(views, viewPager.value.currentItem, |views|);
        strip.tabs == old(strip.tabs) + p.tabs && fault == p.fault
    {
      var views := viewPager.value.adapter.value.tabViews;
      var currentItem := viewPager.value.currentItem;
      ghost var before := strip.tabs;
      var i := 0;
      while i < |views|
        invariant 0 <= i <= |views|
        invariant Populate(views, currentItem, i).fault == None
        invariant strip.tabs == before + Populate(views, currentItem, i).tabs
      {
        var tabView := views[i];
        if tabView.None? {
          PopulateSticky(views, currentItem, i + 1, |views|);
          return Some(IllegalState);
        }
        strip.AddView(tabView.value);
        if i == currentItem {
          strip.SetTabSelected(|strip.tabs| - 1, true);
        }
        i := i + 1;
      }
      fault := None;
    }

    /**
     * `TabClickListener.onClick`: the page of the first tab that is the
     * clicked view, which the pager is asked to show; `None` for a view that
     * is not a tab.
     */
    method OnClick(id: int) returns (item: Option<int>)
      ensures item.Some? ==>
        0 <= item.value < |strip.tabs| && strip.tabs[item.value].id == id &&
        forall j :: 0 <= j < item.value ==> strip.tabs[j].id != id
      ensures item.None? ==> forall j :: 0 <= j < |strip.tabs| ==> strip.tabs[j].id != id
    {
      var i := 0;
      while i < |strip.tabs|
        invariant 0 <= i <= |strip.tabs|
        invariant forall j :: 0 <= j < i ==> strip.tabs[j].id != id
      {
        if strip.tabs[i].id == id {
          return Some(i);
        }
        i := i + 1;
      }
      item := None;
    }
  }

  /** `(int) (TITLE_OFFSET_DIPS * density)` */
  function TitleOffsetPx(density: real): int {
    Trunc(TITLE_OFFSET_DIPS as real * density)
  }

  /** The strip's style as its constructor resolves it from the attributes. */
  function StyleOf(attrs: Attributes): Style {
    Style(attrs.indicatorInFront, attrs.indicatorThickness, attrs.indicatorCornerRadius,
          attrs.underlineThickness, attrs.underlineColor, DEFAULT_DIVIDER_HEIGHT)
  }

  /**
   * The constructor: the strip's constructor throws for an unknown
   * interpolator id; then distributing tabs evenly together with a centred
   * indicator is refused.
   */
  method NewSmartTabLayout(attrs: Attributes, curves: EdgeCurves) returns (r: Result<SmartTabLayout, Exception>)
    ensures r.Failure? <==>
      Of(attrs.indicationInterpolatorId).Failure? || (attrs.distributeEvenly && attrs.indicatorAlwaysInCenter)
    ensures r.Failure? && Of(attrs.indicationInterpolatorId).Failure? ==>
      r.error == IllegalArgument(attrs.indicationInterpolatorId)
    ensures r.Failure? && Of(attrs.indicationInterpolatorId).Success? ==> r.error == UnsupportedOperation
    ensures r.Success? ==>
      && fresh(r.value) && fresh(r.value.strip)
      && r.value.titleOffset == TitleOffsetPx(attrs.density)
      && r.value.distributeEvenly == attrs.distributeEvenly
      && r.value.strip.style == StyleOf(attrs)
      && r.value.strip.indicatorAlwaysInCenter == attrs.indicatorAlwaysInCenter
      && r.value.strip.indicationInterpolator == Of(attrs.indicationInterpolatorId).value
      && r.value.strip.TabColorizer() == Simple(attrs.indicatorColors, attrs.dividerColors)
      && r.value.strip.tabs == [] && r.value.viewPager == None
      && r.value.strip.curves == curves
      && r.value.strip.selectedPosition == 0 && r.value.strip.selectionOffset == 0.0
      && r.value.strip.lastPosition == 0
      && !r.value.listenerAttached && r.value.scrollState == SCROLL_STATE_IDLE && r.value.scrollX == 0
      && !r.value.hasPageChangeListener && r.value.forwarded == []
  {
    var titleOffset := TitleOffsetPx(attrs.density);
    var interpolator := Of(attrs.indicationInterpolatorId);
    if interpolator.Failure? {
      return Failure(interpolator.error);
    }
    var strip := new SmartTabStrip(StyleOf(attrs), attrs.indicatorAlwaysInCenter, interpolator.value, curves,
                                   attrs.indicatorColors, attrs.dividerColors);
    if attrs.distributeEvenly && strip.indicatorAlwaysInCenter {
      return Failure(UnsupportedOperation);
    }
    var layout := new SmartTabLayout(strip, titleOffset, attrs.distributeEvenly);
    r := Success(layout);
  }
}
