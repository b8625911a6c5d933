/**
 * The converters of the document-list properties feature: the upcast
 * converter that copies a list property from a view list onto the model list
 * items it produced, and the downcast converter that wraps a list item block
 * in one list element per indent level.
 *
 * The host framework's collaborators are parameters: the schema check is a
 * function, the consumables' answers are values, `ListWalker.first` with
 * `lowerIndent` is a chain of items, and the view writer's `wrap` builds a
 * `ViewRange`.
 */
module ListPropertiesConverters {
  import opened Wrappers

  /** A model attribute value: `listStyle` is text, `listReversed` a flag, `listStart` a number. */
  datatype AttrValue = Text(s: string) | Flag(b: bool) | Number(n: int)

  /**
   * A model element as the converters see it. `listIndent` is kept apart from
   * the other attributes because the schema types it as a number.
   */
  datatype ModelItem = ModelItem(listIndent: Option<int>, attrs: map<string, AttrValue>)

  predicate HasAttribute(item: ModelItem, name: string) {
    name in item.attrs
  }

  function GetAttribute(item: ModelItem, name: string): Option<AttrValue> {
    if name in item.attrs then Some(item.attrs[name]) else None
  }

  /** A view element (the upcast `viewItem`, the downcast target). */
  datatype ViewElement = ViewElement(name: string, attrs: map<string, string>)

  /** One list property's attribute strategy, as the list-properties editing feature defines it. */
  datatype AttributeStrategy = AttributeStrategy(
    attributeName: string,
    appliesToListItem: ModelItem -> bool,
    getAttributeOnUpcast: ViewElement -> AttrValue)

  // ---------------------------------------------------------------------------
  // Upcast
  // ---------------------------------------------------------------------------

  /** What `consumable.test` answers: the view item's consumables are available, consumed already, or absent. */
  datatype ConsumableTest = TestTrue | TestFalse | TestNull

  /** Whether the upcast sets the strategy's attribute on `item`. */
  predicate Receives(item: ModelItem, strategy: AttributeStrategy, checkAttribute: (ModelItem, string) -> bool) {
    && checkAttribute(item, strategy.attributeName)
    && strategy.appliesToListItem(item)
    && !HasAttribute(item, strategy.attributeName)
  }

  /** One item after the upcast: the attribute set to `value` if it receives it, else unchanged. */
  function UpcastItem(item: ModelItem, strategy: AttributeStrategy,
                      checkAttribute: (ModelItem, string) -> bool, value: AttrValue): ModelItem
  {
    if Receives(item, strategy, checkAttribute)
    then item.(attrs := item.attrs[strategy.attributeName := value])
    else item
  }

  /** The shallow items of the model range after the upcast, item by item. */
  function UpcastAll(items: seq<ModelItem>, strategy: AttributeStrategy,
                     checkAttribute: (ModelItem, string) -> bool, value: AttrValue): seq<ModelItem>
  {
    if items == [] then []
    else UpcastAll(items[..|items| - 1], strategy, checkAttribute, value)
         + [UpcastItem(items[|items| - 1], strategy, checkAttribute, value)]
  }

  /** The upcast keeps the items in place and converts each one independently. */
  lemma {:induction false} UpcastAllAt(items: seq<ModelItem>, strategy: AttributeStrategy,
                                       checkAttribute: (ModelItem, string) -> bool, value: AttrValue, k: nat)
    requires k < |items|
    ensures |UpcastAll(items, strategy, checkAttribute, value)| == |items|
    ensures UpcastAll(items, strategy, checkAttribute, value)[k] == UpcastItem(items[k], strategy, checkAttribute, value)
    decreases |items|
  {
    var n := |items|;
    if k < n - 1 {
      UpcastAllAt(items[..n - 1], strategy, checkAttribute, value, k);
    } else if n > 1 {
      UpcastAllAt(items[..n - 1], strategy, checkAttribute, value, 0);
    }
  }

  /**
   * Exactly the receiving items change: each gets the attribute with the one
   * upcast value and keeps everything else; every other item is unchanged.
   */
  lemma {:induction false} UpcastChangesOnlyReceivers(items: seq<ModelItem>, strategy: AttributeStrategy,
                                   checkAttribute: (ModelItem, string) -> bool, value: AttrValue)
    ensures var r := UpcastAll(items, strategy, checkAttribute, value);
      && |r| == |items|
      && (forall k :: 0 <= k < |items| && Receives(items[k], strategy, checkAttribute) ==>
            && r[k].attrs.Keys == items[k].attrs.Keys + {strategy.attributeName}
            && r[k].attrs[strategy.attributeName] == value
            && r[k].listIndent == items[k].listIndent
            && (forall a :: a in items[k].attrs ==> a in r[k].attrs && r[k].attrs[a] == items[k].attrs[a]))
      && (forall k :: 0 <= k < |items| && !Receives(items[k], strategy, checkAttribute) ==> r[k] == items[k])
  {
    if items == [] {
      return;
    }
    forall k | 0 <= k < |items| {
      UpcastAllAt(items, strategy, checkAttribute, value, k);
    }
  }

  /** After an upcast no item receives the attribute again: the conversion is idempotent. */
  lemma {:induction false} UpcastIdempotent(items: seq<ModelItem>, strategy: AttributeStrategy,
                         checkAttribute: (ModelItem, string) -> bool, value: AttrValue)
    ensures var r := UpcastAll(items, strategy, checkAttribute, value);
      && (forall k :: 0 <= k < |r| ==> !Receives(r[k], strategy, checkAttribute))
      && UpcastAll(r, strategy, checkAttribute, value) == r
  {
    var r := UpcastAll(items, strategy, checkAttribute, value);
    UpcastChangesOnlyReceivers(items, strategy, checkAttribute, value);
    UpcastChangesOnlyReceivers(r, strategy, checkAttribute, value);
  }

  /**
   * The item loop of the upcast converter: sets the attribute on every
   * receiving item, in place, and reports whether it set any.
   */
  method SetListAttributes(items: array<ModelItem>, strategy: AttributeStrategy,
                           checkAttribute: (ModelItem, string) -> bool, viewItem: ViewElement)
    returns (applied: bool)
    modifies items
    ensures items[..] == UpcastAll(old(items[..]), strategy, checkAttribute, strategy.getAttributeOnUpcast(viewItem))
    ensures applied <==> exists k :: 0 <= k < items.Length && Receives(old(items[k]), strategy, checkAttribute)
  {
    ghost var value := strategy.getAttributeOnUpcast(viewItem);
    ghost var original := items[..];
    applied := false;
    var i := 0;
    while i < items.Length
      invariant 0 <= i <= items.Length
      invariant items[..i] == UpcastAll(original[..i], strategy, checkAttribute, value)
      invariant items[i..] == original[i..]
      invariant applied <==> exists k :: 0 <= k < i && Receives(original[k], strategy, checkAttribute)
    {
      var item := items[i];
      assert item == original[i];
      assert original[..i + 1][..i] == original[..i];
      // Skipped unless the schema allows the attribute, the strategy applies and
      // the item does not have it yet (deeper items were handled by their own conversion).
      if checkAttribute(item, strategy.attributeName) && strategy.appliesToListItem(item)
         && !HasAttribute(item, strategy.attributeName)
      {
        items[i] := item.(attrs := item.attrs[strategy.attributeName := strategy.getAttributeOnUpcast(viewItem)]);
        applied := true;
      }
      assert items[..i + 1] == items[..i] + [items[i]];
      assert items[i + 1..] == original[i + 1..];
      i := i + 1;
    }
    assert original[..items.Length] == original;
    assert items[..items.Length] == items[..];
  }

  /** The conversion data of the upcast event: the view item and, once converted, the model range. */
  class UpcastData {
    var viewItem: ViewElement
    var modelRange: array?<ModelItem>
    var modelCursor: nat

    constructor (viewItem: ViewElement, modelRange: array?<ModelItem>, modelCursor: nat)
      ensures this.viewItem == viewItem && this.modelRange == modelRange && this.modelCursor == modelCursor
    {
      this.viewItem, this.modelRange, this.modelCursor := viewItem, modelRange, modelCursor;
    }
  }

  /** What `conversionApi.convertChildren` gives for the view item: a model range and a cursor. */
  datatype ChildrenConversion = ChildrenConversion(modelRange: array<ModelItem>, modelCursor: nat)

  /**
   * The converter `listPropertiesUpcastConverter(strategy)` returns. `test` is
   * what `consumable.test` answers, `children` what converting the children
   * would give; `consumeCalled` says whether `consumable.consume` was called on
   * the view item. What that call consumes belongs to the host: nothing, when
   * `test` answered that the view item has no such consumable.
   */
  method UpcastConverter(strategy: AttributeStrategy, checkAttribute: (ModelItem, string) -> bool,
                         test: ConsumableTest, data: UpcastData, children: ChildrenConversion)
    returns (consumeCalled: bool)
    modifies data, data.modelRange, children.modelRange
    ensures test == TestFalse ==>
      !consumeCalled && unchanged(data) && unchanged(children.modelRange) &&
      (old(data.modelRange) != null ==> unchanged(old(data.modelRange)))
    // With a range already in place the children are not converted and their range is left alone.
    ensures old(data.modelRange) != null && old(data.modelRange) != children.modelRange ==>
      unchanged(children.modelRange)
    ensures test != TestFalse ==>
      && data.viewItem == old(data.viewItem)
      && data.modelRange == (if old(data.modelRange) != null then old(data.modelRange) else children.modelRange)
      && data.modelCursor == (if old(data.modelRange) != null then old(data.modelCursor) else children.modelCursor)
    ensures test != TestFalse ==>
      var range := data.modelRange;
      && range != null
      && range[..] == UpcastAll(old(range[..]), strategy, checkAttribute, strategy.getAttributeOnUpcast(data.viewItem))
      && (consumeCalled <==> exists k :: 0 <= k < range.Length && Receives(old(range[k]), strategy, checkAttribute))
  {
    if test == TestFalse {
      return false;
    }
    if data.modelRange == null {
      data.modelRange := children.modelRange;
      data.modelCursor := children.modelCursor;
    }
    var applied := SetListAttributes(data.modelRange, strategy, checkAttribute, data.viewItem);
    consumeCalled := applied;
  }

  // ---------------------------------------------------------------------------
  // Downcast
  // ---------------------------------------------------------------------------

  /**
   * A list view element made by `createListElement(writer, indent, listType)`
   * and given the property value by `strategy.setAttributeOnDowncast`.
   */
  datatype ListViewElement = ListViewElement(indent: int, listType: Option<AttrValue>, property: Option<AttrValue>)

  /** A view range: on the list item block's element, or wrapped by a list element. */
  datatype ViewRange = On(element: ViewElement) | Wrapped(wrapper: ListViewElement, inner: ViewRange)

  /** The list elements around a range, innermost first. */
  function WrappersOf(range: ViewRange): seq<ListViewElement> {
    match range
    case On(_) => []
    case Wrapped(wrapper, inner) => WrappersOf(inner) + [wrapper]
  }

  /** `writer.wrap` applied with each element in turn, the last one outermost. */
  function WrapAll(range: ViewRange, wrappers: seq<ListViewElement>): ViewRange
    decreases |wrappers|
  {
    if wrappers == [] then range
    else Wrapped(wrappers[|wrappers| - 1], WrapAll(range, wrappers[..|wrappers| - 1]))
  }

  lemma WrapAllSnoc(range: ViewRange, wrappers: seq<ListViewElement>, outer: ListViewElement)
    ensures WrapAll(range, wrappers + [outer]) == Wrapped(outer, WrapAll(range, wrappers))
  {
    var all := wrappers + [outer];
    assert all[..|all| - 1] == wrappers;
  }

  /** Wrapping adds exactly the given elements around the range, in order from the inside out. */
  lemma {:induction false} WrapAllAddsWrappers(range: ViewRange, wrappers: seq<ListViewElement>)
    ensures WrappersOf(WrapAll(range, wrappers)) == WrappersOf(range) + wrappers
    decreases |wrappers|
  {
    if wrappers != [] {
      var n := |wrappers|;
      WrapAllAddsWrappers(range, wrappers[..n - 1]);
      assert wrappers[..n - 1] + [wrappers[n - 1]] == wrappers;
    }
  }

  /** What `ListWalker.first(item, {lowerIndent: true})` gives after `steps` steps down `chain`. */
  function FirstLowerIndent(chain: seq<ModelItem>, steps: nat): Option<ModelItem> {
    if steps < |chain| then Some(chain[steps]) else None
  }

  /**
   * How many indent levels `wrapListItemBlock` visits: from `listIndent` down
   * to 0, fewer when the chain of lower-indent items runs out first, none
   * without `listIndent`.
   */
  function VisitedLevels(listItem: ModelItem, chain: seq<ModelItem>): (v: nat)
    ensures v <= |chain| + 1
    ensures v > 0 ==> listItem.listIndent.Some? && v <= listItem.listIndent.value + 1
    // The walk goes all the way down to indent 0 unless the chain runs out first.
    ensures listItem.listIndent.Some? && 0 <= listItem.listIndent.value <= |chain| ==> v == listItem.listIndent.value + 1
    ensures listItem.listIndent.Some? && listItem.listIndent.value > |chain| ==> v == |chain| + 1
  {
    match listItem.listIndent
    case None => 0
    case Some(n) => if n < 0 then 0 else if n <= |chain| then n + 1 else |chain| + 1
  }

  /** The item in charge of level `k`: the list item itself, then the lower-indent chain. */
  function LevelItem(listItem: ModelItem, chain: seq<ModelItem>, k: nat): ModelItem
    requires k <= |chain|
  {
    if k == 0 then listItem else chain[k - 1]
  }

  /** The list element for level `k`, at indent `listIndent - k`, with that level's item's type and property. */
  function LevelWrapper(listItem: ModelItem, chain: seq<ModelItem>, strategy: AttributeStrategy, k: nat): ListViewElement
    requires k < VisitedLevels(listItem, chain)
  {
    var item := LevelItem(listItem, chain, k);
    ListViewElement(listItem.listIndent.value - k, GetAttribute(item, "listType"), GetAttribute(item, strategy.attributeName))
  }

  /** The list elements of the first `k` visited levels, one for each level whose item the strategy applies to. */
  function WrappersUpTo(listItem: ModelItem, chain: seq<ModelItem>, strategy: AttributeStrategy, k: nat): seq<ListViewElement>
    requires k <= VisitedLevels(listItem, chain)
  {
    if k == 0 then []
    else WrappersUpTo(listItem, chain, strategy, k - 1)
         + (if strategy.appliesToListItem(LevelItem(listItem, chain, k - 1))
            then [LevelWrapper(listItem, chain, strategy, k - 1)] else [])
  }

  /** The list elements `wrapListItemBlock` wraps the block in, innermost first. */
  function ExpectedWrappers(listItem: ModelItem, chain: seq<ModelItem>, strategy: AttributeStrategy): seq<ListViewElement> {
    WrappersUpTo(listItem, chain, strategy, VisitedLevels(listItem, chain))
  }

  /** Without `listIndent` nothing is wrapped. */
  lemma NoIndentNoWrappers(listItem: ModelItem, chain: seq<ModelItem>, strategy: AttributeStrategy)
    requires listItem.listIndent.None?
    ensures ExpectedWrappers(listItem, chain, strategy) == []
  {
  }

  /** The element list grows by the level's element exactly when the strategy applies at that level. */
  lemma WrappersUpToStep(listItem: ModelItem, chain: seq<ModelItem>, strategy: AttributeStrategy, k: nat)
    requires 0 < k <= VisitedLevels(listItem, chain)
    ensures strategy.appliesToListItem(LevelItem(listItem, chain, k - 1)) ==>
      WrappersUpTo(listItem, chain, strategy, k) ==
        WrappersUpTo(listItem, chain, strategy, k - 1) + [LevelWrapper(listItem, chain, strategy, k - 1)]
    ensures !strategy.appliesToListItem(LevelItem(listItem, chain, k - 1)) ==>
      WrappersUpTo(listItem, chain, strategy, k) == WrappersUpTo(listItem, chain, strategy, k - 1)
  {
    var prev := WrappersUpTo(listItem, chain, strategy, k - 1);
    assert prev + [] == prev;
  }

  /**
   * Each element of `w` is the element of one of the first `k` levels, a level
   * the strategy applies to; the level is read off the element's indent.
   */
  ghost predicate FromAppliedLevels(w: seq<ListViewElement>, listItem: ModelItem, chain: seq<ModelItem>,
                                    strategy: AttributeStrategy, k: nat)
    requires k <= VisitedLevels(listItem, chain)
  {
    forall i :: 0 <= i < |w| ==>
      && listItem.listIndent.Some?
      && 0 <= listItem.listIndent.value - w[i].indent < k
      && strategy.appliesToListItem(LevelItem(listItem, chain, listItem.listIndent.value - w[i].indent))
      && w[i] == LevelWrapper(listItem, chain, strategy, listItem.listIndent.value - w[i].indent)
  }

  /** The first `k` levels give at most `k` elements, each the element of a level the strategy applies to. */
  lemma {:induction false} WrappersUpToLevels(listItem: ModelItem, chain: seq<ModelItem>, strategy: AttributeStrategy, k: nat)
    requires k <= VisitedLevels(listItem, chain)
    ensures |WrappersUpTo(listItem, chain, strategy, k)| <= k
    ensures FromAppliedLevels(WrappersUpTo(listItem, chain, strategy, k), listItem, chain, strategy, k)
  {
    if k > 0 {
      WrappersUpToLevels(listItem, chain, strategy, k - 1);
      WrappersUpToStep(listItem, chain, strategy, k);
      var prev := WrappersUpTo(listItem, chain, strategy, k - 1);
      var w := WrappersUpTo(listItem, chain, strategy, k);
      if strategy.appliesToListItem(LevelItem(listItem, chain, k - 1)) {
        var last := LevelWrapper(listItem, chain, strategy, k - 1);
        assert w == prev + [last];
        assert listItem.listIndent.value - last.indent == k - 1;
        assert FromAppliedLevels(w, listItem, chain, strategy, k);
      }
    }
  }

  /** Every one of the first `k` levels the strategy applies to contributes its element. */
  lemma {:induction false} WrappersUpToComplete(listItem: ModelItem, chain: seq<ModelItem>, strategy: AttributeStrategy, k: nat)
    requires k <= VisitedLevels(listItem, chain)
    ensures forall l :: 0 <= l < k && strategy.appliesToListItem(LevelItem(listItem, chain, l)) ==>
      LevelWrapper(listItem, chain, strategy, l) in WrappersUpTo(listItem, chain, strategy, k)
  {
    if k > 0 {
      WrappersUpToComplete(listItem, chain, strategy, k - 1);
      WrappersUpToStep(listItem, chain, strategy, k);
    }
  }

  /** The elements of the first `k` levels have strictly descending indents in `(listIndent - k, listIndent]`. */
  lemma {:induction false} WrappersUpToDescending(listItem: ModelItem, chain: seq<ModelItem>, strategy: AttributeStrategy, k: nat)
    requires k <= VisitedLevels(listItem, chain)
    ensures var w := WrappersUpTo(listItem, chain, strategy, k);
      forall i :: 0 <= i < |w| ==> listItem.listIndent.Some? && listItem.listIndent.value - k < w[i].indent <= listItem.listIndent.value
    ensures var w := WrappersUpTo(listItem, chain, strategy, k);
      forall i, j :: 0 <= i < j < |w| ==> w[i].indent > w[j].indent
  {
    if k > 0 {
      WrappersUpToDescending(listItem, chain, strategy, k - 1);
      WrappersUpToStep(listItem, chain, strategy, k);
    }
  }

  /**
   * What `wrapListItemBlock` does: at most `listIndent + 1` list elements, at
   * strictly descending indents between `listIndent` and 0, never below the
   * level where the lower-indent chain runs out, one for each visited level
   * the strategy applies to, with that level's list type and property.
   */
  lemma WrapListItemBlockShape(listItem: ModelItem, chain: seq<ModelItem>, strategy: AttributeStrategy)
    requires listItem.listIndent.Some?
    ensures |ExpectedWrappers(listItem, chain, strategy)| <= (if listItem.listIndent.value < 0 then 0 else listItem.listIndent.value + 1)
    ensures var n := listItem.listIndent.value; var w := ExpectedWrappers(listItem, chain, strategy);
      forall i :: 0 <= i < |w| ==> 0 <= w[i].indent <= n && w[i].indent >= n - |chain|
    ensures var w := ExpectedWrappers(listItem, chain, strategy);
      forall i, j :: 0 <= i < j < |w| ==> w[i].indent > w[j].indent
    ensures FromAppliedLevels(ExpectedWrappers(listItem, chain, strategy), listItem, chain, strategy, VisitedLevels(listItem, chain))
    ensures var w := ExpectedWrappers(listItem, chain, strategy);
      forall l :: 0 <= l < VisitedLevels(listItem, chain) && strategy.appliesToListItem(LevelItem(listItem, chain, l)) ==>
        LevelWrapper(listItem, chain, strategy, l) in w
  {
    var v := VisitedLevels(listItem, chain);
    WrappersUpToLevels(listItem, chain, strategy, v);
    WrappersUpToComplete(listItem, chain, strategy, v);
    WrappersUpToDescending(listItem, chain, strategy, v);
  }

  /** When the strategy applies at every visited level, every one of them is wrapped. */
  lemma {:induction false} AllLevelsWrapped(listItem: ModelItem, chain: seq<ModelItem>, strategy: AttributeStrategy, k: nat)
    requires k <= VisitedLevels(listItem, chain)
    requires forall l :: 0 <= l < k ==> strategy.appliesToListItem(LevelItem(listItem, chain, l))
    ensures |WrappersUpTo(listItem, chain, strategy, k)| == k
  {
    if k > 0 {
      AllLevelsWrapped(listItem, chain, strategy, k - 1);
    }
  }

  /** `wrapListItemBlock(listItem, viewRange, strategy, writer)`; the result is the wrapped range. */
  method WrapListItemBlock(listItem: ModelItem, chain: seq<ModelItem>, strategy: AttributeStrategy, viewRange: ViewRange)
    returns (range: ViewRange)
    ensures range == WrapAll(viewRange, ExpectedWrappers(listItem, chain, strategy))
  {
    range := viewRange;
    if listItem.listIndent.None? {
      return;
    }
    var listItemIndent := listItem.listIndent.value;
    var listType := GetAttribute(listItem, "listType");
    var listProperty := GetAttribute(listItem, strategy.attributeName);
    var currentListItem := listItem;
    var steps: nat := 0;  // how many times ListWalker.first has been followed
    var indent := listItemIndent;
    while indent >= 0
      invariant indent == listItemIndent - steps
      invariant steps <= |chain|
      invariant steps <= VisitedLevels(listItem, chain)
      invariant indent >= 0 ==> steps < VisitedLevels(listItem, chain)
      invariant currentListItem == LevelItem(listItem, chain, steps)
      invariant listType == GetAttribute(currentListItem, "listType")
      invariant listProperty == GetAttribute(currentListItem, strategy.attributeName)
      invariant range == WrapAll(viewRange, WrappersUpTo(listItem, chain, strategy, steps))
      decreases indent
    {
      ghost var before := WrappersUpTo(listItem, chain, strategy, steps);
      WrappersUpToStep(listItem, chain, strategy, steps + 1);
      if strategy.appliesToListItem(currentListItem) {
        var listViewElement := ListViewElement(indent, listType, listProperty);
        range := Wrapped(listViewElement, range);
        WrapAllSnoc(viewRange, before, listViewElement);
      }
      if indent == 0 {
        assert steps + 1 == VisitedLevels(listItem, chain);
        break;
      }
      var next := FirstLowerIndent(chain, steps);
      if next.None? {
        assert steps + 1 == VisitedLevels(listItem, chain);
        break;
      }
      currentListItem := next.value;
      steps := steps + 1;
      listType := GetAttribute(currentListItem, "listType");
      listProperty := GetAttribute(currentListItem, strategy.attributeName);
      indent := indent - 1;
    }
  }

  /**
   * The converter `listPropertiesDowncastConverter(strategy, model)` returns,
   * for a list item whose block maps to `viewElement`. `consumedItem` is what
   * `consumable.consume(listItem, evt.name)` answers; the result is the view
   * range on the block afterwards.
   */
  method DowncastConverter(consumedItem: bool, listItem: ModelItem, chain: seq<ModelItem>,
                           strategy: AttributeStrategy, viewElement: ViewElement)
    returns (view: ViewRange)
    ensures !consumedItem ==> view == On(viewElement)
    ensures consumedItem ==> WrappersOf(view) == ExpectedWrappers(listItem, chain, strategy)
    ensures consumedItem ==> view == WrapAll(On(viewElement), ExpectedWrappers(listItem, chain, strategy))
  {
    if !consumedItem {
      return On(viewElement);
    }
    view := WrapListItemBlock(listItem, chain, strategy, On(viewElement));
    WrapAllAddsWrappers(On(viewElement), ExpectedWrappers(listItem, chain, strategy));
  }
}
