/**
 * The carousel view (OSKUICarousel.swift): how `generateContent` fills the
 * style configuration, in particular the dot indicators, and where the view
 * writes the measured size into its view model.
 *
 * The view model's drag, timer and wrap behaviour is not part of this model:
 * the view only reads its display data, its `isActiveItem` test and its
 * item width, and writes its `viewSize`.
 */
module CarouselView {
  import opened Wrappers

  datatype Size = Size(width: real, height: real)

  /** What a `GeometryProxy` tells the view: the size it is laid out in. */
  datatype GeometryProxy = GeometryProxy(size: Size)

  /** One page indicator: its position among the items, and whether its item is the active one. */
  datatype Dot = Dot(index: int, isActiveItem: bool)

  /**
   * What the style renders. The content row is modelled by the sequence of
   * items it shows, in order; its layout and gestures are not modelled.
   */
  datatype StyleConfiguration<T> = StyleConfiguration(
    content: seq<T>,
    maxWidth: real,
    itemMaxWidth: real,
    dots: seq<Dot>)

  /**
   * The dots built for `data` by a counter that starts at `first` and goes
   * up by one per element: the reference definition of the `map` in
   * `generateContent`.
   */
  function DotsFrom<T>(data: seq<T>, isActiveItem: T -> bool, first: int): (dots: seq<Dot>)
    ensures |dots| == |data|
    ensures data != [] ==> dots[0] == Dot(first, isActiveItem(data[0]))
  {
    if data == [] then []
    else [Dot(first, isActiveItem(data[0]))] + DotsFrom(data[1..], isActiveItem, first + 1)
  }

  /** The k-th dot carries the counter's value after k steps and the test applied to the k-th element. */
  lemma {:induction false} DotsFromAt<T>(data: seq<T>, isActiveItem: T -> bool, first: int, k: int)
    requires 0 <= k < |data|
    ensures DotsFrom(data, isActiveItem, first)[k] == Dot(first + k, isActiveItem(data[k]))
  {
    if k > 0 {
      DotsFromAt(data[1..], isActiveItem, first + 1, k - 1);
    }
  }

  /** Building the dots for two parts one after the other, with the counter carried over, builds the dots of the whole. */
  lemma {:induction false} DotsFromAppend<T>(a: seq<T>, b: seq<T>, isActiveItem: T -> bool, first: int)
    ensures DotsFrom(a + b, isActiveItem, first)
         == DotsFrom(a, isActiveItem, first) + DotsFrom(b, isActiveItem, first + |a|)
  {
    if a == [] {
      assert a + b == b;
    } else {
      assert (a + b)[1..] == a[1..] + b;
      DotsFromAppend(a[1..], b, isActiveItem, first + 1);
    }
  }

  /** The dot indices run 0, 1, ..., |data| - 1: strictly increasing by one, hence pairwise distinct. */
  lemma DotIndicesCountUp<T>(data: seq<T>, isActiveItem: T -> bool)
    ensures var dots := DotsFrom(data, isActiveItem, 0);
      (forall k :: 0 <= k < |dots| ==> dots[k].index == k) &&
      (forall i, j :: 0 <= i < j < |dots| ==> dots[i].index < dots[j].index)
  {
    forall k | 0 <= k < |data| ensures DotsFrom(data, isActiveItem, 0)[k].index == k {
      DotsFromAt(data, isActiveItem, 0, k);
    }
  }

  /**
   * The dot construction of `generateContent`: a counter starting at 0,
   * read into each dot and then incremented, once per element of `data`.
   */
  method MakeDots<T>(data: seq<T>, isActiveItem: T -> bool) returns (dots: seq<Dot>)
    ensures dots == DotsFrom(data, isActiveItem, 0)
    ensures |dots| == |data|
    ensures forall k :: 0 <= k < |data| ==> dots[k] == Dot(k, isActiveItem(data[k]))
  {
    var index := 0;
    dots := [];
    for i := 0 to |data|
      invariant index == i
      invariant dots == DotsFrom(data[..i], isActiveItem, 0)
    {
      var dot := Dot(index, isActiveItem(data[i]));
      index := index + 1;
      assert data[..i + 1] == data[..i] + [data[i]];
      DotsFromAppend(data[..i], [data[i]], isActiveItem, 0);
      dots := dots + [dot];
    }
    assert data[..|data|] == data;
    forall k | 0 <= k < |data| ensures dots[k] == Dot(k, isActiveItem(data[k])) {
      DotsFromAt(data, isActiveItem, 0, k);
    }
  }

  /**
   * A stand-in for the carousel's view model, holding only what the view
   * uses. `itemWidthOf` stands for the view model's own computation of the
   * item width from the measured size, and `isActiveItem` for its test at
   * the moment of rendering; neither computation is part of this model.
   */
  class ViewModel<T> {
    const data: seq<T>
    const isActiveItem: T -> bool
    const itemWidthOf: Size -> real
    var viewSize: Size

    constructor (data: seq<T>, isActiveItem: T -> bool, itemWidthOf: Size -> real)
      ensures this.data == data && this.isActiveItem == isActiveItem && this.itemWidthOf == itemWidthOf
      ensures viewSize == Size(0.0, 0.0)
    {
      this.data := data;
      this.isActiveItem := isActiveItem;
      this.itemWidthOf := itemWidthOf;
      viewSize := Size(0.0, 0.0);
    }

    function ItemWidth(): (width: real)
      reads this
    {
      itemWidthOf(viewSize)
    }
  }

  class Carousel<T> {
    const viewModel: ViewModel<T>
    /** The proxy given when the carousel sits in an unbounded container. */
    const proxy: Option<GeometryProxy>

    /** With a proxy, the view model's size is the proxy's size: nothing else writes it. */
    ghost predicate Valid()
      reads this, viewModel
    {
      proxy.Some? ==> viewModel.viewSize == proxy.value.size
    }

    /**
     * Both initialisers: each builds a fresh view model for the data, whose
     * size starts at zero; with a proxy, the view model learns its size at once.
     */
    constructor (data: seq<T>, isActiveItem: T -> bool, itemWidthOf: Size -> real, proxy: Option<GeometryProxy>)
      ensures Valid() && fresh(viewModel) && this.proxy == proxy
      ensures viewModel.data == data && viewModel.isActiveItem == isActiveItem && viewModel.itemWidthOf == itemWidthOf
      ensures viewModel.viewSize == if proxy.Some? then proxy.value.size else Size(0.0, 0.0)
    {
      var vm := new ViewModel(data, isActiveItem, itemWidthOf);
      if proxy.Some? {
        vm.viewSize := proxy.value.size;
      }
      this.viewModel := vm;
      this.proxy := proxy;
    }

    /**
     * `generateContent`: the content row and the dots both follow the view
     * model's data, in the same order; the widths are passed through.
     */
    method GenerateContent(proxy: GeometryProxy) returns (configuration: StyleConfiguration<T>)
      ensures configuration.content == viewModel.data
      ensures configuration.maxWidth == proxy.size.width
      ensures configuration.itemMaxWidth == viewModel.ItemWidth()
      ensures configuration.dots == DotsFrom(viewModel.data, viewModel.isActiveItem, 0)
      ensures |configuration.dots| == |configuration.content|
      ensures forall k :: 0 <= k < |configuration.content| ==>
        configuration.dots[k] == Dot(k, viewModel.isActiveItem(configuration.content[k]))
    {
      var dots := MakeDots(viewModel.data, viewModel.isActiveItem);
      configuration := StyleConfiguration(viewModel.data, proxy.size.width, viewModel.ItemWidth(), dots);
    }

    /**
     * `body`: with a proxy given at construction, render with it; otherwise
     * `reader` is what the geometry reader measures, which is first written
     * into the view model and then used to render.
     */
    method Body(reader: GeometryProxy) returns (configuration: StyleConfiguration<T>)
      requires Valid()
      modifies viewModel
      ensures Valid()
      ensures viewModel.viewSize == if proxy.Some? then old(viewModel.viewSize) else reader.size
      ensures proxy.None? ==> configuration.itemMaxWidth == viewModel.itemWidthOf(reader.size)
      ensures proxy.Some? ==> configuration.itemMaxWidth == viewModel.itemWidthOf(proxy.value.size)
      ensures var used := if proxy.Some? then proxy.value else reader;
        configuration == StyleConfiguration(
          viewModel.data, used.size.width, viewModel.ItemWidth(),
          DotsFrom(viewModel.data, viewModel.isActiveItem, 0))
    {
      if proxy.Some? {
        configuration := GenerateContent(proxy.value);
      } else {
        viewModel.viewSize := reader.size;
        configuration := GenerateContent(reader);
      }
    }
  }
}
