# OSkey SwiftUI kit: carousel settings, dot indicators and list-tile slots

This project models the stateable logic of two SwiftUI controls, a sliding carousel and a list tile, and proves properties about it in Dafny:

- **Auto-scroll setting** (`OSKUICarouselAutoScroll`): `.inactive` or `.active(t)`. Its `isActive` and `interval` are derived from the case, and `defaultActive` is a constant. Module `CarouselAutoScroll`, file `AutoScroll.dfy`.
- **Carousel content** (`OSKUICarousel`): `generateContent` fills the style configuration. It builds one dot indicator per data element, using a counter that starts at 0. It passes the widths through unchanged. The initialisers and `body` write the measured size into the view model. Module `CarouselView`, file `Carousel.dfy`. The dot loop is the method `MakeDots`. It is proved equal to the recursive reference definition `DotsFrom`. The view model is a stand-in class for a collaborator that is otherwise left out: it holds `data`, `isActiveItem` and an item-width function, which the model takes as fixed, and a mutable `viewSize`. Its constructor gives `viewSize` its zero starting value, as the real view model does. In the source, `isActiveItem` reads the view model's current active index, which drags and timer ticks change between renders. The model's `isActiveItem` is therefore a snapshot of that test at the time of one render.
- **List tile** (`OSKUIListTile`): a configuration with a required title and optional subtitle, leading and trailing views. The three initialisers and three modifiers build these configurations. Module `ListTileView`, file `ListTile.dfy`. Views are an opaque type, and Swift's optionals are `Option` (file `Wrappers.dfy`).

`TimeInterval` and `CGFloat` are modelled as `real`. Swift's `Int` dot counter is modelled as `int`. It cannot overflow, because it never exceeds the number of elements in a collection.

## Model

| member | source | states |
|---|---|---|
| CarouselAutoScroll.AutoScroll.IsActive | Sources/OSKUICarousel/Models/OSKUICarouselAutoScroll.swift:39-45 | total on both cases; `.inactive` is never active; a setting is active exactly when its interval is positive |
| CarouselAutoScroll.AutoScroll.Interval | Sources/OSKUICarousel/Models/OSKUICarouselAutoScroll.swift:47-53 | total on both cases; 0 for `.inactive`, the period itself, unclamped, for `.active(t)` |
| CarouselAutoScroll.InactiveIsNeverActive | Sources/OSKUICarousel/Models/OSKUICarouselAutoScroll.swift:43 | `.inactive` is not active and has interval 0 |
| CarouselAutoScroll.ActiveExactlyWhenPositive | Sources/OSKUICarousel/Models/OSKUICarouselAutoScroll.swift:42 | `.active(t)` is active iff `t > 0`, and its interval is `t` for every `t` |
| CarouselAutoScroll.NonPositivePeriodIsNotCoerced | Sources/OSKUICarousel/Models/OSKUICarouselAutoScroll.swift:42 | `.active(t)` with `t <= 0` is inactive and differs from `defaultActive`; the enum substitutes no default |
| CarouselAutoScroll.DefaultActiveIsActiveFive | Sources/OSKUICarousel/Models/OSKUICarouselAutoScroll.swift:35-37 | `defaultActive` is `.active(5)`: active, interval 5 |
| CarouselAutoScroll.ActiveIffPositiveInterval | Sources/OSKUICarousel/Models/OSKUICarouselAutoScroll.swift:40-53 | for every setting, `isActive` holds iff `interval > 0` |
| CarouselView.DotsFrom | Sources/OSKUICarousel/Views/OSKUICarousel.swift:126-130 | the dots built from a counter starting at `first`: one dot per element, the first dot carrying `first` and the first element's active flag |
| CarouselView.DotsFromAt | Sources/OSKUICarousel/Views/OSKUICarousel.swift:127-128 | the k-th dot has index `first + k` and the active flag of the k-th element |
| CarouselView.DotsFromAppend | Sources/OSKUICarousel/Views/OSKUICarousel.swift:126-130 | building dots for a prefix and then the rest, with the counter carried over, gives the dots of the whole sequence |
| CarouselView.DotIndicesCountUp | Sources/OSKUICarousel/Views/OSKUICarousel.swift:107-130 | dot indices are exactly 0 … \|data\|-1, strictly increasing, hence distinct |
| CarouselView.MakeDots | Sources/OSKUICarousel/Views/OSKUICarousel.swift:107-130 | the counter loop yields exactly `DotsFrom(data, isActiveItem, 0)`: one dot per element, the k-th with index k and `isActiveItem(data[k])` |
| CarouselView.Carousel.constructor | Sources/OSKUICarousel/Views/OSKUICarousel.swift:71-100 | builds a fresh view model over the given data, so no two carousels share one; `viewSize` is `proxy.size` when a proxy is given and zero otherwise; establishes `Valid()` (with a proxy, `viewSize` equals the proxy's size) |
| CarouselView.Carousel.GenerateContent | Sources/OSKUICarousel/Views/OSKUICarousel.swift:106-134 | content row and dots follow the same data in the same order; `maxWidth` is the proxy width and `itemMaxWidth` the view model's item width, untransformed |
| CarouselView.Carousel.Body | Sources/OSKUICarousel/Views/OSKUICarousel.swift:138-149 | with a stored proxy, renders with it and leaves `viewSize` alone; otherwise writes the reader's size into `viewSize` first, so `itemMaxWidth` is computed from that size; keeps `Valid()`, so with a stored proxy `itemMaxWidth` is computed from the proxy's size |
| ListTileView.WithSlots | Sources/OSKUIListTile/Views/OSKUIListTile.swift:53-55 | every slot as given |
| ListTileView.TitleAndSubtitle | Sources/OSKUIListTile/Views/OSKUIListTile.swift:32-42 | title and subtitle set, leading and trailing nil |
| ListTileView.TitleOnly | Sources/OSKUIListTile/Views/OSKUIListTile.swift:44-51 | title set, subtitle, leading and trailing nil |
| ListTileView.ListTile.Leading | Sources/OSKUIListTile/Views/OSKUIListTile.swift:64-66 | keeps title and subtitle, sets leading, clears trailing |
| ListTileView.ListTile.LeadingAndTrailing | Sources/OSKUIListTile/Views/OSKUIListTile.swift:68-73 | keeps title and subtitle, sets both leading and trailing |
| ListTileView.ListTile.Trailing | Sources/OSKUIListTile/Views/OSKUIListTile.swift:75-77 | keeps title and subtitle, sets trailing, clears leading |
| ListTileView.TrailingAfterLeadingLosesLeading | Sources/OSKUIListTile/Views/OSKUIListTile.swift:64-77 | `oskuiTrailing` after `oskuiLeading` equals `oskuiTrailing` alone: the leading view is lost |
| ListTileView.LeadingAfterTrailingLosesTrailing | Sources/OSKUIListTile/Views/OSKUIListTile.swift:64-77 | `oskuiLeading` after `oskuiTrailing` equals `oskuiLeading` alone: the trailing view is lost |
| ListTileView.LastModifierDecidesSideSlots | Sources/OSKUIListTile/Views/OSKUIListTile.swift:64-77 | each modifier's result depends only on the receiver's title and subtitle, so whatever modifiers came before, the last one alone decides both side slots |
| ListTileView.OneSidedModifiersFillOneSide | Sources/OSKUIListTile/Views/OSKUIListTile.swift:64-77 | after a one-argument modifier the other side is nil; only the two-argument `oskuiLeading` gives both sides |

The title slot is a non-optional field of `StyleConfiguration`, so no construction path can leave it nil. Tiles and configurations are Dafny values. So a modifier returns a new tile and cannot change its receiver, which matches Swift's struct semantics.

The second carousel initialiser (`Sources/OSKUICarousel/Views/OSKUICarousel.swift:174-201`) differs from the first only in deriving the element key from `Identifiable`. It is modelled by the same constructor, because keys are not part of this model.

## Left out

- `OSKUICarouselViewModel` (its initialiser's index check, drag clamping, swipe threshold, timer accumulation, wrap sentinels, the settle jump, the coercion of a non-positive auto-scroll interval to `defaultActive`) is not part of this model. The view model appears only as the data, `isActiveItem` test, item-width function and `viewSize` field that the view uses. `isActiveItem` is an arbitrary function of the element, and the item width is an arbitrary function of `viewSize`. `data` is whatever sequence the view model displays (with wrapping, the items plus their two sentinels). Because of the coercion, a carousel given `.active(0)` and more than one item scrolls automatically, since the view model substitutes `defaultActive`, even though the enum's own `isActive` is false for `.active(0)`. With a single item, no setting scrolls. The `CarouselAutoScroll` lemmas are about the enum alone.
- Rendering and layout: the `HStack`, frames, scale effect, offset, animation, gesture and timer/lifecycle attachment in `generateContent`. The content row is modelled only as the sequence of items it shows. `style.makeBody`, the style protocols, `AnyView` type erasure, environment injection, the default carousel and list-tile styles and the library-content preview are also left out. They are presentation.
- The app-lifecycle notification extension and the demo app: platform notification plumbing and example code.
- Floating point: `TimeInterval`/`CGFloat` are `real`, so NaN, infinities and rounding are not modelled. The source only compares with 0 and passes values through.
- The content closure that turns an element into a view is not modelled. Elements stand for their views in the content row.
