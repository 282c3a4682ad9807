/**
 * The list tile (OSKUIListTile.swift): a title, an optional subtitle and
 * optional leading and trailing views, collected into the configuration its
 * style renders. A tile is a value; its modifiers build a new tile.
 */
module ListTileView {
  import opened Wrappers

  /** A type-erased view (`AnyView`); what it shows is not modelled. */
  type AnyView

  /** The four slots. The title is not optional, so no tile is ever without one. */
  datatype StyleConfiguration = StyleConfiguration(
    title: AnyView,
    subtitle: Option<AnyView>,
    leading: Option<AnyView>,
    trailing: Option<AnyView>)

  /** Two configurations that show the same title and subtitle. */
  ghost predicate SameText(a: StyleConfiguration, b: StyleConfiguration)
  {
    a.title == b.title && a.subtitle == b.subtitle
  }

  datatype ListTile = ListTile(configuration: StyleConfiguration)
  {
    /** One-argument `oskuiLeading`: keeps the text, sets the leading view and drops any trailing view. */
    function Leading(leading: AnyView): (tile: ListTile)
      ensures SameText(tile.configuration, configuration)
      ensures tile.configuration.leading == Some(leading)
      ensures tile.configuration.trailing == None
    {
      WithSlots(configuration.title, configuration.subtitle, Some(leading), None)
    }

    /** Two-argument `oskuiLeading`: keeps the text and sets both side views. */
    function LeadingAndTrailing(leading: AnyView, trailing: AnyView): (tile: ListTile)
      ensures SameText(tile.configuration, configuration)
      ensures tile.configuration.leading == Some(leading)
      ensures tile.configuration.trailing == Some(trailing)
    {
      WithSlots(configuration.title, configuration.subtitle, Some(leading), Some(trailing))
    }

    /** `oskuiTrailing`: keeps the text, sets the trailing view and drops any leading view. */
    function Trailing(trailing: AnyView): (tile: ListTile)
      ensures SameText(tile.configuration, configuration)
      ensures tile.configuration.leading == None
      ensures tile.configuration.trailing == Some(trailing)
    {
      WithSlots(configuration.title, configuration.subtitle, None, Some(trailing))
    }
  }

  /** The internal initialiser: every slot as given. */
  function WithSlots(title: AnyView, subtitle: Option<AnyView>, leading: Option<AnyView>, trailing: Option<AnyView>): (tile: ListTile)
    ensures tile.configuration.title == title
    ensures tile.configuration.subtitle == subtitle
    ensures tile.configuration.leading == leading && tile.configuration.trailing == trailing
  {
    ListTile(StyleConfiguration(title, subtitle, leading, trailing))
  }

  /** `init(title:subtitle:)`: a subtitle, and no side views. */
  function TitleAndSubtitle(title: AnyView, subtitle: AnyView): (tile: ListTile)
    ensures tile.configuration.title == title && tile.configuration.subtitle == Some(subtitle)
    ensures tile.configuration.leading == None && tile.configuration.trailing == None
  {
    WithSlots(title, Some(subtitle), None, None)
  }

  /** `init(title:)`: the title alone. */
  function TitleOnly(title: AnyView): (tile: ListTile)
    ensures tile.configuration.title == title
    ensures tile.configuration.subtitle == None
    ensures tile.configuration.leading == None && tile.configuration.trailing == None
  {
    WithSlots(title, None, None, None)
  }

  /** `oskuiTrailing` after one-argument `oskuiLeading` loses the leading view: only the last modifier counts. */
  lemma TrailingAfterLeadingLosesLeading(tile: ListTile, leading: AnyView, trailing: AnyView)
    ensures tile.Leading(leading).Trailing(trailing) == tile.Trailing(trailing)
    ensures tile.Leading(leading).Trailing(trailing).configuration.leading == None
  {
  }

  /** One-argument `oskuiLeading` after `oskuiTrailing` loses the trailing view. */
  lemma LeadingAfterTrailingLosesTrailing(tile: ListTile, leading: AnyView, trailing: AnyView)
    ensures tile.Trailing(trailing).Leading(leading) == tile.Leading(leading)
    ensures tile.Trailing(trailing).Leading(leading).configuration.trailing == None
  {
  }

  /**
   * Each modifier sets both side slots and keeps only the text, so its result
   * depends on the receiver's title and subtitle alone: whatever modifiers
   * were applied before, the last one alone decides the side slots.
   */
  lemma LastModifierDecidesSideSlots(a: ListTile, b: ListTile, l: AnyView, t: AnyView)
    requires SameText(a.configuration, b.configuration)
    ensures a.Leading(l) == b.Leading(l)
    ensures a.Trailing(t) == b.Trailing(t)
    ensures a.LeadingAndTrailing(l, t) == b.LeadingAndTrailing(l, t)
  {
  }

  /**
   * A one-argument modifier leaves exactly one side view; only two-argument
   * `oskuiLeading` sets both side views.
   */
  lemma OneSidedModifiersFillOneSide(tile: ListTile, view: AnyView, l: AnyView, t: AnyView)
    ensures tile.Leading(view).configuration.leading.Some? && tile.Leading(view).configuration.trailing.None?
    ensures tile.Trailing(view).configuration.leading.None? && tile.Trailing(view).configuration.trailing.Some?
    ensures tile.LeadingAndTrailing(l, t).configuration.leading.Some?
    ensures tile.LeadingAndTrailing(l, t).configuration.trailing.Some?
  {
  }
}
