// The For You / News switcher in the page header: which feed it shows as
// active, and what a click on one of its two links does.

module FeedSwitcher {
  import opened Wrappers

  /** The two feeds the switcher offers. */
  datatype FeedType = ForYou | News

  /** The switcher's colour scheme. */
  datatype Variant = Dark | Light

  /** The variant in use: the one given, `Dark` when none is. */
  function ResolvedVariant(variant: Option<Variant>): (v: Variant)
    ensures variant.Some? ==> v == variant.value
    ensures variant.None? ==> v == Dark
  {
    variant.GetOr(Dark)
  }

  /**
   * The active feed: the controlled `value` when one is given, otherwise
   * derived from the current pathname, where only "/news" means News.
   */
  function ActiveFeed(value: Option<FeedType>, pathname: string): (feed: FeedType)
    ensures value.Some? ==> feed == value.value
    ensures value.None? ==> (feed == News <==> pathname == "/news")
    ensures value.None? ==> (feed == ForYou <==> pathname != "/news")
  {
    match value
    case Some(f) => f
    case None => if pathname == "/news" then News else ForYou
  }

  /** The path each link navigates to. */
  function LinkTarget(feed: FeedType): string {
    match feed
    case ForYou => "/"
    case News => "/news"
  }

  /**
   * An uncontrolled switcher shows as active the feed whose link brought the
   * browser to the current path.
   */
  lemma ActiveFeedOfLinkTarget(feed: FeedType)
    ensures ActiveFeed(None, LinkTarget(feed)) == feed
  {
  }

  /**
   * The `onChange` calls one click on the link of `feed` makes: exactly one,
   * with the clicked feed, when a callback was given, and none otherwise.
   */
  function HandleClick(hasOnChange: bool, feed: FeedType): (calls: seq<FeedType>)
    ensures hasOnChange <==> |calls| == 1
    ensures hasOnChange ==> calls[0] == feed
    ensures !hasOnChange ==> calls == []
  {
    if hasOnChange then [feed] else []
  }
}
