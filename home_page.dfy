// The home page: which card is active as the feed scrolls, the reset when
// the feed type changes, and how card clicks reach the like and bookmark
// mutations.

module HomePage {
  import opened Wrappers
  import opened FeedTypes
  import opened FeedStores
  import opened UseFeed
  import FeedsApi
  import FeedSwitcher

  // ---------------------------------------------------------------------------
  // The active index

  /**
   * `Math.round(scrollTop / clientHeight)` for a non-negative offset and a
   * positive height: the index `n` with `n - 1/2 <= scrollTop / clientHeight
   * < n + 1/2`, written here with both sides multiplied by `2 * clientHeight`.
   */
  function ActiveIndexFor(scrollTop: nat, clientHeight: nat): (index: nat)
    requires clientHeight > 0
    ensures 2 * index * clientHeight <= 2 * scrollTop + clientHeight < 2 * index * clientHeight + 2 * clientHeight
  {
    var n := 2 * scrollTop + clientHeight;
    var q := n / (2 * clientHeight);
    DivBounds(n, 2 * clientHeight);
    assert q * (2 * clientHeight) == 2 * q * clientHeight;
    q
  }

  lemma DivBounds(n: nat, d: nat)
    requires d > 0
    ensures (n / d) * d <= n < (n / d) * d + d
  {
  }

  lemma MulMonotone(a: nat, b: nat, c: nat)
    requires a <= b
    ensures a * c <= b * c
  {
  }

  lemma MulSucc(a: nat, c: nat)
    ensures (a + 1) * c == a * c + c
  {
  }

  /** Two quotients of the same number by the same divisor are equal. */
  lemma QuotientUnique(a: nat, d: nat, x: nat, y: nat)
    requires d > 0
    requires x * d <= a < x * d + d
    requires y * d <= a < y * d + d
    ensures x == y
  {
    if x < y {
      MulMonotone(x + 1, y, d);
      MulSucc(x, d);
    } else if y < x {
      MulMonotone(y + 1, x, d);
      MulSucc(y, d);
    }
  }

  lemma DoubleProduct(n: nat, h: nat)
    ensures 2 * n * h == n * (2 * h)
  {
  }

  /** The rounding has one answer: any index within half a screen of the offset is the one computed. */
  lemma ActiveIndexIsNearest(scrollTop: nat, clientHeight: nat, n: nat)
    requires clientHeight > 0
    requires 2 * n * clientHeight <= 2 * scrollTop + clientHeight < 2 * n * clientHeight + 2 * clientHeight
    ensures n == ActiveIndexFor(scrollTop, clientHeight)
  {
    var i := ActiveIndexFor(scrollTop, clientHeight);
    DoubleProduct(n, clientHeight);
    DoubleProduct(i, clientHeight);
    QuotientUnique(2 * scrollTop + clientHeight, 2 * clientHeight, n, i);
  }

  /** Three quarters down the second screen rounds to the third card. */
  lemma ActiveIndexExample()
    ensures ActiveIndexFor(1600, 800) == 2
    ensures ActiveIndexFor(1999, 800) == 2 && ActiveIndexFor(2000, 800) == 3
  {
  }

  /** `isActive={index === activeIndex}` for each card of a feed of `count`. */
  function ActiveFlags(count: nat, activeIndex: int): (flags: seq<bool>)
    ensures |flags| == count
    ensures forall i :: 0 <= i < count ==> (flags[i] <==> i == activeIndex)
  {
    seq(count, i => i == activeIndex)
  }

  function CountTrue(flags: seq<bool>): nat
    decreases |flags|
  {
    if flags == [] then 0
    else CountTrue(flags[..|flags| - 1]) + (if flags[|flags| - 1] then 1 else 0)
  }

  /** Exactly one card is active when the index is within the feed, and none otherwise. */
  lemma {:induction false} OneActiveCard(count: nat, activeIndex: int)
    ensures CountTrue(ActiveFlags(count, activeIndex)) == if 0 <= activeIndex < count then 1 else 0
    decreases count
  {
    if count > 0 {
      var flags := ActiveFlags(count, activeIndex);
      assert flags[..count - 1] == ActiveFlags(count - 1, activeIndex);
      OneActiveCard(count - 1, activeIndex);
    }
  }

  // ---------------------------------------------------------------------------
  // The remote effect of a like or bookmark

  /**
   * The ids the backend holds an interaction of one kind for, after a call
   * has been made: a successful record adds the id, a successful remove
   * deletes it, and a failed call changes nothing.
   */
  function ServerAfter(server: set<string>, call: RemoteCall, succeeded: bool): set<string> {
    if !succeeded then server
    else if call.RecordCall? then server + {call.contentId}
    else server - {call.contentId}
  }

  /** The page's shadow set and the backend agree about `id`. */
  predicate Agrees(local: set<string>, server: set<string>, id: string) {
    id in local <==> id in server
  }

  /** The flag the page hands a mutation on a card click, as written: always `false`. */
  function PageFlagAsWritten(shadow: set<string>, id: string): bool {
    false
  }

  /** The flag the click should hand the mutation: the state the card shows. */
  function PageFlag(shadow: set<string>, id: string): bool {
    id in shadow
  }

  /**
   * As written, every card click records and none removes, and a second
   * click on a liked card leaves the page showing it unliked while the
   * backend still holds the like.
   */
  lemma AsWrittenClickDesyncs(kind: MutationKind, id: string)
    ensures forall shadow :: ChooseCall(kind, id, PageFlagAsWritten(shadow, id)).RecordCall?
    ensures var local, server := {id}, {id};
      var call := ChooseCall(kind, id, PageFlagAsWritten(local, id));
      Agrees(local, server, id) && !Agrees(SettledShadow(local, id, true), ServerAfter(server, call, true), id)
  {
  }

  /**
   * Passing the shown state keeps the page and the backend in agreement
   * about the clicked id, whether the call succeeds or fails.
   */
  lemma PageFlagKeepsAgreement(kind: MutationKind, local: set<string>, server: set<string>, id: string, succeeded: bool)
    requires Agrees(local, server, id)
    ensures Agrees(SettledShadow(local, id, succeeded), ServerAfter(server, ChooseCall(kind, id, PageFlag(local, id)), succeeded), id)
  {
  }

  // ---------------------------------------------------------------------------
  // The page

  class Page {
    var feedType: FeedSwitcher.FeedType
    /** The feed container's `scrollTop`. */
    var scrollTop: nat
    const store: FeedStore
    const likeMutation: InteractionMutation
    const bookmarkMutation: InteractionMutation
    const apiBase: string

    ghost predicate Valid()
      reads this
    {
      likeMutation.kind == LikeMutation && likeMutation.store == store &&
      bookmarkMutation.kind == BookmarkMutation && bookmarkMutation.store == store
    }

    /** The first render and its reset effect: the For You feed, scrolled to the top, on card 0. */
    constructor (store: FeedStore, apiBase: string)
      modifies store
      ensures Valid() && this.store == store && this.apiBase == apiBase
      ensures feedType == FeedSwitcher.ForYou && scrollTop == 0
      ensures store.State() == old(store.State()).(activeIndex := 0, progress := 0.0)
    {
      this.store := store;
      this.apiBase := apiBase;
      likeMutation := new InteractionMutation(LikeMutation, store);
      bookmarkMutation := new InteractionMutation(BookmarkMutation, store);
      feedType := FeedSwitcher.ForYou;
      scrollTop := 0;
      new;
      ResetFeedPosition();
    }

    /** The body of the feed-type effect. */
    method ResetFeedPosition()
      modifies this, store
      ensures feedType == old(feedType) && scrollTop == 0
      ensures store.State() == old(store.State()).(activeIndex := 0, progress := 0.0)
    {
      scrollTop := 0;
      store.SetActiveIndex(0);
      store.ResetProgress();
    }

    /** `handleScroll`: the store moves to the rounded index, and resets progress, only when the index changes. */
    method HandleScroll(clientHeight: nat)
      requires clientHeight > 0
      modifies store
      ensures var index := ActiveIndexFor(scrollTop, clientHeight);
        if index != old(store.activeIndex)
        then store.State() == old(store.State()).(activeIndex := index, progress := 0.0)
        else store.State() == old(store.State())
    {
      var newIndex := ActiveIndexFor(scrollTop, clientHeight);
      if store.activeIndex != newIndex {
        store.SetActiveIndex(newIndex);
        store.ResetProgress();
      }
    }

    /** The user scrolls the container to `offset`, which fires its `onScroll`. */
    method ScrollTo(offset: nat, clientHeight: nat)
      requires clientHeight > 0
      modifies this, store
      ensures scrollTop == offset && feedType == old(feedType)
      ensures var index := ActiveIndexFor(offset, clientHeight);
        if index != old(store.activeIndex)
        then store.State() == old(store.State()).(activeIndex := index, progress := 0.0)
        else store.State() == old(store.State())
    {
      scrollTop := offset;
      HandleScroll(clientHeight);
    }

    /** `setFeedType`: the reset effect runs only when the feed type actually changes. */
    method SetFeedType(f: FeedSwitcher.FeedType)
      modifies this, store
      ensures feedType == f
      ensures f != old(feedType) ==> scrollTop == 0 && store.State() == old(store.State()).(activeIndex := 0, progress := 0.0)
      ensures f == old(feedType) ==> scrollTop == old(scrollTop) && store.State() == old(store.State())
    {
      var changed := f != feedType;
      feedType := f;
      if changed {
        ResetFeedPosition();
      }
    }

    /** A click on one of the switcher's links, whose `onChange` is `setFeedType`. */
    method SwitcherClick(feed: FeedSwitcher.FeedType)
      modifies this, store
      ensures feedType == feed
      ensures feed != old(feedType) ==> scrollTop == 0 && store.State() == old(store.State()).(activeIndex := 0, progress := 0.0)
      ensures feed == old(feedType) ==> scrollTop == old(scrollTop) && store.State() == old(store.State())
    {
      var calls := FeedSwitcher.HandleClick(true, feed);
      if calls != [] {
        SetFeedType(calls[0]);
      }
    }

    /** The switcher is controlled by the page: it shows the page's feed type, whatever the path. */
    function SwitcherActiveFeed(pathname: string): (feed: FeedSwitcher.FeedType)
      reads this
      ensures feed == feedType
    {
      FeedSwitcher.ActiveFeed(Some(feedType), pathname)
    }

    /** The switcher is dark over the For You feed and light over News. */
    function SwitcherVariant(): (v: FeedSwitcher.Variant)
      reads this
      ensures v == FeedSwitcher.Dark <==> feedType == FeedSwitcher.ForYou
      ensures v == FeedSwitcher.Light <==> feedType == FeedSwitcher.News
    {
      FeedSwitcher.ResolvedVariant(Some(if feedType == FeedSwitcher.ForYou then FeedSwitcher.Dark else FeedSwitcher.Light))
    }

    /** `handleLike`: the like mutation with the flag given. */
    method HandleLike(itemId: string, isLiked: bool, reply: FeedsApi.Exchange)
      returns (sent: FeedsApi.Request, invalidated: seq<string>)
      requires Valid()
      modifies store
      ensures sent == CallRequest(apiBase, ChooseCall(LikeMutation, itemId, isLiked))
      ensures invalidated == FeedKey
      ensures store.State() == old(store.State()).(likedIds :=
                SettledShadow(old(store.likedIds), itemId, CallSucceeds(ChooseCall(LikeMutation, itemId, isLiked), reply)))
    {
      sent, invalidated := likeMutation.Mutate(apiBase, itemId, isLiked, reply);
    }

    /** `handleBookmark`: the bookmark mutation with the flag given. */
    method HandleBookmark(itemId: string, isBookmarked: bool, reply: FeedsApi.Exchange)
      returns (sent: FeedsApi.Request, invalidated: seq<string>)
      requires Valid()
      modifies store
      ensures sent == CallRequest(apiBase, ChooseCall(BookmarkMutation, itemId, isBookmarked))
      ensures invalidated == BookmarksKey
      ensures store.State() == old(store.State()).(bookmarkedIds :=
                SettledShadow(old(store.bookmarkedIds), itemId, CallSucceeds(ChooseCall(BookmarkMutation, itemId, isBookmarked), reply)))
    {
      sent, invalidated := bookmarkMutation.Mutate(apiBase, itemId, isBookmarked, reply);
    }

    /** A card's `onLike` as the page wires it: `handleLike(item.id, false)`, so a like is always recorded. */
    method CardLikeAsWritten(item: ContentItem, reply: FeedsApi.Exchange)
      returns (sent: FeedsApi.Request, invalidated: seq<string>)
      requires Valid()
      modifies store
      ensures sent == CallRequest(apiBase, RecordCall(item.id, Like, None))
      ensures store.State() == old(store.State()).(likedIds :=
                SettledShadow(old(store.likedIds), item.id, CallSucceeds(RecordCall(item.id, Like, None), reply)))
    {
      sent, invalidated := HandleLike(item.id, PageFlagAsWritten(store.likedIds, item.id), reply);
    }

    /** A card's `onBookmark` as the page wires it: `handleBookmark(item.id, false)`. */
    method CardBookmarkAsWritten(item: ContentItem, reply: FeedsApi.Exchange)
      returns (sent: FeedsApi.Request, invalidated: seq<string>)
      requires Valid()
      modifies store
      ensures sent == CallRequest(apiBase, RecordCall(item.id, Bookmark, None))
      ensures store.State() == old(store.State()).(bookmarkedIds :=
                SettledShadow(old(store.bookmarkedIds), item.id, CallSucceeds(RecordCall(item.id, Bookmark, None), reply)))
    {
      sent, invalidated := HandleBookmark(item.id, PageFlagAsWritten(store.bookmarkedIds, item.id), reply);
    }

    /** A card's `onLike` passing the liked state the card shows: unliking removes the like. */
    method CardLike(item: ContentItem, reply: FeedsApi.Exchange)
      returns (sent: FeedsApi.Request, invalidated: seq<string>)
      requires Valid()
      modifies store
      ensures sent == CallRequest(apiBase, ChooseCall(LikeMutation, item.id, item.id in old(store.likedIds)))
      ensures invalidated == FeedKey
      ensures store.State() == old(store.State()).(likedIds :=
                SettledShadow(old(store.likedIds), item.id,
                              CallSucceeds(ChooseCall(LikeMutation, item.id, item.id in old(store.likedIds)), reply)))
    {
      sent, invalidated := HandleLike(item.id, PageFlag(store.likedIds, item.id), reply);
    }

    /** A card's `onBookmark` passing the bookmarked state the card shows. */
    method CardBookmark(item: ContentItem, reply: FeedsApi.Exchange)
      returns (sent: FeedsApi.Request, invalidated: seq<string>)
      requires Valid()
      modifies store
      ensures sent == CallRequest(apiBase, ChooseCall(BookmarkMutation, item.id, item.id in old(store.bookmarkedIds)))
      ensures invalidated == BookmarksKey
      ensures store.State() == old(store.State()).(bookmarkedIds :=
                SettledShadow(old(store.bookmarkedIds), item.id,
                              CallSucceeds(ChooseCall(BookmarkMutation, item.id, item.id in old(store.bookmarkedIds)), reply)))
    {
      sent, invalidated := HandleBookmark(item.id, PageFlag(store.bookmarkedIds, item.id), reply);
    }
  }
}
