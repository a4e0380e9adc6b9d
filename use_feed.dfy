/**
 * The feed hooks: the cursor rules each infinite query is configured with,
 * and the optimistic like/bookmark mutations over the feed store, with their
 * rollback and their cache invalidation. The fire-and-forget tracking
 * mutation is here too.
 *
 * The paging library itself is not modelled. `Paginate` states the contract
 * it is documented to follow (ask `getNextPageParam` of the last page, stop
 * when that is `null` or `undefined`) so that consequences of the cursor
 * rules can be stated; it is an assumption about the library, not a proof of it.
 */
module UseFeed {
  import opened Wrappers
  import opened JsValues
  import opened FeedTypes
  import opened FeedStores
  import FeedsApi
  import MockClient

  // ---------------------------------------------------------------------------
  // Query keys

  const FeedKey: seq<string> := ["feed"]
  const ForYouKey: seq<string> := ["feed", "foryou"]
  const NewsKey: seq<string> := ["feed", "news"]
  const BookmarksKey: seq<string> := ["bookmarks"]

  /** A key filter matches every query whose key it is a prefix of (the library's default matching). */
  predicate KeyMatches(filter: seq<string>, key: seq<string>) {
    filter <= key
  }

  // ---------------------------------------------------------------------------
  // Cursor rules

  /** `a ?? b`. */
  function Coalesce(a: Maybe<string>, b: Maybe<string>): Maybe<string> {
    if a.Defined? then a else b
  }

  function ForYouInitialPageParam(): Maybe<string> { Null }
  function NewsInitialPageParam(): Maybe<string> { Null }
  function BookmarksInitialPageParam(): Maybe<string> { Undefined }

  /** `lastPage => lastPage.cursor`. */
  function ForYouNextPageParam(last: ForYouResponse): Maybe<string> { NullableOf(last.cursor) }

  function NewsNextPageParam(last: NewsResponse): Maybe<string> { NullableOf(last.cursor) }

  /** `lastPage => lastPage.cursor ?? undefined`. */
  function BookmarksNextPageParam(last: ForYouResponse): Maybe<string> {
    Coalesce(NullableOf(last.cursor), Undefined)
  }

  /** The library's continuation test: a next page exists when the next page param is neither `null` nor `undefined`. */
  predicate HasNextPage(p: Maybe<string>) {
    p.Defined?
  }

  /**
   * Up to `budget` pages, fetched the way the paging library drives a
   * configuration: the first with `param`, each later one with the next page
   * param of the page before, stopping as soon as there is no next page. Each
   * entry pairs the page param with the page it fetched.
   */
  function Paginate<P>(fetch: Maybe<string> -> P, next: P -> Maybe<string>, param: Maybe<string>, budget: nat)
    : (fetched: seq<(Maybe<string>, P)>)
    ensures |fetched| <= budget
    ensures budget > 0 ==> |fetched| > 0 && fetched[0].0 == param
    ensures forall i :: 0 <= i < |fetched| ==> fetched[i].1 == fetch(fetched[i].0)
    ensures forall i :: 0 <= i < |fetched| - 1 ==>
              HasNextPage(next(fetched[i].1)) && fetched[i + 1].0 == next(fetched[i].1)
    ensures 0 < |fetched| < budget ==> !HasNextPage(next(fetched[|fetched| - 1].1))
    decreases budget
  {
    if budget == 0 then []
    else
      var page := fetch(param);
      if HasNextPage(next(page)) then [(param, page)] + Paginate(fetch, next, next(page), budget - 1)
      else [(param, page)]
  }

  /**
   * The For You pager: the first page is fetched with `null`, every later one
   * with exactly the cursor of the page before, and a `null` cursor ends it.
   */
  lemma ForYouPagerFollowsCursors(fetch: Maybe<string> -> ForYouResponse, budget: nat)
    ensures var f := Paginate(fetch, ForYouNextPageParam, ForYouInitialPageParam(), budget);
      && (budget > 0 ==> f[0].0 == Null)
      && (forall i :: 0 <= i < |f| - 1 ==> f[i].1.cursor.Some? && f[i + 1].0 == Defined(f[i].1.cursor.value))
      && (0 < |f| < budget ==> f[|f| - 1].1.cursor.None?)
  {
  }

  /** The News pager follows the same rule. */
  lemma NewsPagerFollowsCursors(fetch: Maybe<string> -> NewsResponse, budget: nat)
    ensures var f := Paginate(fetch, NewsNextPageParam, NewsInitialPageParam(), budget);
      && (budget > 0 ==> f[0].0 == Null)
      && (forall i :: 0 <= i < |f| - 1 ==> f[i].1.cursor.Some? && f[i + 1].0 == Defined(f[i].1.cursor.value))
      && (0 < |f| < budget ==> f[|f| - 1].1.cursor.None?)
  {
  }

  /** The bookmarks pager starts with `undefined` and never passes `null`: a `null` cursor becomes `undefined`. */
  lemma BookmarksPagerNeverPassesNull(fetch: Maybe<string> -> ForYouResponse, budget: nat)
    ensures var f := Paginate(fetch, BookmarksNextPageParam, BookmarksInitialPageParam(), budget);
      && (budget > 0 ==> f[0].0 == Undefined)
      && (forall i :: 0 <= i < |f| ==> !f[i].0.Null?)
      && (forall i :: 0 <= i < |f| - 1 ==> f[i + 1].0 == Defined(f[i].1.cursor.value))
  {
    var f := Paginate(fetch, BookmarksNextPageParam, BookmarksInitialPageParam(), budget);
    forall i | 0 < i < |f|
      ensures !f[i].0.Null?
    {
      assert f[i].0 == BookmarksNextPageParam(f[i - 1].1);
    }
  }

  /** All items of the fetched pages, in fetch order. */
  function PagedItems(fetched: seq<(Maybe<string>, ForYouResponse)>): seq<ContentItem>
    decreases |fetched|
  {
    if fetched == [] then [] else fetched[0].1.items + PagedItems(fetched[1..])
  }

  function Repeat<T>(s: seq<T>, n: nat): seq<T>
    decreases n
  {
    if n == 0 then [] else s + Repeat(s, n - 1)
  }

  /**
   * Driven by the mock source, the For You pager never ends: every fetch
   * yields a page, every later page is asked for with the fixed token, and
   * the merged feed is the mock set repeated once per page.
   */
  lemma {:induction false} MockForYouFeedIsEndless(fetch: Maybe<string> -> ForYouResponse, items: seq<ContentItem>,
                                                   param: Maybe<string>, budget: nat)
    requires forall c :: fetch(c) == MockClient.MockFetchForYouFeed(items, c)
    ensures var f := Paginate(fetch, ForYouNextPageParam, param, budget);
      && |f| == budget
      && (forall i :: 0 < i < |f| ==> f[i].0 == Defined(MockClient.NextCursorToken))
      && PagedItems(f) == Repeat(items, budget)
    decreases budget
  {
    var f := Paginate(fetch, ForYouNextPageParam, param, budget);
    if budget > 0 {
      var page := fetch(param);
      assert ForYouNextPageParam(page) == Defined(MockClient.NextCursorToken);
      var rest := Paginate(fetch, ForYouNextPageParam, Defined(MockClient.NextCursorToken), budget - 1);
      MockForYouFeedIsEndless(fetch, items, Defined(MockClient.NextCursorToken), budget - 1);
      assert f == [(param, page)] + rest;
      assert f[1..] == rest;
    }
  }

  /** Driven by the mock source, the bookmarks pager stops after one empty page. */
  lemma MockBookmarksEndAfterOnePage(fetch: Maybe<string> -> ForYouResponse, param: Maybe<string>, budget: nat)
    requires forall c :: fetch(c) == MockClient.MockFetchBookmarks(c)
    requires budget > 0
    ensures var f := Paginate(fetch, BookmarksNextPageParam, param, budget);
      |f| == 1 && f[0].1.items == [] && PagedItems(f) == []
  {
  }

  // ---------------------------------------------------------------------------
  // Optimistic mutations

  datatype MutationKind = LikeMutation | BookmarkMutation

  function KindInteraction(kind: MutationKind): InteractionType {
    match kind
    case LikeMutation => Like
    case BookmarkMutation => Bookmark
  }

  /** The remote call a mutation makes. */
  datatype RemoteCall =
    | RecordCall(contentId: string, interactionType: InteractionType, metadata: Option<map<string, Json>>)
    | RemoveCall(contentId: string, interactionType: InteractionType)

  /** The call is chosen from the flag passed in: remove when it is set, record otherwise. */
  function ChooseCall(kind: MutationKind, contentId: string, current: bool): (call: RemoteCall)
    ensures call.RemoveCall? <==> current
    ensures call.contentId == contentId && call.interactionType == KindInteraction(kind)
    ensures call.RecordCall? ==> call.metadata.None?
  {
    if current then RemoveCall(contentId, KindInteraction(kind))
    else RecordCall(contentId, KindInteraction(kind), None)
  }

  /** The request a call sends. */
  function CallRequest(base: string, call: RemoteCall): FeedsApi.Request {
    match call
    case RecordCall(id, t, metadata) =>
      FeedsApi.Request(FeedsApi.HttpPost, base + FeedsApi.InteractionsPath, [],
                       [FeedsApi.Param("Content-Type", "application/json")],
                       Some(FeedsApi.RecordBody(id, t, metadata)))
    case RemoveCall(id, t) =>
      FeedsApi.Request(FeedsApi.HttpDelete, base + FeedsApi.InteractionsPath + "?" + FeedsApi.RemoveQueryString(id, t),
                       [], [], None)
  }

  /** Whether the awaited call resolves, given what its request met. */
  predicate CallSucceeds(call: RemoteCall, reply: FeedsApi.Exchange) {
    match call
    case RecordCall(_, _, _) => FeedsApi.ReadJson(reply, "Failed to record interaction").Success?
    case RemoveCall(_, _) => FeedsApi.ReadStatus(reply, "Failed to remove interaction").Success?
  }

  /** A call fails whenever its request met no reply or a non-OK status. */
  lemma CallFailsOnNonOk(call: RemoteCall, reply: FeedsApi.Exchange)
    requires reply.NetworkFailure? || !reply.ok
    ensures !CallSucceeds(call, reply)
  {
  }

  /** The key each mutation invalidates once it settles. */
  function InvalidatedKey(kind: MutationKind): seq<string> {
    match kind
    case LikeMutation => FeedKey
    case BookmarkMutation => BookmarksKey
  }

  /** A like refreshes both feeds and not the bookmarks; a bookmark refreshes the bookmarks and neither feed. */
  lemma InvalidationTargets()
    ensures KeyMatches(InvalidatedKey(LikeMutation), ForYouKey) && KeyMatches(InvalidatedKey(LikeMutation), NewsKey)
    ensures !KeyMatches(InvalidatedKey(LikeMutation), BookmarksKey)
    ensures KeyMatches(InvalidatedKey(BookmarkMutation), BookmarksKey)
    ensures !KeyMatches(InvalidatedKey(BookmarkMutation), ForYouKey) && !KeyMatches(InvalidatedKey(BookmarkMutation), NewsKey)
  {
    assert FeedKey[0] != BookmarksKey[0];
  }

  /** The shadow set a mutation kind works on. */
  function ShadowOf(s: StoreState, kind: MutationKind): set<string> {
    match kind
    case LikeMutation => s.likedIds
    case BookmarkMutation => s.bookmarkedIds
  }

  function WithShadow(s: StoreState, kind: MutationKind, ids: set<string>): (r: StoreState)
    ensures ShadowOf(r, kind) == ids
  {
    match kind
    case LikeMutation => s.(likedIds := ids)
    case BookmarkMutation => s.(bookmarkedIds := ids)
  }

  /**
   * The shadow set once a mutation has settled: toggled by `onMutate`, and
   * toggled again by `onError` when the call failed. On success the id's
   * membership is flipped once; on failure it is back where it was; other
   * ids are untouched either way.
   */
  function SettledShadow(shadow: set<string>, id: string, succeeded: bool): (after: set<string>)
    ensures id in after <==> (succeeded != (id in shadow))
    ensures forall x :: x != id ==> (x in after <==> x in shadow)
  {
    var optimistic := Toggle(shadow, id);
    if succeeded then optimistic else Toggle(optimistic, id)
  }

  /** A failed mutation leaves the shadow set exactly as it was. */
  lemma RollbackRestores(shadow: set<string>, id: string)
    ensures SettledShadow(shadow, id, false) == shadow
  {
  }

  /** Toggling each id of a sequence in turn. */
  function ToggleAll(ids: set<string>, toggled: seq<string>): set<string>
    decreases |toggled|
  {
    if toggled == [] then ids else ToggleAll(Toggle(ids, toggled[0]), toggled[1..])
  }

  lemma ToggleCommutes(ids: set<string>, a: string, b: string)
    ensures Toggle(Toggle(ids, a), b) == Toggle(Toggle(ids, b), a)
  {
  }

  /**
   * Mutations of other ids may settle between the optimistic toggle of `id`
   * and its rollback: the rollback still restores `id`, and the other
   * toggles are kept, as if the failed mutation had never run.
   */
  lemma {:induction false} RollbackIndependentOfOtherIds(shadow: set<string>, id: string, others: seq<string>)
    requires id !in others
    ensures Toggle(ToggleAll(Toggle(shadow, id), others), id) == ToggleAll(shadow, others)
    decreases |others|
  {
    if others == [] {
      ToggleTwice(shadow, id);
    } else {
      ToggleCommutes(shadow, id, others[0]);
      RollbackIndependentOfOtherIds(Toggle(shadow, others[0]), id, others[1..]);
    }
  }

  /** `useLikeMutation()` / `useBookmarkMutation()`: one mutation object over the shared store. */
  class InteractionMutation {
    const kind: MutationKind
    const store: FeedStore

    constructor (kind: MutationKind, store: FeedStore)
      ensures this.kind == kind && this.store == store
    {
      this.kind := kind;
      this.store := store;
    }

    function Shadow(): set<string>
      reads store
    {
      ShadowOf(store.State(), kind)
    }

    method ToggleShadow(contentId: string)
      modifies store
      ensures store.State() == WithShadow(old(store.State()), kind, Toggle(old(Shadow()), contentId))
    {
      if kind == LikeMutation {
        store.ToggleLike(contentId);
      } else {
        store.ToggleBookmark(contentId);
      }
    }

    /**
     * `onMutate` and the choice made by `mutationFn`: the shadow set is
     * toggled first, and only then is the call chosen from the flag given at
     * invocation, so the new membership is visible before the call is issued.
     */
    method Issue(contentId: string, current: bool) returns (call: RemoteCall)
      modifies store
      ensures call == ChooseCall(kind, contentId, current)
      ensures store.State() == WithShadow(old(store.State()), kind, Toggle(old(Shadow()), contentId))
    {
      ToggleShadow(contentId);
      if current {
        call := RemoveCall(contentId, KindInteraction(kind));
      } else {
        call := RecordCall(contentId, KindInteraction(kind), None);
      }
    }

    /** The awaited remote call of `mutationFn`; the recorded interaction it returns is discarded. */
    static method Perform(base: string, call: RemoteCall, reply: FeedsApi.Exchange)
      returns (sent: FeedsApi.Request, succeeded: bool)
      ensures sent == CallRequest(base, call)
      ensures succeeded == CallSucceeds(call, reply)
    {
      match call
      case RecordCall(id, t, metadata) =>
        var result;
        sent, result := FeedsApi.RecordInteraction(base, id, t, metadata, reply);
        succeeded := result.Success?;
      case RemoveCall(id, t) =>
        var result;
        sent, result := FeedsApi.RemoveInteraction(base, id, t, reply);
        succeeded := result.Success?;
    }

    /** `onError` (on failure only) and then `onSettled` (always): roll back, then invalidate exactly one key. */
    method Settle(contentId: string, succeeded: bool) returns (invalidated: seq<string>)
      modifies store
      ensures invalidated == InvalidatedKey(kind)
      ensures succeeded ==> store.State() == old(store.State())
      ensures !succeeded ==> store.State() == WithShadow(old(store.State()), kind, Toggle(old(Shadow()), contentId))
    {
      if !succeeded {
        ToggleShadow(contentId);
      }
      invalidated := if kind == LikeMutation then FeedKey else BookmarksKey;
    }

    /** `mutate({contentId, flag})` from invocation to settlement, with no other mutation in between. */
    method Mutate(base: string, contentId: string, current: bool, reply: FeedsApi.Exchange)
      returns (sent: FeedsApi.Request, invalidated: seq<string>)
      modifies store
      ensures sent == CallRequest(base, ChooseCall(kind, contentId, current))
      ensures invalidated == InvalidatedKey(kind)
      ensures store.State() == WithShadow(old(store.State()), kind,
                SettledShadow(old(Shadow()), contentId, CallSucceeds(ChooseCall(kind, contentId, current), reply)))
    {
      ghost var before := store.State();
      var call := Issue(contentId, current);
      var succeeded;
      sent, succeeded := Perform(base, call, reply);
      invalidated := Settle(contentId, succeeded);
      ghost var toggledOnce := Toggle(ShadowOf(before, kind), contentId);
      if !succeeded {
        assert store.State() == WithShadow(WithShadow(before, kind, toggledOnce), kind, Toggle(toggledOnce, contentId));
      }
    }
  }

  /** `useTrackingMutation`: records a view or completion; it touches no local state and has nothing to roll back. */
  function TrackingCall(contentId: string, t: TrackKind, metadata: Option<map<string, Json>>): (call: RemoteCall)
    ensures call.RecordCall? && call.contentId == contentId && call.metadata == metadata
    ensures call.interactionType == t
    ensures call.interactionType == View || call.interactionType == Complete
  {
    RecordCall(contentId, t, metadata)
  }
}
