# Lumen feed interaction engine, in Dafny

This project models the client of the Lumen content platform, at the point where its view layer meets the network. There are two feeds of full-screen cards, For You and News. The model covers:

- which card is active as the feed scrolls;
- the autoplay and play/pause of a card's video;
- the optimistic like and bookmark mutations, with their rollback and cache invalidation;
- the cursor rules of the three paged queries;
- the view tracker's track-once latch;
- the requests the API layer builds and how it classifies replies;
- the mock data source used in development.

Each source file has a module of its own, plus three support modules:

| module | file | models |
|---|---|---|
| `Wrappers` | wrappers.dfy | `Option` and `Result` |
| `JsValues` | js_values.dfy | JSON values and JavaScript truthiness; `null` versus `undefined`; `String(n)` for whole numbers below 2^53, `padStart`, `Math.floor` and the truncating `%` |
| `FeedTypes` | feed_types.dfy | `src/types/feed.ts`: content items, slides, page responses, interactions and their string tags |
| `FeedsApi` | feeds_api.dfy | `src/lib/api/feeds.ts`: query building, requests, the reply classification and the `data.data \|\| data` unwrap |
| `FeedStores` | feed_store.dfy | the feed store, specified by the way the page, the card and the hooks use it |
| `MockClient` | mock_client.dfy | `src/lib/api/mock-client.ts` |
| `UseFeed` | use_feed.dfy | `src/lib/hooks/use-feed.ts`: pager cursor rules and the optimistic mutation coordinator |
| `ViewTracker` | view_tracker.dfy | `src/components/feed/view-tracker.tsx` |
| `FeedSwitcher` | feed_switcher.dfy | `src/components/layout/feed-switcher.tsx` |
| `ForYouCard` | for_you_card.dfy | `src/components/feed/for-you-card.tsx` |
| `HomePage` | home_page.dfy | `src/app/page.tsx` |

State that the source changes in place is modelled as classes:

- the store (`FeedStores.FeedStore`);
- a mutation hook over that store (`UseFeed.InteractionMutation`);
- the view tracker's latch (`ViewTracker.ViewTracking`);
- a card and its `<video>` element (`ForYouCard.Card`, `ForYouCard.MediaElement`);
- the page with its scroll offset and feed type (`HomePage.Page`).

Each method states the whole new state as a function of the old one. Everything else is a function with lemmas.

Outside inputs are parameters:

- what each request met (`FeedsApi.Exchange`: no reply, or a status and a JSON body);
- whether a `play()` promise resolves (`ForYouCard.PlayResult`);
- the current time and the UUID of a mock interaction;
- the mock arrays;
- the environment's API URL.

A mutation runs as issue → perform → settle, one step after another:

1. `onMutate` toggles the shadow set.
2. `mutationFn` chooses the call and sends it.
3. `onError` undoes the toggle if the call failed.
4. `onSettled` invalidates a query key.

The paging library is not part of this model. `UseFeed.Paginate` writes out the contract the hooks rely on: the first page is fetched with the initial parameter, and each next page with the parameter computed from the last page. Lemmas about the pagers hold under that assumed contract. Likewise `UseFeed.KeyMatches` assumes the library's prefix matching of query keys for invalidation. The library's own behaviour is not verified.

## Model

| member | source | states |
|---|---|---|
| `JsValues.NullableOf` | src/lib/hooks/use-feed.ts:22 | A `string \| null` cursor is passed on as `null` or as that string, and never as `undefined`. |
| `JsValues.NatToString` | src/components/feed/for-you-card.tsx:150 | `String(n)` of a natural number below 2^53 (the range in which JavaScript prints plain exact digits) is a non-empty string of digits, with no leading zero, one digit exactly when n < 10. |
| `JsValues.IntToString` | src/components/feed/for-you-card.tsx:150 | `String(i)` of a whole number below 2^53 in magnitude starts with `-` exactly when i is negative, and the rest is a non-empty string of digits. |
| `JsValues.IntToStringReadsBack` | src/components/feed/for-you-card.tsx:150 | Reading the sign and the digits of `String(i)` back gives i. |
| `JsValues.ParseDecimalOfNatToString` | src/components/feed/for-you-card.tsx:150 | Reading the decimal digits of `String(n)` gives back n. |
| `JsValues.PadStart` | src/components/feed/for-you-card.tsx:150 | `padStart(width, fill)` keeps the string as its suffix, fills the rest with `fill`, and reaches `width` when the string was shorter. |
| `JsValues.FloorDiv` | src/components/feed/for-you-card.tsx:150 | `Math.floor(a / b)` is the q with q·b ≤ a < q·b + b. |
| `JsValues.TruncRem` | src/components/feed/for-you-card.tsx:150 | JavaScript `%` agrees with the mathematical remainder for a ≥ 0. For a < 0 the result is in (−b, 0] and is the negated remainder of −a. |
| `FeedTypes.ParseContentType` | src/types/feed.ts:3 | Parsing a content-type tag gives the type with that tag. It fails only on strings that are none of the five tags. |
| `FeedTypes.ParseInteractionType` | src/types/feed.ts:60 | Parsing an interaction-type tag gives the type with that tag. It fails only on strings that are none of the five tags. |
| `FeedsApi.ApiBase` | src/lib/api/feeds.ts:3 | The API base is the environment's URL when that is truthy, and the default local URL otherwise. It is never empty. |
| `FeedsApi.SetParam` | src/lib/api/feeds.ts:10-11 | `set` makes the name map to the value and leaves every other name's value alone. A new name is appended at the end. |
| `FeedsApi.SetParamKeepsPosition` | src/lib/api/feeds.ts:10-11 | Setting a name already present writes the value at its first position, keeps the pairs before it, and drops that name's later pairs. |
| `FeedsApi.RemoveNamed` | src/lib/api/feeds.ts:10-11 | Dropping a name's entries removes that name and keeps every other name's value. |
| `FeedsApi.SearchParams.constructor` | src/lib/api/feeds.ts:9 | A fresh parameter object is empty. |
| `FeedsApi.SearchParams.Set` | src/lib/api/feeds.ts:10-11 | `params.set` replaces the entries with the `set` semantics above. |
| `FeedsApi.PageQueryShape` | src/lib/api/feeds.ts:9-11 | `cursor` is present exactly when the cursor is truthy, with its value, and comes before `limit`. `limit` is always present, and is last. |
| `FeedsApi.BuildPageQuery` | src/lib/api/feeds.ts:9-11 | The successive `set` calls build exactly the page query. |
| `FeedsApi.Unwrap` | src/lib/api/feeds.ts:19-20 | `data.data \|\| data` fails exactly on a `null` body, with the TypeError. An object whose `data` field is truthy gives that field; every other non-null body is returned as it is. |
| `FeedsApi.UnwrapEnvelope` | src/lib/api/feeds.ts:19-20 | For an `{code, message, data}` envelope, the unwrap gives `data` when it is truthy and the whole envelope otherwise. |
| `FeedsApi.UnwrapBareObject` | src/lib/api/feeds.ts:19-20 | An object without a `data` field is returned as it is. |
| `FeedsApi.ReadJson` | src/lib/api/feeds.ts:15-20 | No reply is a network error. A non-OK reply is an error whose message is the call's text, ": " and the status text. An OK reply whose body is not JSON is a syntax error, and an OK reply with a JSON body settles as the unwrap of that body. A value comes only from an OK reply. |
| `FeedsApi.ReadJsonOfEnvelope` | src/lib/api/feeds.ts:15-20 | An OK reply carrying the server's envelope with a truthy payload settles with that payload. |
| `FeedsApi.ReadStatus` | src/lib/api/feeds.ts:93-95 | A body-less call succeeds exactly on an OK reply. Otherwise the errors are as above. |
| `FeedsApi.NonOkNeverYieldsValue` | src/lib/api/feeds.ts:15-17 | No reply, or a non-OK reply, never yields a value in either classification. |
| `FeedsApi.ReceiveJson` | src/lib/api/feeds.ts:13-20 | The straight-line settle code computes exactly the classification above. |
| `FeedsApi.FetchForYouFeed` | src/lib/api/feeds.ts:8-21 | GET `/feed/foryou?` with the page query at limit "20". The result is classified with the For You failure text. |
| `FeedsApi.FetchNewsFeed` | src/lib/api/feeds.ts:26-39 | GET `/feed/news?` with the page query at limit "10". The result is classified with the News failure text. |
| `FeedsApi.FetchContentItem` | src/lib/api/feeds.ts:44-53 | GET `/content/` followed by the id, with no query. |
| `FeedsApi.FetchBookmarks` | src/lib/api/feeds.ts:101-114 | GET `/interactions/bookmarks?` with the page query at limit "20". |
| `FeedsApi.RecordInteraction` | src/lib/api/feeds.ts:58-79 | POST `/interactions` with a JSON content type and the record body. The result is classified with the record failure text. |
| `FeedsApi.RecordBodyRoundTrip` | src/lib/api/feeds.ts:66-70 | The body reads back as exactly the given content id, interaction tag and metadata. Its keys are those two, plus `metadata` only when metadata was given. |
| `FeedsApi.RemoveInteraction` | src/lib/api/feeds.ts:84-96 | DELETE `/interactions?` with the remove query. Only the status decides success. |
| `FeedsApi.RemoveQueryRoundTrip` | src/lib/api/feeds.ts:89 | The remove query reads back as `content_item_id` with the id, then `type` with the tag. |
| `FeedStores.Toggle` | src/lib/hooks/use-feed.ts:70 | Toggling flips membership of the id and of no other id. |
| `FeedStores.ToggleTwice` | src/lib/hooks/use-feed.ts:74 | Toggling the same id twice restores the set. |
| `FeedStores.FeedStore.constructor` | src/app/page.tsx:120 | The store starts in the given state. |
| `FeedStores.FeedStore.ToggleLike` | src/lib/hooks/use-feed.ts:70 | Only the liked set changes, toggled at the id. |
| `FeedStores.FeedStore.ToggleBookmark` | src/lib/hooks/use-feed.ts:100 | Only the bookmarked set changes, toggled at the id. |
| `FeedStores.FeedStore.SetActiveIndex` | src/app/page.tsx:140 | Only the active index changes. |
| `FeedStores.FeedStore.ResetProgress` | src/app/page.tsx:141 | Only the progress changes, to 0. |
| `FeedStores.FeedStore.SetProgress` | src/components/feed/for-you-card.tsx:86 | Only the progress changes, to the given value; the card's time-update handler calls it. |
| `FeedStores.FeedStore.SetPlaying` | src/components/feed/for-you-card.tsx:50-55 | Only `isPlaying` changes. |
| `FeedStores.FeedStore.TogglePlay` | src/components/feed/for-you-card.tsx:103 | Only `isPlaying` changes, negated. |
| `MockClient.MockFetchForYouFeed` | src/lib/api/mock-client.ts:17-20 | Whatever the cursor, the page has cursor `next-cursor-token` and the full mock item list. |
| `MockClient.MockFetchNewsFeed` | src/lib/api/mock-client.ts:26-29 | Whatever the cursor, the page has cursor `next-cursor-token` and the full mock slide list. |
| `MockClient.MockFetchBookmarks` | src/lib/api/mock-client.ts:69-72 | The bookmarks page has a null cursor and no items. |
| `MockClient.FindById` | src/lib/api/mock-client.ts:35 | `find` succeeds exactly when some item has the id, and returns an item with that id. |
| `MockClient.FindByIdAppend` | src/lib/api/mock-client.ts:35-36 | Searching a concatenation gives the first list's match if it has one, else the second's. |
| `MockClient.SlideItemsAppend` | src/lib/api/mock-client.ts:36 | The `flatMap` of a concatenation of slide lists is the concatenation of their flattenings, so slides keep their order. |
| `MockClient.SlideItemsMembers` | src/lib/api/mock-client.ts:36 | An item is in the flattened list exactly when it is some slide's featured item or one of its related items. |
| `MockClient.SlideItemsContains` | src/lib/api/mock-client.ts:36 | Every featured and related item of every slide is in the flattened list. |
| `MockClient.MockFetchContentItem` | src/lib/api/mock-client.ts:32-43 | The lookup searches the For You items, then the flattened slides. It returns the first match. It fails with "Content item not found" exactly when no item anywhere has the id. |
| `MockClient.MockRecordInteraction` | src/lib/api/mock-client.ts:52-57 | The mock interaction echoes the content id and interaction type, with the given id and time. |
| `UseFeed.Paginate` | src/lib/hooks/use-feed.ts:18-22 | The paging contract assumed of the library: the first fetch uses the initial parameter, and each fetch uses the parameter computed from the previous page. Paging stops only when there is no next parameter. |
| `UseFeed.ForYouPagerFollowsCursors` | src/lib/hooks/use-feed.ts:21-22 | The For You pager starts at `null`. Each next request carries exactly the previous page's cursor, and a null cursor ends paging. |
| `UseFeed.NewsPagerFollowsCursors` | src/lib/hooks/use-feed.ts:34-35 | The News pager follows the same rule. |
| `UseFeed.BookmarksPagerNeverPassesNull` | src/lib/hooks/use-feed.ts:47-48 | The bookmarks pager starts at `undefined` and never passes `null`: a null cursor becomes `undefined`. |
| `UseFeed.MockForYouFeedIsEndless` | src/lib/api/mock-client.ts:17-20 | Driven by the mock source, every page has a next page, and the items are the mock list repeated once per page. |
| `UseFeed.MockBookmarksEndAfterOnePage` | src/lib/api/mock-client.ts:69-72 | Driven by the mock source, the bookmarks pager fetches one empty page and stops. |
| `UseFeed.ChooseCall` | src/lib/hooks/use-feed.ts:61-67 | The call is a remove exactly when the flag passed in is set, and a record (without metadata) otherwise. It carries the id and the mutation's interaction type. |
| `UseFeed.CallFailsOnNonOk` | src/lib/api/feeds.ts:73-95 | A like or bookmark call never succeeds without an OK reply. |
| `UseFeed.InvalidationTargets` | src/lib/hooks/use-feed.ts:76-109 | The like key `['feed']` matches both feeds and not the bookmarks. The bookmark key `['bookmarks']` matches the bookmarks and neither feed. |
| `UseFeed.SettledShadow` | src/lib/hooks/use-feed.ts:68-75 | After settlement the id's membership is flipped on success and back as before on failure. Other ids are unchanged. |
| `UseFeed.RollbackRestores` | src/lib/hooks/use-feed.ts:72-75 | A failed mutation leaves the shadow set exactly as it was. |
| `UseFeed.ToggleCommutes` | src/lib/hooks/use-feed.ts:68-75 | Toggles of two ids commute. |
| `UseFeed.RollbackIndependentOfOtherIds` | src/lib/hooks/use-feed.ts:72-75 | Toggles of other ids may come between the optimistic toggle and the rollback. The result is still as if the failed mutation had never run. |
| `UseFeed.InteractionMutation.constructor` | src/lib/hooks/use-feed.ts:56-58 | A mutation hook works on the shared store with its kind. |
| `UseFeed.InteractionMutation.ToggleShadow` | src/lib/hooks/use-feed.ts:70 | Only the kind's shadow set changes, toggled at the id. |
| `UseFeed.InteractionMutation.Issue` | src/lib/hooks/use-feed.ts:61-71 | The optimistic toggle happens, and the call is chosen from the flag given. |
| `UseFeed.InteractionMutation.Perform` | src/lib/hooks/use-feed.ts:61-67 | The chosen call's request goes out. Its success is decided by the reply. |
| `UseFeed.InteractionMutation.Settle` | src/lib/hooks/use-feed.ts:72-79 | On failure the shadow set is toggled back; on success nothing changes. The kind's key is invalidated either way. |
| `UseFeed.InteractionMutation.Mutate` | src/lib/hooks/use-feed.ts:60-110 | One mutation sends exactly the chosen request and invalidates its kind's key: `['feed']` for a like, `['bookmarks']` for a bookmark. It leaves the kind's shadow set as `SettledShadow` says, and nothing else in the store changes. |
| `UseFeed.TrackingCall` | src/lib/hooks/use-feed.ts:116-130 | The tracking mutation records exactly the given kind (`view` or `complete`) for the given content, with the given metadata. |
| `ViewTracker.HookDefaults` | src/components/feed/view-tracker.tsx:15-19 | The threshold defaults to 0.5 and track-once to true. |
| `ViewTracker.ViewTrackerOptions` | src/components/feed/view-tracker.tsx:71-77 | The wrapper always tracks once, with its own threshold or 0.5. |
| `ViewTracker.LatchMonotone` | src/components/feed/view-tracker.tsx:20-28 | After a batch the latch is set exactly when it was set before or some entry intersected. It is never reset. |
| `ViewTracker.CallsCarryEntry` | src/components/feed/view-tracker.tsx:29-36 | Every call is a `view` record for the hook's content id, carrying an intersecting entry's ratio and the time. |
| `ViewTracker.TrackOnceBatch` | src/components/feed/view-tracker.tsx:26-28 | In track-once mode a batch fires at most once, and not at all once the latch was set. |
| `ViewTracker.TrackOnceReportsFirst` | src/components/feed/view-tracker.tsx:26-36 | In track-once mode an unlatched instance reports exactly one view call, carrying the ratio of the first intersecting entry of the batch. |
| `ViewTracker.RepeatModeBatch` | src/components/feed/view-tracker.tsx:26-36 | With track-once off, every intersecting entry fires one view call carrying that entry's ratio, in entry order, latched or not; no other entry fires. |
| `ViewTracker.TrackOnceOverall` | src/components/feed/view-tracker.tsx:20-28 | Over any sequence of batches, track-once mode fires at most one call in total. |
| `ViewTracker.ViewTracking.constructor` | src/components/feed/view-tracker.tsx:15-22 | A new hook instance has the resolved options and an unset latch. |
| `ViewTracker.ViewTracking.HandleIntersection` | src/components/feed/view-tracker.tsx:24-41 | The `forEach` loop issues exactly the calls of `TrackBatch` and leaves the latch where it says. |
| `FeedSwitcher.ResolvedVariant` | src/components/layout/feed-switcher.tsx:15 | The variant defaults to dark. |
| `FeedSwitcher.ActiveFeed` | src/components/layout/feed-switcher.tsx:20 | A given value is the active feed. Without one, News is active exactly on `/news` and For You everywhere else. |
| `FeedSwitcher.ActiveFeedOfLinkTarget` | src/components/layout/feed-switcher.tsx:30-48 | Without a value, the switcher shows as active the feed whose link led to the current path. |
| `FeedSwitcher.HandleClick` | src/components/layout/feed-switcher.tsx:22-26 | A click calls `onChange` once, with the clicked feed, exactly when `onChange` was given. |
| `ForYouCard.BadgeLabel` | src/components/feed/for-you-card.tsx:121 | The badge reads "Podcast" exactly for podcasts and "Audio" otherwise. |
| `ForYouCard.MinutesSecondsRoundTrip` | src/components/feed/for-you-card.tsx:150 | For d ≥ 0 the label is digits, a colon and two digits below 60, and it reads back as d seconds. |
| `ForYouCard.RenderedDuration` | src/components/feed/for-you-card.tsx:148-152 | On the card as written: nothing when the duration is absent, the bare text of 0 when it is 0, and the `m:ss` span otherwise. |
| `ForYouCard.ZeroDurationRendersStrayZero` | src/components/feed/for-you-card.tsx:148 | A zero duration puts a lone "0" on the card. |
| `ForYouCard.DurationLabel` | src/components/feed/for-you-card.tsx:148-152 | The intended label is present exactly for a non-zero duration. For a positive one it reads back as that duration. |
| `ForYouCard.MediaElement.constructor` | src/components/feed/for-you-card.tsx:94-104 | A new video element is paused, at time 0. |
| `ForYouCard.MediaElement.Play` | src/components/feed/for-you-card.tsx:48 | `play()` unpauses unless it is rejected. A rejection leaves the element as it was. |
| `ForYouCard.MediaElement.Pause` | src/components/feed/for-you-card.tsx:54 | `pause()` pauses and keeps the time. |
| `ForYouCard.AfterAutoplay` | src/components/feed/for-you-card.tsx:44-57 | An inactive card ends paused with `isPlaying` off. An active card has `isPlaying` on exactly when `play()` started, and stays paused only if it was paused and `play()` was rejected. |
| `ForYouCard.AfterPlayPause` | src/components/feed/for-you-card.tsx:67-75 | The effect does nothing on an inactive card. On an active one it pauses when the render saw nothing playing, and otherwise plays, clearing `isPlaying` on rejection. |
| `ForYouCard.DeactivationStops` | src/components/feed/for-you-card.tsx:53-56 | Becoming inactive ends paused with `isPlaying` off, whatever the `play()` outcomes. |
| `ForYouCard.ActivationPlaysAfterRerender` | src/components/feed/for-you-card.tsx:44-75 | Becoming active while nothing plays first ends paused, because the play/pause effect saw the old `isPlaying`. When both `play()` calls start (the media was ready), the re-render after `setPlaying(true)` then plays the card. |
| `ForYouCard.BlockedAutoplayShowsOverlay` | src/components/feed/for-you-card.tsx:48-51 | Rejected autoplay leaves `isPlaying` off, so the play overlay, which an active card shows while `isPlaying` is off, appears. |
| `ForYouCard.ProgressPercent` | src/components/feed/for-you-card.tsx:85 | The played percentage lies between 0 and 100 while the time lies within the video; it is 0 at the start and 100 at the end. |
| `ForYouCard.Rewound` | src/components/feed/for-you-card.tsx:79 | The rewound time is never negative and never later than a non-negative start. It is either 0 or 15 s earlier, and exactly 15 s earlier from 15 s on. |
| `ForYouCard.ClickCallbacks` | src/components/feed/for-you-card.tsx:155-231 | One click invokes at most one callback. `onLike` is invoked exactly by the like button, `onBookmark` by the bookmark button and `onShare` by the share button. |
| `ForYouCard.Card.constructor` | src/components/feed/for-you-card.tsx:93-110 | The card has a video element exactly when the item's media URL is truthy. |
| `ForYouCard.LikeToggleUpdatesShownFlags` | src/components/feed/for-you-card.tsx:38-41 | After the store toggles an id's like, the card of that item shows the opposite liked flag, every other card keeps its flag, and no bookmarked flag changes. |
| `ForYouCard.BookmarkToggleUpdatesShownFlags` | src/components/feed/for-you-card.tsx:38-41 | After the store toggles an id's bookmark, the card of that item shows the opposite bookmarked flag, every other card keeps its flag, and no liked flag changes. |
| `ForYouCard.Card.AutoplayEffect` | src/components/feed/for-you-card.tsx:44-57 | The effect's calls leave the video and `isPlaying` as `AfterAutoplay` says, and the rest of the store untouched. |
| `ForYouCard.Card.PlayPauseEffect` | src/components/feed/for-you-card.tsx:67-75 | The effect's calls leave the video and `isPlaying` as `AfterPlayPause` says, and the rest of the store untouched. |
| `ForYouCard.Card.Mount` | src/components/feed/for-you-card.tsx:44-75 | On the first render both effects run, autoplay first. A card without video leaves the store untouched. |
| `ForYouCard.Card.Rerender` | src/components/feed/for-you-card.tsx:44-75 | On a later render an effect runs only when one of its dependencies changed, autoplay first. |
| `ForYouCard.Card.HandleTimeUpdate` | src/components/feed/for-you-card.tsx:83-88 | With a video, the store's progress becomes `ProgressPercent` of the current time and the duration, and nothing else changes; without one, nothing changes. |
| `ForYouCard.Card.HandleRewind` | src/components/feed/for-you-card.tsx:77-81 | Rewind sets the time to `Rewound` of the old time and does not touch playback. |
| `ForYouCard.Card.Click` | src/components/feed/for-you-card.tsx:155-246 | A click returns the invoked callbacks. Rewind rewinds. The video surface, and the overlay while it is shown, toggle `isPlaying`. Nothing else changes. |
| `HomePage.ActiveIndexFor` | src/app/page.tsx:135-137 | The active index is within half a screen of `scrollTop / clientHeight`, rounding halves up. |
| `HomePage.ActiveIndexIsNearest` | src/app/page.tsx:137 | Only one index satisfies that bound, so the formula is `Math.round`. |
| `HomePage.ActiveIndexExample` | src/app/page.tsx:135-137 | At height 800, offset 1600 gives card 2, 1999 still card 2, and 2000 card 3. |
| `HomePage.ActiveFlags` | src/app/page.tsx:219 | The card at position i is active exactly when i is the active index. |
| `HomePage.OneActiveCard` | src/app/page.tsx:219-232 | Exactly one card of a feed is active when the index is in range, and none otherwise. |
| `HomePage.AsWrittenClickDesyncs` | src/app/page.tsx:220-221 | As written, a card click always records. A second click on a liked card makes the page show it unliked while the backend keeps the like. |
| `HomePage.PageFlagKeepsAgreement` | src/app/page.tsx:155-161 | Passing the shown state keeps page and backend in agreement on the clicked id, whether the call succeeds or fails. |
| `HomePage.Page.constructor` | src/app/page.tsx:117-153 | The page starts on For You, scrolled to the top. The mount run of the reset effect sets the active index and progress to 0. |
| `HomePage.Page.ResetFeedPosition` | src/app/page.tsx:147-153 | The reset sets scroll, active index and progress to 0, and nothing else. |
| `HomePage.Page.HandleScroll` | src/app/page.tsx:133-144 | The store moves to the rounded index and resets progress exactly when the index changed. Otherwise it is untouched. |
| `HomePage.Page.ScrollTo` | src/app/page.tsx:212 | A user scroll sets the offset and then runs the scroll handler. |
| `HomePage.Page.SetFeedType` | src/app/page.tsx:146-153 | Changing the feed type resets scroll, index and progress. Setting the same type changes nothing. |
| `HomePage.Page.SwitcherClick` | src/app/page.tsx:200-204 | A switcher click sets the page's feed type through `onChange`, with the reset above. |
| `HomePage.Page.SwitcherActiveFeed` | src/app/page.tsx:201 | The switcher, controlled by the page, shows the page's feed type on every path. |
| `HomePage.Page.SwitcherVariant` | src/app/page.tsx:203 | The switcher is dark exactly over For You, and light exactly over News. |
| `HomePage.Page.HandleLike` | src/app/page.tsx:155-157 | `handleLike` runs the like mutation with the given flag: request, `['feed']` invalidation and liked-set outcome. |
| `HomePage.Page.HandleBookmark` | src/app/page.tsx:159-161 | `handleBookmark` runs the bookmark mutation with the given flag: request, `['bookmarks']` invalidation and bookmarked-set outcome. |
| `HomePage.Page.CardLikeAsWritten` | src/app/page.tsx:220 | A card's like as wired always sends a like record, whatever the card shows. |
| `HomePage.Page.CardBookmarkAsWritten` | src/app/page.tsx:221 | A card's bookmark as wired always sends a bookmark record. |
| `HomePage.Page.CardLike` | src/app/page.tsx:220 | The corrected wiring removes the like when the card shows it liked, and records it otherwise. |
| `HomePage.Page.CardBookmark` | src/app/page.tsx:221 | The corrected wiring removes the bookmark when the card shows it bookmarked, and records it otherwise. |

## Left out

- Rendering is not modelled: JSX, class names, animation, icons, the author avatar and the progress bar's width.
- TanStack Query internals are not modelled: query caching, deduplication of in-flight page fetches, page appending, `staleTime`, retries and refetch on focus. `UseFeed.Paginate` states the assumed cursor contract, and its lemmas hold only under that assumption.
- `UseFeed.KeyMatches`: `invalidateQueries` is taken to match every query key that the filter is a prefix of, which is the library's default matching, assumed as `Paginate` is; `UseFeed.InvalidationTargets` holds under that assumption.
- The store module and the mock data module are not part of this model. The store is specified by how the page, the card and the hooks call it. The mock arrays are parameters.
- Real `fetch`, JSON parsing and URL encoding are not modelled. A reply is a parameter, and a query is a list of name/value pairs before encoding.
- `RemoveQueryRoundTrip`: stated only for ids without `&`, because the source puts the id into the URL unencoded, and an `&` in it would split the parameter.
- `navigator.share` and the clipboard fallback (page.tsx:163-178) are not modelled. Nor is the article-open stub.
- The simulated delays of the mock source are not modelled.
- The IntersectionObserver lifecycle is not modelled: creation with the threshold, observe and disconnect. The threshold is carried in the options but never compared, as in the source.
- `ViewTracker.ViewTracking.HandleIntersection`: one timestamp is taken per batch, where the source reads the clock once per firing entry.
- Floating point is not modelled: times, durations and the progress percentage are exact reals, and `playbackRate` is not modelled.
- `ForYouCard.Card.HandleTimeUpdate`: requires a positive duration. Before the metadata loads the element's `duration` is `NaN`, and a zero duration gives `Infinity` or `NaN`; those progress values are not modelled.
- `HomePage.ActiveIndexFor`, `HomePage.Page.HandleScroll`, `HomePage.Page.ScrollTo`: require a positive height. With a zero height the source's `Math.round(scrollTop / height)` is `NaN` when `scrollTop` is 0 and `Infinity` otherwise, and that value goes to `setActiveIndex`; that case is not modelled.
- `ForYouCard.MinutesSecondsRoundTrip`: stated for non-negative whole seconds only. Negative whole durations are modelled in the label function but have no read-back lemma.
- `ForYouCard.ActivationPlaysAfterRerender`: each `play()` outcome is an independent input. Under the HTML media rules, the `pause()` of the same effect flush rejects a still-pending first `play()` with an `AbortError`, whose handler clears `isPlaying`; that causal link is not modelled. It is the `PlayRejected` case, which ends as `ForYouCard.BlockedAutoplayShowsOverlay` states.
- `JsValues.NatToString`, `JsValues.IntToString`, `ForYouCard.MinutesSeconds`, `ForYouCard.DurationLabel`: JavaScript numbers are doubles. `String(n)` prints plain exact digits only below 2^53 (and switches to exponent form from 1e21); the model's integers are unbounded and it assumes durations below 2^53.
- `ForYouCard.MinutesSeconds`, `ForYouCard.RenderedDuration`, `ForYouCard.DurationLabel`: durations are whole seconds (`durationSec` is an integer). The source's `duration_sec` is any number, and a fractional one such as 90.5 renders as "1:30.5"; fractional durations and their number-to-text conversion are not modelled.
- The load-more trigger, discarding completions for a stale feed, and ordering of duplicate same-id mutations are not modelled. The page and the hooks do not implement them: the page uses the mock arrays and never fetches more.
- The mock-data dispatch that the API tests expect is not modelled, because the API module does not contain it.
- `mockRemoveInteraction` is not modelled: after its delay it does nothing.
- `SourceType`, `ApiResponse` and `PaginatedResponse` are not modelled. They are declared but not used by the core. The unwrap is modelled on JSON instead, and `FeedsApi.UnwrapEnvelope` covers the envelope.
- The `ref`-is-null guards of the page's handlers are not modelled: the page is taken as mounted.
- React batching, and the relative order of effects across several cards that share one `isPlaying`, are not modelled. Each card's effects are modelled on their own, in declaration order.
- `FeedSwitcher.HandleClick`, `HomePage.Page.SwitcherClick`: each switcher entry is a link (`href` "/" or "/news", `FeedSwitcher.LinkTarget`), and the click does not prevent its default, so after `onChange` runs the router navigates to that path. The navigation is routing, outside this model: the model stops after `onChange`, so a News click on the home page is modelled as setting the feed type and not as leaving "/" for "/news".
- `HomePage.ServerAfter` is an assumed model of the backend, which is not part of this model: it keeps one set of ids per interaction kind.

## Findings

| source | as written | input that shows it | evidently intended | confidence | as-written member | corrected member |
|---|---|---|---|---|---|---|
| src/app/page.tsx:220-221 | A card's like and bookmark callbacks always pass `false` as the current state. So the mutation always records and never removes. | An item that is liked locally and on the backend; the user clicks like again. The page toggles it to unliked, a like record is sent, and the page and backend now disagree. | Pass the state the card shows (`likedIds.has(id)`, `bookmarkedIds.has(id)`), so that unliking removes the like. | medium, not executed | `HomePage.AsWrittenClickDesyncs` | `HomePage.PageFlagKeepsAgreement` |
| src/components/feed/for-you-card.tsx:148-152 | `duration_sec && …` evaluates to the number 0 for a zero duration, and React renders that 0 as text. | An item with `duration_sec` equal to 0 shows a stray "0" below the author. | Show nothing when the duration is 0. | medium, not executed | `ForYouCard.ZeroDurationRendersStrayZero` | `ForYouCard.DurationLabel` |
