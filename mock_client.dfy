/**
 * The development feed source. The mock item arrays live in a data module that
 * is not part of this model, so they are parameters; the simulated delays are
 * not modelled.
 */
module MockClient {
  import opened Wrappers
  import opened JsValues
  import opened FeedTypes

  const NextCursorToken: string := "next-cursor-token"
  const NotFoundMessage: string := "Content item not found"

  /** Every For You call returns the whole mock set with the fixed cursor, whatever cursor it was given. */
  function MockFetchForYouFeed(mockItems: seq<ContentItem>, cursor: Maybe<string>): (page: ForYouResponse)
    ensures page.cursor == Some(NextCursorToken)
    ensures page.items == mockItems
  {
    ForYouResponse(Some(NextCursorToken), mockItems)
  }

  /** Every News call returns the whole mock slide set with the fixed cursor. */
  function MockFetchNewsFeed(mockSlides: seq<NewsSlide>, cursor: Maybe<string>): (page: NewsResponse)
    ensures page.cursor == Some(NextCursorToken)
    ensures page.slides == mockSlides
  {
    NewsResponse(Some(NextCursorToken), mockSlides)
  }

  /** The bookmarks source has one empty, final page. */
  function MockFetchBookmarks(cursor: Maybe<string>): (page: ForYouResponse)
    ensures page.cursor.None? && page.items == []
  {
    ForYouResponse(None, [])
  }

  /** `items.find(i => i.id === id)`: the first item with the id, if any. */
  function FindById(items: seq<ContentItem>, id: string): (r: Option<ContentItem>)
    ensures r.Some? <==> exists k :: 0 <= k < |items| && items[k].id == id
    ensures r.Some? ==> exists k :: 0 <= k < |items| && items[k] == r.value && items[k].id == id
                                    && forall j :: 0 <= j < k ==> items[j].id != id
    decreases |items|
  {
    if items == [] then None
    else if items[0].id == id then Some(items[0])
    else
      var r := FindById(items[1..], id);
      assert r.Some? ==> exists k :: 1 <= k < |items| && items[k] == r.value && items[k].id == id
                                     && forall j :: 1 <= j < k ==> items[j].id != id by {
        if r.Some? {
          var k' :| 0 <= k' < |items[1..]| && items[1..][k'] == r.value && items[1..][k'].id == id
                    && forall j :: 0 <= j < k' ==> items[1..][j].id != id;
          assert items[k' + 1] == r.value;
          assert forall j :: 1 <= j < k' + 1 ==> items[j].id != id by {
            forall j | 1 <= j < k' + 1 ensures items[j].id != id {
              assert items[j] == items[1..][j - 1];
            }
          }
        }
      }
      assert (exists k :: 0 <= k < |items| && items[k].id == id) ==> r.Some? by {
        if exists k :: 0 <= k < |items| && items[k].id == id {
          var k :| 0 <= k < |items| && items[k].id == id;
          assert items[1..][k - 1].id == id;
        }
      }
      r
  }

  /** Searching a concatenation searches the first part, then the second. */
  lemma {:induction false} FindByIdAppend(a: seq<ContentItem>, b: seq<ContentItem>, id: string)
    ensures FindById(a + b, id) == if FindById(a, id).Some? then FindById(a, id) else FindById(b, id)
    decreases |a|
  {
    if a != [] {
      assert (a + b)[1..] == a[1..] + b;
      FindByIdAppend(a[1..], b, id);
    } else {
      assert a + b == b;
    }
  }

  /** `slides.flatMap(s => [s.featured, ...s.related])`. */
  function SlideItems(slides: seq<NewsSlide>): seq<ContentItem>
    decreases |slides|
  {
    if slides == [] then [] else [slides[0].featured] + slides[0].related + SlideItems(slides[1..])
  }

  /** Every featured and related item of a slide is among the flattened items. */
  lemma {:induction false} SlideItemsContains(slides: seq<NewsSlide>, k: nat)
    requires k < |slides|
    ensures slides[k].featured in SlideItems(slides)
    ensures forall x :: x in slides[k].related ==> x in SlideItems(slides)
    decreases |slides|
  {
    if k > 0 {
      SlideItemsContains(slides[1..], k - 1);
    }
  }

  /** Flattening a concatenation of slide lists concatenates their flattenings. */
  lemma {:induction false} SlideItemsAppend(a: seq<NewsSlide>, b: seq<NewsSlide>)
    ensures SlideItems(a + b) == SlideItems(a) + SlideItems(b)
    decreases |a|
  {
    if a == [] {
      assert a + b == b;
    } else {
      assert (a + b)[1..] == a[1..] + b;
      SlideItemsAppend(a[1..], b);
    }
  }

  /** An item is in the flattened list exactly when it is some slide's featured item or one of its related items. */
  lemma {:induction false} SlideItemsMembers(slides: seq<NewsSlide>, x: ContentItem)
    ensures x in SlideItems(slides) <==> exists k :: 0 <= k < |slides| && (x == slides[k].featured || x in slides[k].related)
    decreases |slides|
  {
    if exists k :: 0 <= k < |slides| && (x == slides[k].featured || x in slides[k].related) {
      var k :| 0 <= k < |slides| && (x == slides[k].featured || x in slides[k].related);
      SlideItemsContains(slides, k);
    }
    if x in SlideItems(slides) && x != slides[0].featured && x !in slides[0].related {
      SlideItemsMembers(slides[1..], x);
      var k :| 0 <= k < |slides[1..]| && (x == slides[1..][k].featured || x in slides[1..][k].related);
      assert slides[k + 1] == slides[1..][k];
    }
  }

  /**
   * The mock content lookup: the For You items first, then each slide's
   * featured item followed by its related items, in slide order; the first
   * match wins, and no match is the "not found" error.
   */
  function MockFetchContentItem(mockItems: seq<ContentItem>, mockSlides: seq<NewsSlide>, id: string)
    : (r: Result<ContentItem, string>)
    ensures var all := mockItems + SlideItems(mockSlides);
      && (r.Success? <==> exists k :: 0 <= k < |all| && all[k].id == id)
      && (r.Failure? ==> r.error == NotFoundMessage)
      && (r.Success? ==> exists k :: 0 <= k < |all| && all[k] == r.value && r.value.id == id
                                     && forall j :: 0 <= j < k ==> all[j].id != id)
  {
    FindByIdAppend(mockItems, SlideItems(mockSlides), id);
    var item := if FindById(mockItems, id).Some? then FindById(mockItems, id)
                else FindById(SlideItems(mockSlides), id);
    if item.None? then Failure(NotFoundMessage) else Success(item.value)
  }

  /** A mock record echoes the content id and the kind; the id and the time come from the platform. */
  function MockRecordInteraction(contentItemId: string, t: InteractionType, uuid: string, now: string)
    : (r: Interaction)
    ensures r.contentItemId == contentItemId && r.interactionType == t
    ensures r.id == uuid && r.createdAt == now
  {
    Interaction(uuid, contentItemId, t, now)
  }
}
