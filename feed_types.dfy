/**
 * The feed API's data model: content items, news slides, page responses and
 * interaction records, with the closed string unions of the wire format.
 */
module FeedTypes {
  import opened Wrappers
  import opened JsValues

  /** The closed set of content kinds. */
  datatype ContentType = Article | Video | Tweet | Comment | Podcast

  /** The wire spelling of a content kind. */
  function ContentTypeTag(t: ContentType): string {
    match t
    case Article => "ARTICLE"
    case Video => "VIDEO"
    case Tweet => "TWEET"
    case Comment => "COMMENT"
    case Podcast => "PODCAST"
  }

  /** Reads a wire tag back; exactly the five tags are accepted, each as the kind it spells. */
  function ParseContentType(tag: string): (t: Option<ContentType>)
    ensures t.Some? ==> ContentTypeTag(t.value) == tag
    ensures t.None? ==> forall c: ContentType :: ContentTypeTag(c) != tag
  {
    if tag == "ARTICLE" then Some(Article)
    else if tag == "VIDEO" then Some(Video)
    else if tag == "TWEET" then Some(Tweet)
    else if tag == "COMMENT" then Some(Comment)
    else if tag == "PODCAST" then Some(Podcast)
    else None
  }

  /** Processing status a CMS attaches to an item. */
  datatype ContentStatus = Pending | Processing | Ready | Failed | Archived

  /**
   * One content item. Engagement counters like/comment/share are mandatory;
   * every field that TypeScript declares with `?` is an Option.
   */
  datatype ContentItem = ContentItem(
    id: string,
    contentType: ContentType,
    title: Option<string>,
    bodyText: Option<string>,
    excerpt: Option<string>,
    mediaUrl: Option<string>,
    thumbnailUrl: Option<string>,
    originalUrl: Option<string>,
    durationSec: Option<int>,
    author: Option<string>,
    sourceName: Option<string>,
    likeCount: int,
    commentCount: int,
    shareCount: int,
    viewCount: Option<int>,
    transcriptId: Option<string>,
    topicTags: Option<seq<string>>,
    sourceFeedUrl: Option<string>,
    metadata: Option<map<string, Json>>,
    status: Option<ContentStatus>,
    publishedAt: string,
    createdAt: string,
    updatedAt: Option<string>,
    isLiked: Option<bool>,
    isBookmarked: Option<bool>
  )

  /** A news slide: one featured item and its related items, in order. */
  datatype NewsSlide = NewsSlide(slideId: string, featured: ContentItem, related: seq<ContentItem>)

  /** One page of the For You feed (also the shape of a bookmarks page); `None` is the JSON `null` cursor. */
  datatype ForYouResponse = ForYouResponse(cursor: Option<string>, items: seq<ContentItem>)

  /** One page of the News feed. */
  datatype NewsResponse = NewsResponse(cursor: Option<string>, slides: seq<NewsSlide>)

  /** The closed set of interaction kinds. */
  datatype InteractionType = Like | Bookmark | Share | View | Complete

  /** The wire spelling of an interaction kind. */
  function InteractionTypeTag(t: InteractionType): string {
    match t
    case Like => "like"
    case Bookmark => "bookmark"
    case Share => "share"
    case View => "view"
    case Complete => "complete"
  }

  /** Reads an interaction tag back; exactly the five tags are accepted. */
  function ParseInteractionType(tag: string): (t: Option<InteractionType>)
    ensures t.Some? ==> InteractionTypeTag(t.value) == tag
    ensures t.None? ==> forall c: InteractionType :: InteractionTypeTag(c) != tag
  {
    if tag == "like" then Some(Like)
    else if tag == "bookmark" then Some(Bookmark)
    else if tag == "share" then Some(Share)
    else if tag == "view" then Some(View)
    else if tag == "complete" then Some(Complete)
    else None
  }

  /** The kinds the fire-and-forget tracking mutation may send. */
  type TrackKind = t: InteractionType | t == View || t == Complete witness View

  /** A recorded interaction as the server returns it. */
  datatype Interaction = Interaction(id: string, contentItemId: string, interactionType: InteractionType, createdAt: string)
}
