/**
 * The HTTP client of the feed API: which request each call sends (method,
 * URL, query parameters in order, body) and how the reply settles the
 * returned promise (an error for a failed exchange or a non-OK status, or the
 * body unwrapped with `data.data || data`).
 *
 * The network is a parameter: each call receives the `Exchange` its request
 * met, and returns the request it sent together with its settled result.
 */
module FeedsApi {
  import opened Wrappers
  import opened JsValues
  import opened FeedTypes

  const DefaultApiBase: string := "http://localhost:8080/api/v1"

  /** The API base: the configured URL when it is a non-empty string, the local default otherwise. */
  function ApiBase(envUrl: Maybe<string>): (base: string)
    ensures base != ""
    ensures TruthyString(envUrl) ==> base == envUrl.value
    ensures !TruthyString(envUrl) ==> base == DefaultApiBase
  {
    if TruthyString(envUrl) then envUrl.value else DefaultApiBase
  }

  // ---------------------------------------------------------------------------
  // Query parameters (`URLSearchParams`), as an ordered list of name/value pairs

  datatype Param = Param(name: string, value: string)

  /** `params.get(name)`: the value of the first pair with that name. */
  function ParamValue(ps: seq<Param>, name: string): Option<string>
    decreases |ps|
  {
    if ps == [] then None
    else if ps[0].name == name then Some(ps[0].value)
    else ParamValue(ps[1..], name)
  }

  /** The list with every pair of the given name dropped. */
  function RemoveNamed(ps: seq<Param>, name: string): (r: seq<Param>)
    ensures ParamValue(r, name) == None
    ensures forall n :: n != name ==> ParamValue(r, n) == ParamValue(ps, n)
    decreases |ps|
  {
    if ps == [] then []
    else if ps[0].name == name then RemoveNamed(ps[1..], name)
    else [ps[0]] + RemoveNamed(ps[1..], name)
  }

  /**
   * `params.set(name, value)`: the first pair of that name takes the value and
   * later pairs of that name go; with no such pair, one is appended.
   */
  function SetParam(ps: seq<Param>, name: string, value: string): (r: seq<Param>)
    ensures ParamValue(r, name) == Some(value)
    ensures forall n :: n != name ==> ParamValue(r, n) == ParamValue(ps, n)
    ensures ParamValue(ps, name) == None ==> r == ps + [Param(name, value)]
    decreases |ps|
  {
    if ps == [] then [Param(name, value)]
    else if ps[0].name == name then [Param(name, value)] + RemoveNamed(ps[1..], name)
    else [ps[0]] + SetParam(ps[1..], name, value)
  }

  /** Setting a name that is present keeps its first position: the pairs before it stay, and later pairs of that name go. */
  lemma {:induction false} SetParamKeepsPosition(ps: seq<Param>, name: string, value: string, i: nat)
    requires i < |ps| && ps[i].name == name
    requires forall j :: 0 <= j < i ==> ps[j].name != name
    ensures SetParam(ps, name, value) == ps[..i] + [Param(name, value)] + RemoveNamed(ps[i + 1..], name)
    decreases i
  {
    if i > 0 {
      SetParamKeepsPosition(ps[1..], name, value, i - 1);
      assert ps[..i] == [ps[0]] + ps[1..][..i - 1];
      assert ps[i + 1..] == ps[1..][i..];
    }
  }

  /** A `URLSearchParams` object. */
  class SearchParams {
    var entries: seq<Param>

    constructor ()
      ensures entries == []
    {
      entries := [];
    }

    method Set(name: string, value: string)
      modifies this
      ensures entries == SetParam(old(entries), name, value)
    {
      entries := SetParam(entries, name, value);
    }
  }

  /** The query of a page fetch: the cursor first when it is truthy, then the page size. */
  function PageQuery(cursor: Maybe<string>, limit: string): seq<Param> {
    (if TruthyString(cursor) then [Param("cursor", cursor.value)] else []) + [Param("limit", limit)]
  }

  /** The cursor parameter is present exactly when the cursor is truthy, and it comes before `limit`. */
  lemma PageQueryShape(cursor: Maybe<string>, limit: string)
    ensures var q := PageQuery(cursor, limit);
      && ParamValue(q, "cursor") == (if TruthyString(cursor) then Some(cursor.value) else None)
      && ParamValue(q, "limit") == Some(limit)
      && |q| == (if TruthyString(cursor) then 2 else 1)
      && q[|q| - 1].name == "limit"
  {
  }

  /** Builds the page query by successive `set` calls on a fresh parameter object. */
  method BuildPageQuery(cursor: Maybe<string>, limit: string) returns (query: seq<Param>)
    ensures query == PageQuery(cursor, limit)
  {
    var params := new SearchParams();
    if TruthyString(cursor) {
      params.Set("cursor", cursor.value);
    }
    params.Set("limit", limit);
    query := params.entries;
  }

  // ---------------------------------------------------------------------------
  // Requests and replies

  datatype HttpMethod = HttpGet | HttpPost | HttpDelete

  /** A request as `fetch` receives it; `query` is the `URLSearchParams` suffix, before encoding. */
  datatype Request = Request(verb: HttpMethod, url: string, query: seq<Param>, headers: seq<Param>, body: Option<Json>)

  /** What a request met: no reply at all, or a reply with its status and its body read as JSON (`None`: not JSON). */
  datatype Exchange = NetworkFailure | Responded(ok: bool, statusText: string, json: Option<Json>)

  /** Why an awaited call rejects. `NullDataAccess` is the TypeError of reading `.data` on a `null` body. */
  datatype FetchError = NetworkError | HttpError(message: string) | JsonSyntaxError | NullDataAccess

  /** `data.data || data`. */
  function Unwrap(data: Json): (r: Result<Json, FetchError>)
    ensures r.Failure? <==> data.JNull?
    ensures r.Failure? ==> r.error == NullDataAccess
    ensures data.JObj? && "data" in data.fields && Truthy(data.fields["data"]) ==> r == Success(data.fields["data"])
    ensures !data.JNull? && !(data.JObj? && "data" in data.fields && Truthy(data.fields["data"])) ==> r == Success(data)
  {
    match data
    case JNull => Failure(NullDataAccess)
    case JObj(fields) =>
      if "data" in fields && Truthy(fields["data"]) then Success(fields["data"]) else Success(data)
    case _ => Success(data)
  }

  /** The server's `ApiResponse` envelope `{code, message, data}`. */
  function Envelope(code: int, message: string, payload: Json): Json {
    JObj(map["code" := JNum(code as real), "message" := JStr(message), "data" := payload])
  }

  /** An enveloped payload is unwrapped when it is truthy; a falsy payload leaves the envelope itself as the result. */
  lemma UnwrapEnvelope(code: int, message: string, payload: Json)
    ensures Truthy(payload) ==> Unwrap(Envelope(code, message, payload)) == Success(payload)
    ensures !Truthy(payload) ==> Unwrap(Envelope(code, message, payload)) == Success(Envelope(code, message, payload))
  {
  }

  /** A bare object without a `data` key is returned as it is. */
  lemma UnwrapBareObject(fields: map<string, Json>)
    requires "data" !in fields
    ensures Unwrap(JObj(fields)) == Success(JObj(fields))
  {
  }

  /** How the promise of a JSON call settles: a failed exchange or a non-OK status rejects, else the unwrapped body. */
  function ReadJson(reply: Exchange, failure: string): (r: Result<Json, FetchError>)
    ensures reply.NetworkFailure? ==> r == Failure(NetworkError)
    ensures reply.Responded? && !reply.ok ==> r == Failure(HttpError(failure + ": " + reply.statusText))
    ensures r.Success? ==> reply.Responded? && reply.ok && reply.json.Some? && Unwrap(reply.json.value) == r
    ensures reply.Responded? && reply.ok && reply.json.None? ==> r == Failure(JsonSyntaxError)
    ensures reply.Responded? && reply.ok && reply.json.Some? ==> r == Unwrap(reply.json.value)
  {
    match reply
    case NetworkFailure => Failure(NetworkError)
    case Responded(ok, statusText, json) =>
      if !ok then Failure(HttpError(failure + ": " + statusText))
      else if json.None? then Failure(JsonSyntaxError)
      else Unwrap(json.value)
  }

  /** An OK reply carrying the server's envelope with a truthy payload settles with that payload. */
  lemma ReadJsonOfEnvelope(statusText: string, failure: string, code: int, message: string, payload: Json)
    requires Truthy(payload)
    ensures ReadJson(Responded(true, statusText, Some(Envelope(code, message, payload))), failure) == Success(payload)
  {
  }

  /** How the promise of a call that ignores the body settles. */
  function ReadStatus(reply: Exchange, failure: string): (r: Result<(), FetchError>)
    ensures r.Success? <==> reply.Responded? && reply.ok
    ensures reply.NetworkFailure? ==> r == Failure(NetworkError)
    ensures reply.Responded? && !reply.ok ==> r == Failure(HttpError(failure + ": " + reply.statusText))
  {
    match reply
    case NetworkFailure => Failure(NetworkError)
    case Responded(ok, statusText, _) =>
      if ok then Success(()) else Failure(HttpError(failure + ": " + statusText))
  }

  /** A non-OK status or a failed exchange never yields a value. */
  lemma NonOkNeverYieldsValue(reply: Exchange, failure: string)
    requires reply.NetworkFailure? || !reply.ok
    ensures ReadJson(reply, failure).Failure? && ReadStatus(reply, failure).Failure?
  {
  }

  /** The body handling after `await fetch(...)`: throw on a non-OK status, then unwrap the parsed body. */
  method ReceiveJson(reply: Exchange, failure: string) returns (result: Result<Json, FetchError>)
    ensures result == ReadJson(reply, failure)
  {
    if reply.NetworkFailure? {
      return Failure(NetworkError);
    }
    if !reply.ok {
      return Failure(HttpError(failure + ": " + reply.statusText));
    }
    if reply.json.None? {
      return Failure(JsonSyntaxError);
    }
    result := Unwrap(reply.json.value);
  }

  // ---------------------------------------------------------------------------
  // The calls

  const ForYouPath: string := "/feed/foryou?"
  const NewsPath: string := "/feed/news?"
  const BookmarksPath: string := "/interactions/bookmarks?"
  const InteractionsPath: string := "/interactions"
  const ContentPath: string := "/content/"

  const ForYouLimit: string := "20"
  const NewsLimit: string := "10"
  const BookmarksLimit: string := "20"

  /** The request of a page fetch with no headers and no body. */
  function PageRequest(base: string, path: string, cursor: Maybe<string>, limit: string): Request {
    Request(HttpGet, base + path, PageQuery(cursor, limit), [], None)
  }

  method FetchForYouFeed(base: string, cursor: Maybe<string>, reply: Exchange)
    returns (sent: Request, result: Result<Json, FetchError>)
    ensures sent == PageRequest(base, ForYouPath, cursor, ForYouLimit)
    ensures result == ReadJson(reply, "Failed to fetch For You feed")
  {
    var query := BuildPageQuery(cursor, ForYouLimit);
    sent := Request(HttpGet, base + ForYouPath, query, [], None);
    result := ReceiveJson(reply, "Failed to fetch For You feed");
  }

  method FetchNewsFeed(base: string, cursor: Maybe<string>, reply: Exchange)
    returns (sent: Request, result: Result<Json, FetchError>)
    ensures sent == PageRequest(base, NewsPath, cursor, NewsLimit)
    ensures result == ReadJson(reply, "Failed to fetch News feed")
  {
    var query := BuildPageQuery(cursor, NewsLimit);
    sent := Request(HttpGet, base + NewsPath, query, [], None);
    result := ReceiveJson(reply, "Failed to fetch News feed");
  }

  method FetchBookmarks(base: string, cursor: Maybe<string>, reply: Exchange)
    returns (sent: Request, result: Result<Json, FetchError>)
    ensures sent == PageRequest(base, BookmarksPath, cursor, BookmarksLimit)
    ensures result == ReadJson(reply, "Failed to fetch bookmarks")
  {
    var query := BuildPageQuery(cursor, BookmarksLimit);
    sent := Request(HttpGet, base + BookmarksPath, query, [], None);
    result := ReceiveJson(reply, "Failed to fetch bookmarks");
  }

  method FetchContentItem(base: string, id: string, reply: Exchange)
    returns (sent: Request, result: Result<Json, FetchError>)
    ensures sent == Request(HttpGet, base + ContentPath + id, [], [], None)
    ensures result == ReadJson(reply, "Failed to fetch content item")
  {
    sent := Request(HttpGet, base + ContentPath + id, [], [], None);
    result := ReceiveJson(reply, "Failed to fetch content item");
  }

  /** The JSON body of a record call; `JSON.stringify` leaves out an undefined `metadata`. */
  function RecordBody(contentItemId: string, t: InteractionType, metadata: Option<map<string, Json>>): Json {
    var fields := map["content_item_id" := JStr(contentItemId), "interaction_type" := JStr(InteractionTypeTag(t))];
    JObj(if metadata.Some? then fields["metadata" := JObj(metadata.value)] else fields)
  }

  /** What a server reads from a record body: the content id, the interaction kind and the optional metadata. */
  function ParseRecordBody(body: Json): Option<(string, InteractionType, Option<map<string, Json>>)> {
    if !body.JObj? then None
    else
      var f := body.fields;
      if "content_item_id" !in f || "interaction_type" !in f then None
      else if !f["content_item_id"].JStr? || !f["interaction_type"].JStr? then None
      else
        var t := ParseInteractionType(f["interaction_type"].s);
        if t.None? then None
        else if "metadata" !in f then Some((f["content_item_id"].s, t.value, None))
        else if f["metadata"].JObj? then Some((f["content_item_id"].s, t.value, Some(f["metadata"].fields)))
        else None
  }

  /** The record body carries exactly the given content id, kind and metadata, and nothing else. */
  lemma RecordBodyRoundTrip(contentItemId: string, t: InteractionType, metadata: Option<map<string, Json>>)
    ensures ParseRecordBody(RecordBody(contentItemId, t, metadata)) == Some((contentItemId, t, metadata))
    ensures RecordBody(contentItemId, t, metadata).fields.Keys
      == {"content_item_id", "interaction_type"} + (if metadata.Some? then {"metadata"} else {})
  {
  }

  method RecordInteraction(base: string, contentItemId: string, t: InteractionType,
                           metadata: Option<map<string, Json>>, reply: Exchange)
    returns (sent: Request, result: Result<Json, FetchError>)
    ensures sent == Request(HttpPost, base + InteractionsPath, [], [Param("Content-Type", "application/json")],
                            Some(RecordBody(contentItemId, t, metadata)))
    ensures result == ReadJson(reply, "Failed to record interaction")
  {
    sent := Request(HttpPost, base + InteractionsPath, [], [Param("Content-Type", "application/json")],
                    Some(RecordBody(contentItemId, t, metadata)));
    result := ReceiveJson(reply, "Failed to record interaction");
  }

  /** The query text of a remove call, interpolated into the URL without escaping. */
  function RemoveQueryString(contentItemId: string, t: InteractionType): string {
    "content_item_id=" + contentItemId + "&type=" + InteractionTypeTag(t)
  }

  method RemoveInteraction(base: string, contentItemId: string, t: InteractionType, reply: Exchange)
    returns (sent: Request, result: Result<(), FetchError>)
    ensures sent == Request(HttpDelete, base + InteractionsPath + "?" + RemoveQueryString(contentItemId, t), [], [], None)
    ensures result == ReadStatus(reply, "Failed to remove interaction")
  {
    sent := Request(HttpDelete, base + InteractionsPath + "?" + RemoveQueryString(contentItemId, t), [], [], None);
    if reply.NetworkFailure? {
      return sent, Failure(NetworkError);
    }
    if !reply.ok {
      return sent, Failure(HttpError("Failed to remove interaction" + ": " + reply.statusText));
    }
    result := Success(());
  }

  // ---------------------------------------------------------------------------
  // Reading a query string back (splitting on `&`, then at the first `=`; no percent-decoding)

  /** `s.split(sep)`: the pieces between the separators, by repeated `BreakAt`. */
  function SplitOn(s: string, sep: char): (parts: seq<string>)
    decreases |s|
  {
    if sep !in s then [s]
    else
      var r := BreakAt(s, sep);
      [r.0] + SplitOn(r.1, sep)
  }

  lemma SplitOnWithoutSep(a: string, sep: char)
    requires sep !in a
    ensures SplitOn(a, sep) == [a]
  {
  }

  lemma SplitOnFirstSep(a: string, b: string, sep: char)
    requires sep !in a
    ensures SplitOn(a + [sep] + b, sep) == [a] + SplitOn(b, sep)
  {
    assert (a + [sep] + b)[|a|] == sep;
    BreakAtFirstSep(a, b, sep);
  }

  function ParsePair(part: string): Param {
    var r := BreakAt(part, '=');
    Param(r.0, r.1)
  }

  function ParseQuery(q: string): (ps: seq<Param>) {
    var parts := SplitOn(q, '&');
    seq(|parts|, i requires 0 <= i < |parts| => ParsePair(parts[i]))
  }

  /** A remove call's query string splits at `&` into its two pairs, when the id has no `&`. */
  lemma RemoveQueryParts(contentItemId: string, t: InteractionType)
    requires '&' !in contentItemId
    ensures SplitOn(RemoveQueryString(contentItemId, t), '&')
      == ["content_item_id=" + contentItemId, "type=" + InteractionTypeTag(t)]
  {
    var first := "content_item_id=" + contentItemId;
    var second := "type=" + InteractionTypeTag(t);
    assert RemoveQueryString(contentItemId, t) == first + ['&'] + second;
    assert '&' !in "content_item_id=";
    assert '&' !in second by {
      match t
      case Like =>
      case Bookmark =>
      case Share =>
      case View =>
      case Complete =>
    }
    SplitOnFirstSep(first, second, '&');
    SplitOnWithoutSep(second, '&');
  }

  /** A remove call's query reads back as exactly `content_item_id` and then `type`, when the id has no `&`. */
  lemma RemoveQueryRoundTrip(contentItemId: string, t: InteractionType)
    requires '&' !in contentItemId
    ensures ParseQuery(RemoveQueryString(contentItemId, t))
      == [Param("content_item_id", contentItemId), Param("type", InteractionTypeTag(t))]
  {
    var tag := InteractionTypeTag(t);
    RemoveQueryParts(contentItemId, t);
    assert "content_item_id=" + contentItemId == "content_item_id" + ['='] + contentItemId;
    BreakAtFirstSep("content_item_id", contentItemId, '=');
    assert "type=" + tag == "type" + ['='] + tag;
    BreakAtFirstSep("type", tag, '=');
  }
}
