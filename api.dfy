/**
 * The YouTube Data API client of source/lib/api.js: API-key validation, the
 * metadata call's result shape, the paginated fetch of playlist items with the
 * per-item projection onto the requested export items, and error shaping.
 *
 * The network is abstract. `Server` answers one page request (playlist id plus
 * continuation token) with a page of raw items or an HTTP error; the API key,
 * `part` and `maxResults` parameters are fixed for one run and live inside it.
 */
module Api {
  import opened Wrappers
  import opened JsonValues
  import opened KeyPath

  /** Items returned by one page request (the protocol's maximum). */
  const MaxResults: nat := 50

  /** Export item key -> path of the value inside a raw playlist item. */
  const ExportItemsMap: map<string, string> := map[
    "position" := "snippet.position",
    "title" := "snippet.title",
    "uploader" := "snippet.videoOwnerChannelTitle",
    "uploaderUrl" := "snippet.videoOwnerChannelId",
    "url" := "snippet.resourceId.videoId",
    "description" := "snippet.description",
    "videoPrivacy" := "status.privacyStatus",
    "publishTime" := "snippet.publishedAt"
  ]

  const UploaderUrlPrefix: string := "https://www.youtube.com/channel/"
  const VideoUrlPrefix: string := "https://youtu.be/"
  /** The title the API reports for a video that has been deleted. */
  const DeletedTitle: string := "Deleted video"

  /**
   * Export item lists as callers build them: every key is one `exportItemsMap`
   * knows (the prompt offers only those) and no key is repeated.
   */
  predicate ValidExportItems(exportItems: seq<string>) {
    KnownKeys(exportItems) && Distinct(exportItems)
  }

  // ---------------------------------------------------------------------
  // Errors
  // ---------------------------------------------------------------------

  /** What a failed request reports: no response at all, or a status with the `errors[].reason` list of its body. */
  datatype HttpError = NoResponse | ErrorResponse(status: int, reasons: seq<string>)

  /**
   * What `throwError` throws. `Details(status, reason)` is the Error whose message
   * is the JSON text of `{status, reason}`; `Unstructured` is the TypeError raised
   * when the error has no response or its body has no first error reason.
   */
  datatype ThrownError = Details(status: int, reason: string) | Unstructured

  /** `throwError(error)`: always throws, and only a response with a reason gives a structured error. */
  function ThrowError(error: HttpError): (thrown: ThrownError)
    ensures thrown.Details? <==> error.ErrorResponse? && |error.reasons| > 0
    ensures thrown.Details? ==> thrown.status == error.status && thrown.reason == error.reasons[0]
  {
    match error
    case NoResponse => Unstructured
    case ErrorResponse(status, reasons) =>
      if |reasons| == 0 then Unstructured else Details(status, reasons[0])
  }

  // ---------------------------------------------------------------------
  // validateApiKey
  // ---------------------------------------------------------------------

  /** Outcome of the single probe request made with a candidate key. */
  datatype KeyProbe = Accepted | Rejected(error: HttpError)

  /** `true`, or the kind of message shown to the user. */
  datatype KeyVerdict = KeyWorks | EmptyKeyMessage | ConnectionMessage | InvalidKeyMessage | NotWorkingMessage

  /**
   * `validateApiKey(apiKey)`. `probe` answers the request made with the key; an
   * empty key is rejected before any request, so the verdict does not depend on it.
   */
  function ValidateApiKey(apiKey: string, probe: string -> KeyProbe): (verdict: KeyVerdict)
    ensures verdict == EmptyKeyMessage <==> apiKey == ""
    ensures verdict == KeyWorks <==> apiKey != "" && probe(apiKey).Accepted?
    ensures verdict == ConnectionMessage <==> apiKey != "" && probe(apiKey) == Rejected(NoResponse)
    ensures verdict == InvalidKeyMessage <==>
              apiKey != "" && probe(apiKey).Rejected? && probe(apiKey).error.ErrorResponse? && probe(apiKey).error.status == 400
    ensures verdict == NotWorkingMessage <==>
              apiKey != "" && probe(apiKey).Rejected? && probe(apiKey).error.ErrorResponse? && probe(apiKey).error.status != 400
  {
    if |apiKey| == 0 then EmptyKeyMessage
    else
      match probe(apiKey)
      case Accepted => KeyWorks
      case Rejected(NoResponse) => ConnectionMessage
      case Rejected(ErrorResponse(status, _)) => if status == 400 then InvalidKeyMessage else NotWorkingMessage
  }

  // ---------------------------------------------------------------------
  // getPlaylistMetadata (result shape only)
  // ---------------------------------------------------------------------

  datatype Metadata = Metadata(title: string, numOfVideos: nat)

  /**
   * `getPlaylistMetadata`: the `playlistItems` request gives the total item count,
   * then the `playlists` request gives the matching playlists' titles. Any
   * failure goes through `throwError`; a `playlists` answer with no item fails on
   * `items[0]` and reaches `throwError` as a response-less error.
   */
  function PlaylistMetadata(itemsResponse: Result<nat, HttpError>, playlistsResponse: Result<seq<string>, HttpError>)
    : (r: Result<Metadata, ThrownError>)
    ensures r.Success? <==> itemsResponse.Success? && playlistsResponse.Success? && |playlistsResponse.value| > 0
    ensures r.Success? ==> r.value.title == playlistsResponse.value[0] && r.value.numOfVideos == itemsResponse.value
    ensures itemsResponse.Failure? ==> r == Failure(ThrowError(itemsResponse.error))
    ensures itemsResponse.Success? && playlistsResponse.Failure? ==> r == Failure(ThrowError(playlistsResponse.error))
  {
    match itemsResponse
    case Failure(e) => Failure(ThrowError(e))
    case Success(numOfVideos) =>
      match playlistsResponse
      case Failure(e) => Failure(ThrowError(e))
      case Success(titles) =>
        if |titles| == 0 then Failure(ThrowError(NoResponse))
        else Success(Metadata(titles[0], numOfVideos))
  }

  // ---------------------------------------------------------------------
  // Projection of one raw item
  // ---------------------------------------------------------------------

  /** `item[outer][inner]`, when `item[outer]` is present. */
  function Nested(item: Json, outer: string, inner: string): Option<Json> {
    var o := Property(item, outer);
    if o.Some? then Property(o.value, inner) else None
  }

  /** `item.status.privacyStatus === "private"` */
  predicate IsPrivate(item: Json) {
    Nested(item, "status", "privacyStatus") == Some(Str("private"))
  }

  /** `item.snippet.title === "Deleted video"` */
  predicate IsDeleted(item: Json) {
    Nested(item, "snippet", "title") == Some(Str(DeletedTitle))
  }

  /** Items the skip setting drops. */
  predicate IsPrivateOrDeleted(item: Json) {
    IsPrivate(item) || IsDeleted(item)
  }

  /** The value exported under `key` for `item`: the looked-up value with the per-key overrides applied. */
  function FieldValue(item: Json, key: string): Json
    requires key in ExportItemsMap
  {
    var data := GetValue(item, ExportItemsMap[key]);
    if key == "description" then
      if IsPrivateOrDeleted(item) then Null else data
    else if key == "uploaderUrl" then
      if IsPrivateOrDeleted(item) then Null else Str(UploaderUrlPrefix + TemplateText(data))
    else if key == "url" then
      Str(VideoUrlPrefix + TemplateText(data))
    else if key == "videoPrivacy" then
      if IsDeleted(item) then Str("deleted") else data
    else
      data
  }

  /** The branch-by-branch reading of FieldValue that the field loop follows. */
  lemma FieldValueCases(item: Json, key: string, looked: Json, data: Json, hidden: bool, deleted: bool)
    requires key in ExportItemsMap
    requires looked == GetValue(item, ExportItemsMap[key])
    requires hidden == IsPrivateOrDeleted(item) && deleted == IsDeleted(item)
    requires data == (if key == "description" then (if hidden then Null else looked)
                      else if key == "uploaderUrl" then (if hidden then Null else Str(UploaderUrlPrefix + TemplateText(looked)))
                      else if key == "url" then Str(VideoUrlPrefix + TemplateText(looked))
                      else if key == "videoPrivacy" then (if deleted then Str("deleted") else looked)
                      else looked)
    ensures data == FieldValue(item, key)
  {
  }

  /** Every key is one `exportItemsMap` knows. */
  predicate KnownKeys(keys: seq<string>) {
    forall i :: 0 <= i < |keys| ==> keys[i] in ExportItemsMap
  }

  /** The fields exported for `item` under `keys`, one per key and in the same order. */
  function EntryFields(item: Json, keys: seq<string>): seq<(string, Json)>
    requires KnownKeys(keys)
    decreases |keys|
  {
    if |keys| == 0 then []
    else
      var last := keys[|keys| - 1];
      EntryFields(item, keys[..|keys| - 1]) + [(last, FieldValue(item, last))]
  }

  lemma {:induction false} EntryFieldsShape(item: Json, keys: seq<string>)
    requires KnownKeys(keys)
    ensures |EntryFields(item, keys)| == |keys|
    ensures forall i :: 0 <= i < |keys| ==> EntryFields(item, keys)[i] == (keys[i], FieldValue(item, keys[i]))
    decreases |keys|
  {
    if |keys| > 0 {
      var init := keys[..|keys| - 1];
      EntryFieldsShape(item, init);
      assert EntryFields(item, keys) == EntryFields(item, init) + [(keys[|keys| - 1], FieldValue(item, keys[|keys| - 1]))];
    }
  }

  /** The exported entry for `item`. */
  function Entry(item: Json, exportItems: seq<string>): Json
    requires ValidExportItems(exportItems)
  {
    Obj(EntryFields(item, exportItems))
  }

  /** An entry is an object with one field per requested key, in the requested order, holding that key's value. */
  lemma EntryShape(item: Json, exportItems: seq<string>)
    requires ValidExportItems(exportItems)
    ensures Entry(item, exportItems).Obj?
    ensures Keys(Entry(item, exportItems).fields) == exportItems
    ensures forall i :: 0 <= i < |exportItems| ==> Entry(item, exportItems).fields[i].1 == FieldValue(item, exportItems[i])
  {
    EntryFieldsShape(item, exportItems);
    assert Keys(Entry(item, exportItems).fields) == exportItems;
  }

  /** The value `getPlaylistData` stores under `exportItem`: the `switch` over the key. */
  method ExportedValue(item: Json, exportItem: string, isPrivate: bool, isDeleted: bool) returns (data: Json)
    requires exportItem in ExportItemsMap
    requires isPrivate == IsPrivate(item) && isDeleted == IsDeleted(item)
    ensures data == FieldValue(item, exportItem)
  {
    data := GetValue(item, ExportItemsMap[exportItem]);
    ghost var looked := data;
    if exportItem == "description" {
      if isPrivate || isDeleted {
        data := Null;
      }
    } else if exportItem == "uploaderUrl" {
      data := if isPrivate || isDeleted then Null else Str(UploaderUrlPrefix + TemplateText(data));
    } else if exportItem == "url" {
      data := Str(VideoUrlPrefix + TemplateText(data));
    } else if exportItem == "videoPrivacy" {
      if isDeleted {
        data := Str("deleted");
      }
    }
    FieldValueCases(item, exportItem, looked, data, isPrivate || isDeleted, isDeleted);
  }

  /** The inner `exportItems.forEach`: fills the entry field by field. */
  method BuildEntry(item: Json, exportItems: seq<string>, isPrivate: bool, isDeleted: bool) returns (entry: Json)
    requires ValidExportItems(exportItems)
    requires isPrivate == IsPrivate(item) && isDeleted == IsDeleted(item)
    ensures entry == Entry(item, exportItems)
  {
    var fields: seq<(string, Json)> := [];
    for j := 0 to |exportItems|
      invariant fields == EntryFields(item, exportItems[..j])
    {
      assert exportItems[..j + 1][..j] == exportItems[..j];
      var data := ExportedValue(item, exportItems[j], isPrivate, isDeleted);
      fields := fields + [(exportItems[j], data)];
    }
    assert exportItems[..|exportItems|] == exportItems;
    entry := Obj(fields);
  }

  /** The entries produced by a run of raw items, in item order; with `skip`, private and deleted items produce none. */
  function ProjectItems(items: seq<Json>, exportItems: seq<string>, skip: bool): seq<Json>
    requires ValidExportItems(exportItems)
    decreases |items|
  {
    if |items| == 0 then []
    else
      var last := items[|items| - 1];
      ProjectItems(items[..|items| - 1], exportItems, skip)
        + (if skip && IsPrivateOrDeleted(last) then [] else [Entry(last, exportItems)])
  }

  /** The `data.items.forEach` callback over one page: the page's entries, in item order. */
  method ProjectPage(items: seq<Json>, exportItems: seq<string>, skip: bool) returns (entries: seq<Json>)
    requires ValidExportItems(exportItems)
    ensures entries == ProjectItems(items, exportItems, skip)
  {
    entries := [];
    for i := 0 to |items|
      invariant entries == ProjectItems(items[..i], exportItems, skip)
    {
      assert items[..i + 1][..i] == items[..i];
      var item := items[i];
      var isPrivate := Nested(item, "status", "privacyStatus") == Some(Str("private"));
      var isDeleted := Nested(item, "snippet", "title") == Some(Str(DeletedTitle));
      if skip && (isPrivate || isDeleted) {
        continue;
      }
      var entry := BuildEntry(item, exportItems, isPrivate, isDeleted);
      entries := entries + [entry];
    }
    assert items[..|items|] == items;
  }

  // ---------------------------------------------------------------------
  // Pagination
  // ---------------------------------------------------------------------

  datatype PageRequest = PageRequest(playlistId: string, pageToken: Option<string>)

  /** A page of raw items with the continuation token (`data.nextPageToken ?? null`), or a failed request. */
  datatype Response = Page(items: seq<Json>, nextPageToken: Option<string>) | Failed(error: HttpError)

  type Server = PageRequest -> Response

  /** `Math.ceil(numOfVideos / MAX_RESULTS)`. */
  function NumOfPages(numOfVideos: nat): nat {
    (numOfVideos + MaxResults - 1) / MaxResults
  }

  /** The requests made for `pages` more pages starting from `token`; a failed request is the last one. */
  function RequestsMade(server: Server, playlistId: string, token: Option<string>, pages: nat): seq<PageRequest>
    decreases pages
  {
    if pages == 0 then []
    else
      var request := PageRequest(playlistId, token);
      match server(request)
      case Failed(_) => [request]
      case Page(_, next) => [request] + RequestsMade(server, playlistId, next, pages - 1)
  }

  /** `entries` followed by the entries of `rest`, or the error of `rest`. */
  function Prepend(entries: seq<Json>, rest: Result<seq<Json>, ThrownError>): Result<seq<Json>, ThrownError> {
    match rest
    case Success(more) => Success(entries + more)
    case Failure(e) => Failure(e)
  }

  lemma PrependNothing(rest: Result<seq<Json>, ThrownError>)
    ensures Prepend([], rest) == rest
  {
    if rest.Success? {
      assert [] + rest.value == rest.value;
    }
  }

  lemma PrependTwice(first: seq<Json>, second: seq<Json>, rest: Result<seq<Json>, ThrownError>)
    ensures Prepend(first, Prepend(second, rest)) == Prepend(first + second, rest)
  {
    if rest.Success? {
      assert first + (second + rest.value) == (first + second) + rest.value;
    }
  }

  /** What fetching `pages` more pages starting from `token` returns or throws. */
  function FetchPages(server: Server, playlistId: string, token: Option<string>, pages: nat,
                      exportItems: seq<string>, skip: bool): Result<seq<Json>, ThrownError>
    requires ValidExportItems(exportItems)
    decreases pages
  {
    if pages == 0 then Success([])
    else
      match server(PageRequest(playlistId, token))
      case Failed(e) => Failure(ThrowError(e))
      case Page(items, next) =>
        Prepend(ProjectItems(items, exportItems, skip), FetchPages(server, playlistId, next, pages - 1, exportItems, skip))
  }

  /**
   * `getPlaylistData(playlistId, exportItems, numOfVideos)`. `skip` is the
   * `skipPrivateOrDeleted` setting. Returns what the call resolves to or throws,
   * and the page requests it made, in order.
   */
  method GetPlaylistData(server: Server, playlistId: string, exportItems: seq<string>, numOfVideos: nat, skip: bool)
    returns (result: Result<seq<Json>, ThrownError>, requests: seq<PageRequest>)
    requires ValidExportItems(exportItems)
    ensures result == FetchPages(server, playlistId, None, NumOfPages(numOfVideos), exportItems, skip)
    ensures requests == RequestsMade(server, playlistId, None, NumOfPages(numOfVideos))
  {
    var playlistData: seq<Json> := [];
    var numOfPages := NumOfPages(numOfVideos);
    var nextPageToken: Option<string> := None;
    requests := [];
    PrependNothing(FetchPages(server, playlistId, None, numOfPages, exportItems, skip));
    for page := 0 to numOfPages
      invariant FetchPages(server, playlistId, None, numOfPages, exportItems, skip)
                == Prepend(playlistData, FetchPages(server, playlistId, nextPageToken, numOfPages - page, exportItems, skip))
      invariant RequestsMade(server, playlistId, None, numOfPages)
                == requests + RequestsMade(server, playlistId, nextPageToken, numOfPages - page)
    {
      var request := PageRequest(playlistId, nextPageToken);
      var response := server(request);
      requests := requests + [request];
      if response.Failed? {
        assert FetchPages(server, playlistId, nextPageToken, numOfPages - page, exportItems, skip)
               == Failure(ThrowError(response.error));
        result := Failure(ThrowError(response.error));
        return;
      }
      nextPageToken := response.nextPageToken;
      var entries := ProjectPage(response.items, exportItems, skip);
      assert FetchPages(server, playlistId, request.pageToken, numOfPages - page, exportItems, skip)
             == Prepend(entries, FetchPages(server, playlistId, nextPageToken, numOfPages - (page + 1), exportItems, skip));
      PrependTwice(playlistData, entries,
                   FetchPages(server, playlistId, nextPageToken, numOfPages - (page + 1), exportItems, skip));
      playlistData := playlistData + entries;
    }
    assert playlistData + [] == playlistData;
    result := Success(playlistData);
  }
}
