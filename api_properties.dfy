/**
 * What the paginated fetch and the projection of source/lib/api.js guarantee:
 * how many pages are requested and with which tokens, that a failure loses
 * everything fetched so far, that entries follow page order then item order,
 * and the per-field override rules.
 */
module ApiProperties {
  import opened Wrappers
  import opened JsonValues
  import opened KeyPath
  import opened Api

  /** NumOfPages is the ceiling of n / 50: the fewest pages of 50 items that hold n items. */
  lemma NumOfPagesIsCeiling(n: nat)
    ensures NumOfPages(n) * MaxResults >= n
    ensures NumOfPages(n) > 0 ==> (NumOfPages(n) - 1) * MaxResults < n
    ensures NumOfPages(n) == 0 <==> n == 0
  {
  }

  /** An empty playlist makes no request and yields no entries. */
  lemma NoVideosNoRequests(server: Server, playlistId: string, exportItems: seq<string>, skip: bool)
    requires ValidExportItems(exportItems)
    ensures RequestsMade(server, playlistId, None, NumOfPages(0)) == []
    ensures FetchPages(server, playlistId, None, NumOfPages(0), exportItems, skip) == Success([])
  {
  }

  /**
   * The requests form a token chain: the first carries the starting token, each
   * later one the previous response's `nextPageToken` (None when the response had
   * none), every one names the same playlist, and there are at most `pages`.
   */
  lemma {:induction false} RequestChain(server: Server, playlistId: string, token: Option<string>, pages: nat)
    ensures var reqs := RequestsMade(server, playlistId, token, pages);
      && |reqs| <= pages
      && (pages > 0 ==> |reqs| > 0 && reqs[0] == PageRequest(playlistId, token))
      && (forall i :: 0 <= i < |reqs| ==> reqs[i].playlistId == playlistId)
      && (forall i :: 0 <= i < |reqs| - 1 ==>
            server(reqs[i]).Page? && reqs[i + 1].pageToken == server(reqs[i]).nextPageToken)
    decreases pages
  {
    if pages > 0 {
      var request := PageRequest(playlistId, token);
      match server(request)
      case Failed(_) =>
      case Page(_, next) =>
        RequestChain(server, playlistId, next, pages - 1);
        var rest := RequestsMade(server, playlistId, next, pages - 1);
        var reqs := [request] + rest;
        assert reqs == RequestsMade(server, playlistId, token, pages);
        forall i | 0 <= i < |reqs| - 1
          ensures server(reqs[i]).Page? && reqs[i + 1].pageToken == server(reqs[i]).nextPageToken
        {
          if i > 0 {
            assert reqs[i] == rest[i - 1] && reqs[i + 1] == rest[i];
          }
        }
    }
  }

  /**
   * The fetch succeeds exactly when all `pages` requests are made and every one
   * is answered with a page: the loop never stops early, whatever the tokens.
   */
  lemma {:induction false} FetchSucceedsExactly(server: Server, playlistId: string, token: Option<string>, pages: nat,
                                                exportItems: seq<string>, skip: bool)
    requires ValidExportItems(exportItems)
    ensures var reqs := RequestsMade(server, playlistId, token, pages);
      (FetchPages(server, playlistId, token, pages, exportItems, skip).Success?
       <==> |reqs| == pages && forall i :: 0 <= i < |reqs| ==> server(reqs[i]).Page?)
    decreases pages
  {
    if pages > 0 {
      var request := PageRequest(playlistId, token);
      match server(request)
      case Failed(_) =>
        var reqs := RequestsMade(server, playlistId, token, pages);
        assert reqs == [request];
        assert server(reqs[0]).Failed?;
      case Page(items, next) =>
        FetchSucceedsExactly(server, playlistId, next, pages - 1, exportItems, skip);
        FetchSucceedsStep(server, playlistId, token, pages, exportItems, skip);
        var rest := RequestsMade(server, playlistId, next, pages - 1);
        var reqs := [request] + rest;
        assert reqs == RequestsMade(server, playlistId, token, pages);
        assert (forall i :: 0 <= i < |reqs| ==> server(reqs[i]).Page?)
               <==> (forall i :: 0 <= i < |rest| ==> server(rest[i]).Page?) by {
          assert forall i :: 0 < i < |reqs| ==> reqs[i] == rest[i - 1];
          assert forall i :: 0 <= i < |rest| ==> rest[i] == reqs[i + 1];
        }
    }
  }

  /** One step of the fetch: it succeeds when the first page arrives and the rest of the fetch succeeds. */
  lemma FetchSucceedsStep(server: Server, playlistId: string, token: Option<string>, pages: nat,
                          exportItems: seq<string>, skip: bool)
    requires ValidExportItems(exportItems)
    requires pages > 0 && server(PageRequest(playlistId, token)).Page?
    ensures FetchPages(server, playlistId, token, pages, exportItems, skip).Success?
            == FetchPages(server, playlistId, server(PageRequest(playlistId, token)).nextPageToken, pages - 1, exportItems, skip).Success?
  {
  }

  /**
   * When the fetch fails, the last request made is the failed one and its error,
   * shaped by `throwError`, is all that comes back: no partial data.
   */
  lemma {:induction false} FetchFailsOnLastRequest(server: Server, playlistId: string, token: Option<string>, pages: nat,
                                                   exportItems: seq<string>, skip: bool)
    requires ValidExportItems(exportItems)
    requires FetchPages(server, playlistId, token, pages, exportItems, skip).Failure?
    ensures var reqs := RequestsMade(server, playlistId, token, pages);
      && |reqs| > 0 && server(reqs[|reqs| - 1]).Failed?
      && FetchPages(server, playlistId, token, pages, exportItems, skip).error == ThrowError(server(reqs[|reqs| - 1]).error)
    decreases pages
  {
    var request := PageRequest(playlistId, token);
    match server(request)
    case Failed(_) =>
      assert RequestsMade(server, playlistId, token, pages) == [request];
    case Page(items, next) =>
      var later := FetchPages(server, playlistId, next, pages - 1, exportItems, skip);
      assert FetchPages(server, playlistId, token, pages, exportItems, skip)
             == Prepend(ProjectItems(items, exportItems, skip), later);
      FetchFailsOnLastRequest(server, playlistId, next, pages - 1, exportItems, skip);
      var rest := RequestsMade(server, playlistId, next, pages - 1);
      var reqs := [request] + rest;
      assert reqs == RequestsMade(server, playlistId, token, pages);
      assert reqs[|reqs| - 1] == rest[|rest| - 1];
  }

  /** The raw items of the pages requested, in request order, then item order. */
  function RawItems(server: Server, playlistId: string, token: Option<string>, pages: nat): seq<Json>
    decreases pages
  {
    if pages == 0 then []
    else
      match server(PageRequest(playlistId, token))
      case Failed(_) => []
      case Page(items, next) => items + RawItems(server, playlistId, next, pages - 1)
  }

  lemma {:induction false} ProjectItemsAppend(a: seq<Json>, b: seq<Json>, exportItems: seq<string>, skip: bool)
    requires ValidExportItems(exportItems)
    ensures ProjectItems(a + b, exportItems, skip) == ProjectItems(a, exportItems, skip) + ProjectItems(b, exportItems, skip)
    decreases |b|
  {
    if |b| == 0 {
      assert a + b == a;
    } else {
      var ab, init, last := a + b, b[..|b| - 1], b[|b| - 1];
      assert ab[..|ab| - 1] == a + init;
      assert ab[|ab| - 1] == last;
      var tail := if skip && IsPrivateOrDeleted(last) then [] else [Entry(last, exportItems)];
      assert ProjectItems(ab, exportItems, skip) == ProjectItems(a + init, exportItems, skip) + tail;
      assert ProjectItems(b, exportItems, skip) == ProjectItems(init, exportItems, skip) + tail;
      ProjectItemsAppend(a, init, exportItems, skip);
    }
  }

  /**
   * A successful fetch is the projection of all raw items of all pages, pages in
   * request order and items in page order: entries are never reordered.
   */
  lemma {:induction false} FetchProjectsRawItems(server: Server, playlistId: string, token: Option<string>, pages: nat,
                                                 exportItems: seq<string>, skip: bool)
    requires ValidExportItems(exportItems)
    requires FetchPages(server, playlistId, token, pages, exportItems, skip).Success?
    ensures FetchPages(server, playlistId, token, pages, exportItems, skip).value
            == ProjectItems(RawItems(server, playlistId, token, pages), exportItems, skip)
    decreases pages
  {
    if pages > 0 {
      match server(PageRequest(playlistId, token))
      case Failed(_) =>
      case Page(items, next) =>
        FetchProjectsRawItems(server, playlistId, next, pages - 1, exportItems, skip);
        ProjectItemsAppend(items, RawItems(server, playlistId, next, pages - 1), exportItems, skip);
    }
  }

  /** Without the skip setting every raw item gives exactly one entry, in the same position. */
  lemma ProjectWithoutSkip(items: seq<Json>, exportItems: seq<string>)
    requires ValidExportItems(exportItems)
    ensures |ProjectItems(items, exportItems, false)| == |items|
    ensures forall i :: 0 <= i < |items| ==> ProjectItems(items, exportItems, false)[i] == Entry(items[i], exportItems)
  {
    ProjectedLength(items, exportItems);
    forall i | 0 <= i < |items| ensures ProjectItems(items, exportItems, false)[i] == Entry(items[i], exportItems) {
      ProjectedAt(items, exportItems, i);
    }
  }

  lemma {:induction false} ProjectedLength(items: seq<Json>, exportItems: seq<string>)
    requires ValidExportItems(exportItems)
    ensures |ProjectItems(items, exportItems, false)| == |items|
    decreases |items|
  {
    if |items| > 0 {
      ProjectedLength(items[..|items| - 1], exportItems);
    }
  }

  lemma {:induction false} ProjectedAt(items: seq<Json>, exportItems: seq<string>, i: nat)
    requires ValidExportItems(exportItems)
    requires i < |items|
    ensures |ProjectItems(items, exportItems, false)| == |items|
    ensures ProjectItems(items, exportItems, false)[i] == Entry(items[i], exportItems)
    decreases |items|
  {
    var init := items[..|items| - 1];
    if i < |init| {
      ProjectedAt(init, exportItems, i);
      ProjectedKeepsEarlier(items, exportItems, i);
    } else {
      ProjectedAtLast(items, exportItems);
    }
  }

  /** Without skipping, the last item contributes exactly one entry at the end. */
  lemma ProjectedStep(items: seq<Json>, exportItems: seq<string>)
    requires ValidExportItems(exportItems)
    requires |items| > 0
    ensures ProjectItems(items, exportItems, false)
            == ProjectItems(items[..|items| - 1], exportItems, false) + [Entry(items[|items| - 1], exportItems)]
  {
  }

  lemma ProjectedAtLast(items: seq<Json>, exportItems: seq<string>)
    requires ValidExportItems(exportItems)
    requires |items| > 0
    ensures |ProjectItems(items, exportItems, false)| == |items|
    ensures ProjectItems(items, exportItems, false)[|items| - 1] == Entry(items[|items| - 1], exportItems)
  {
    ProjectedStep(items, exportItems);
    ProjectedLength(items[..|items| - 1], exportItems);
  }

  lemma ProjectedKeepsEarlier(items: seq<Json>, exportItems: seq<string>, i: nat)
    requires ValidExportItems(exportItems)
    requires i < |items| - 1
    requires |ProjectItems(items[..|items| - 1], exportItems, false)| == |items| - 1
    requires ProjectItems(items[..|items| - 1], exportItems, false)[i] == Entry(items[..|items| - 1][i], exportItems)
    ensures |ProjectItems(items, exportItems, false)| == |items|
    ensures ProjectItems(items, exportItems, false)[i] == Entry(items[i], exportItems)
  {
    ProjectedStep(items, exportItems);
    assert items[..|items| - 1][i] == items[i];
  }

  /** The items the skip setting keeps, in order. */
  function KeptItems(items: seq<Json>): (kept: seq<Json>)
    ensures |kept| <= |items|
    ensures forall x :: x in kept ==> x in items && !IsPrivateOrDeleted(x)
    ensures forall i :: 0 <= i < |items| && !IsPrivateOrDeleted(items[i]) ==> items[i] in kept
    decreases |items|
  {
    if |items| == 0 then []
    else
      var last := items[|items| - 1];
      var init := items[..|items| - 1];
      assert forall i :: 0 <= i < |init| ==> init[i] == items[i];
      KeptItems(init) + (if IsPrivateOrDeleted(last) then [] else [last])
  }

  /** With the skip setting, private and deleted items give no entry and every other item gives one. */
  lemma {:induction false} ProjectWithSkip(items: seq<Json>, exportItems: seq<string>)
    requires ValidExportItems(exportItems)
    ensures ProjectItems(items, exportItems, true) == ProjectItems(KeptItems(items), exportItems, false)
    decreases |items|
  {
    if |items| > 0 {
      var last := items[|items| - 1];
      var init := items[..|items| - 1];
      ProjectWithSkip(init, exportItems);
      if IsPrivateOrDeleted(last) {
        assert KeptItems(items) == KeptItems(init);
        assert ProjectItems(items, exportItems, true) == ProjectItems(init, exportItems, true);
      } else {
        var kept := KeptItems(init) + [last];
        assert KeptItems(items) == kept;
        assert kept[..|kept| - 1] == KeptItems(init);
        assert ProjectItems(kept, exportItems, false)
               == ProjectItems(KeptItems(init), exportItems, false) + [Entry(last, exportItems)];
        assert ProjectItems(items, exportItems, true) == ProjectItems(init, exportItems, true) + [Entry(last, exportItems)];
      }
    }
  }

  /** An entry has exactly the requested keys: each maps to its projected value and no other key is present. */
  lemma EntryKeys(item: Json, exportItems: seq<string>, key: string)
    requires ValidExportItems(exportItems)
    ensures key in exportItems ==> key in ExportItemsMap && Lookup(Entry(item, exportItems).fields, key) == Some(FieldValue(item, key))
    ensures key !in exportItems ==> Lookup(Entry(item, exportItems).fields, key).None?
  {
    var fields := Entry(item, exportItems).fields;
    EntryFieldsShape(item, exportItems);
    LookupSpec(fields, key);
    if key in exportItems {
      var j :| 0 <= j < |exportItems| && exportItems[j] == key;
      assert fields[j].0 == key;
      var i :| 0 <= i < |fields| && fields[i] == (key, Lookup(fields, key).value);
      assert exportItems[i] == key;
    } else {
      forall i | 0 <= i < |fields| ensures fields[i].0 != key {
        assert fields[i].0 == exportItems[i];
      }
    }
  }

  /** The video URL is always built from the video id, for private and deleted items too. */
  lemma UrlAlwaysBuilt(item: Json)
    ensures FieldValue(item, "url") == Str(VideoUrlPrefix + TemplateText(GetValue(item, ExportItemsMap["url"])))
  {
  }

  /** Description and uploader URL are null for private and deleted items, whatever the raw values. */
  lemma HiddenFieldsOfPrivateOrDeleted(item: Json)
    requires IsPrivateOrDeleted(item)
    ensures FieldValue(item, "description") == Null
    ensures FieldValue(item, "uploaderUrl") == Null
  {
  }

  /** For other items the description is kept and the uploader URL is the channel URL of the channel id. */
  lemma VisibleFieldsOfOtherItems(item: Json)
    requires !IsPrivateOrDeleted(item)
    ensures FieldValue(item, "description") == GetValue(item, ExportItemsMap["description"])
    ensures FieldValue(item, "uploaderUrl") == Str(UploaderUrlPrefix + TemplateText(GetValue(item, ExportItemsMap["uploaderUrl"])))
  {
  }

  /** The privacy field says "deleted" for a deleted item and otherwise keeps the raw status, so a private item stays "private". */
  lemma PrivacyField(item: Json)
    ensures IsDeleted(item) ==> FieldValue(item, "videoPrivacy") == Str("deleted")
    ensures !IsDeleted(item) ==> FieldValue(item, "videoPrivacy") == GetValue(item, ExportItemsMap["videoPrivacy"])
    ensures IsPrivate(item) && !IsDeleted(item) ==> FieldValue(item, "videoPrivacy") == Str("private")
  {
    if IsPrivate(item) && !IsDeleted(item) {
      PrivacyStatusIsLookedUp(item);
    }
  }

  lemma PrivacyPath()
    ensures ExportItemsMap["videoPrivacy"] == "status" + "." + "privacyStatus"
  {
  }

  /** The classification and the looked-up privacy value agree: an item is private exactly when its privacy value is "private". */
  lemma PrivacyStatusIsLookedUp(item: Json)
    ensures IsPrivate(item) <==> GetValue(item, ExportItemsMap["videoPrivacy"]) == Str("private")
  {
    PrivacyPath();
    NestedIsTwoSegmentPath(item, "status", "privacyStatus", Str("private"));
  }

  /** Reading `item[outer][inner]` directly finds a truthy value exactly when `getValue` of the dotted path does. */
  lemma NestedIsTwoSegmentPath(item: Json, outer: string, inner: string, v: Json)
    requires '.' !in outer && '.' !in inner
    requires Truthy(v)
    ensures Nested(item, outer, inner) == Some(v) <==> GetValue(item, outer + "." + inner) == v
  {
    GetValueComposes(item, outer, inner);
    GetValueOneStep(item, outer);
    GetValueOneStep(GetValue(item, outer), inner);
  }

  /** Position, title, uploader and publish time are never overridden. */
  lemma PlainFields(item: Json)
    ensures FieldValue(item, "position") == GetValue(item, ExportItemsMap["position"])
    ensures FieldValue(item, "title") == GetValue(item, ExportItemsMap["title"])
    ensures FieldValue(item, "uploader") == GetValue(item, ExportItemsMap["uploader"])
    ensures FieldValue(item, "publishTime") == GetValue(item, ExportItemsMap["publishTime"])
  {
  }

  /** `n` copies of `items` back to back. */
  function Repeat(items: seq<Json>, n: nat): seq<Json>
    decreases n
  {
    if n == 0 then [] else items + Repeat(items, n - 1)
  }

  /**
   * A missing token does not end the loop: when the first page has no
   * `nextPageToken`, every later request again carries no token, so the first
   * page is requested and exported once per remaining page.
   */
  lemma {:induction false} MissingTokenRepeatsFirstPage(server: Server, playlistId: string, pages: nat)
    requires server(PageRequest(playlistId, None)).Page?
    requires server(PageRequest(playlistId, None)).nextPageToken.None?
    ensures RequestsMade(server, playlistId, None, pages) == seq(pages, _ => PageRequest(playlistId, None))
    ensures RawItems(server, playlistId, None, pages) == Repeat(server(PageRequest(playlistId, None)).items, pages)
    decreases pages
  {
    if pages > 0 {
      MissingTokenRepeatsFirstPage(server, playlistId, pages - 1);
      assert seq(pages, _ => PageRequest(playlistId, None))
             == [PageRequest(playlistId, None)] + seq(pages - 1, _ => PageRequest(playlistId, None));
    }
  }
}
