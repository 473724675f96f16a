/**
 * The `ytpl-export id <playlistId>` action handler of source/commands/id.js and
 * its `handleApiError`.
 *
 * The handler is a sequence of checks with an early `return false` after each
 * failed one: Watch Later, missing API key, metadata failure, empty playlist,
 * data failure; otherwise it saves the file and returns true. The two metadata
 * requests, the page server, the prompt answers and the clock are inputs. The
 * handler's `fileExt` and `folderPath` settings live in a store that is not
 * part of this model and are passed as `StoredOptions`. The same store holds
 * `skipPrivateOrDeleted`, which `getPlaylistData` reads for itself; the model
 * hoists that read into the `skip` parameter of `GetPlaylistData`, and the
 * handler passes it from `StoredOptions`.
 */
module IdCommand {
  import opened Wrappers
  import opened JsonValues
  import opened Api
  import opened Configuration
  import opened FileExport

  const WatchLaterId: string := "WL"

  /** The three messages `handleApiError` prints, by kind. */
  datatype ApiMessage =
    | QuotaExceeded(status: int)
    | PlaylistNotFound(status: int)
    | SomethingWentWrong(status: int, reason: string)

  /**
   * `handleApiError(error)`: `JSON.parse(error.message)`, then a switch on the
   * reason. An error not made by `throwError` from a response (a TypeError) has
   * a message that is not JSON, so the parse throws: None.
   */
  function HandleApiError(error: ThrownError): (message: Option<ApiMessage>)
    ensures message.None? <==> error.Unstructured?
    ensures error.Details? && error.reason == "quotaExceeded" ==> message == Some(QuotaExceeded(error.status))
    ensures error.Details? && error.reason == "playlistNotFound" ==> message == Some(PlaylistNotFound(error.status))
    ensures error.Details? && error.reason != "quotaExceeded" && error.reason != "playlistNotFound" ==>
              message == Some(SomethingWentWrong(error.status, error.reason))
  {
    match error
    case Unstructured => None
    case Details(status, reason) =>
      if reason == "quotaExceeded" then Some(QuotaExceeded(status))
      else if reason == "playlistNotFound" then Some(PlaylistNotFound(status))
      else Some(SomethingWentWrong(status, reason))
  }

  /** The three reasons give three different kinds of message. */
  lemma ApiMessagesDiffer(status: int, reason: string)
    requires reason != "quotaExceeded" && reason != "playlistNotFound"
    ensures var quota := HandleApiError(Details(status, "quotaExceeded")).value;
            var missing := HandleApiError(Details(status, "playlistNotFound")).value;
            var other := HandleApiError(Details(status, reason)).value;
      && quota.QuotaExceeded? && missing.PlaylistNotFound? && other.SomethingWentWrong?
      && quota != missing && missing != other && quota != other
  {
  }

  /**
   * The stored settings: the file options `--default` takes, and the skip rule
   * `getPlaylistData` reads, here hoisted into the handler's inputs.
   */
  datatype StoredOptions = StoredOptions(fileExt: string, folderPath: string, skipPrivateOrDeleted: bool)

  /** What the export options prompt answered. */
  datatype Answers = Answers(exportItems: seq<string>, fileExt: string, folderPath: string)

  /** Which way the handler went. */
  datatype Step =
    | WatchLater
    | NoApiKey
    | MetadataFailed(error: ThrownError)
    | EmptyPlaylist
    | DataFailed(exportItems: seq<string>, numOfVideos: nat, error: ThrownError)
    | Saved(exportItems: seq<string>, numOfVideos: nat, data: seq<Json>, saveOptions: SaveOptions)

  /** The handler's promise: resolves to a boolean, or rejects when `handleApiError` itself throws. */
  datatype Outcome = Resolved(exported: bool) | Unhandled

  /** What the handler tells the user before returning, by kind. */
  datatype Notice = WatchLaterWarning | MissingKeyWarning | ApiErrorNotice(message: ApiMessage) | EmptyPlaylistNotice

  /** The early-return sequence of `idActionHandler`. */
  function Decide(playlistId: string, apiKey: Option<Json>,
                  itemsResponse: Result<nat, HttpError>, playlistsResponse: Result<seq<string>, HttpError>,
                  useDefaults: bool, defaults: seq<string>, stored: StoredOptions, answers: Answers,
                  server: Server): Step
    requires useDefaults ==> ValidExportItems(defaults)
    requires !useDefaults ==> ValidExportItems(answers.exportItems)
  {
    if playlistId == WatchLaterId then WatchLater
    else if !TruthyOrUndefined(apiKey) then NoApiKey
    else MetadataStep(playlistId, PlaylistMetadata(itemsResponse, playlistsResponse), useDefaults, defaults, stored, answers,
                      server)
  }

  /** The rest of the sequence once the metadata request has settled. */
  function MetadataStep(playlistId: string, metadata: Result<Metadata, ThrownError>,
                        useDefaults: bool, defaults: seq<string>, stored: StoredOptions, answers: Answers,
                        server: Server): Step
    requires useDefaults ==> ValidExportItems(defaults)
    requires !useDefaults ==> ValidExportItems(answers.exportItems)
  {
    match metadata
    case Failure(e) => MetadataFailed(e)
    case Success(m) =>
      if m.numOfVideos == 0 then EmptyPlaylist
      else
        var exportItems := if useDefaults then defaults else answers.exportItems;
        FetchStep(playlistId, m.numOfVideos, exportItems, ChosenOptions(useDefaults, stored, answers, m.title),
                  stored.skipPrivateOrDeleted, server)
  }

  /** The file options: from the settings with `--default`, otherwise from the prompt; the title from the metadata. */
  function ChosenOptions(useDefaults: bool, stored: StoredOptions, answers: Answers, title: string): SaveOptions {
    if useDefaults then SaveOptions(stored.fileExt, stored.folderPath, title)
    else SaveOptions(answers.fileExt, answers.folderPath, title)
  }

  /** Past the checks: the data is fetched for the chosen export items, then saved with the chosen options. */
  function FetchStep(playlistId: string, numOfVideos: nat, exportItems: seq<string>, saveOptions: SaveOptions,
                     skip: bool, server: Server): Step
    requires ValidExportItems(exportItems)
  {
    match GetPlaylistDataResult(server, playlistId, exportItems, numOfVideos, skip)
    case Failure(e) => DataFailed(exportItems, numOfVideos, e)
    case Success(data) => Saved(exportItems, numOfVideos, data, saveOptions)
  }

  /** What `getPlaylistData(playlistId, exportItems, numOfVideos)` resolves to or throws. */
  function GetPlaylistDataResult(server: Server, playlistId: string, exportItems: seq<string>, numOfVideos: nat, skip: bool)
    : Result<seq<Json>, ThrownError>
    requires ValidExportItems(exportItems)
  {
    FetchPages(server, playlistId, None, NumOfPages(numOfVideos), exportItems, skip)
  }

  /** Whether the step reached `getPlaylistData`. */
  predicate Fetched(step: Step) {
    step.DataFailed? || step.Saved?
  }

  /** How the handler's promise settles after `step`. */
  function OutcomeOf(step: Step): Outcome {
    match step
    case MetadataFailed(e) => CaughtOutcome(e)
    case DataFailed(_, _, e) => CaughtOutcome(e)
    case Saved(_, _, _, _) => Resolved(true)
    case _ => Resolved(false)
  }

  /** The notices printed on the way. */
  function NoticesOf(step: Step): seq<Notice> {
    match step
    case WatchLater => [WatchLaterWarning]
    case NoApiKey => [MissingKeyWarning]
    case MetadataFailed(e) => CaughtNotices(e)
    case EmptyPlaylist => [EmptyPlaylistNotice]
    case DataFailed(_, _, e) => CaughtNotices(e)
    case Saved(_, _, _, _) => []
  }

  /**
   * `idActionHandler(playlistId, { default: useDefaults })`. Returns how the
   * promise settles, the notices printed, the page requests made and the messages
   * `saveFile` printed; the file system changes only through `saveFile`.
   */
  method IdActionHandler(config: Config, fs: FileSystem, playlistId: string, useDefaults: bool,
                         itemsResponse: Result<nat, HttpError>, playlistsResponse: Result<seq<string>, HttpError>,
                         stored: StoredOptions, answers: Answers, server: Server, isoNow: string)
    returns (outcome: Outcome, notices: seq<Notice>, requests: seq<PageRequest>, saveLog: seq<SaveMessage>)
    requires config.Valid()
    requires useDefaults ==> ValidExportItems(TrueKeys(config.store[ExportItemsSetting].fields))
    requires !useDefaults ==> ValidExportItems(answers.exportItems)
    modifies fs
    ensures var step := Decide(playlistId, config.Get(ApiKeySetting), itemsResponse, playlistsResponse, useDefaults,
                               TrueKeys(config.store[ExportItemsSetting].fields), stored, answers, server);
      && outcome == OutcomeOf(step)
      && notices == NoticesOf(step)
      && requests == (if Fetched(step) then RequestsMade(server, playlistId, None, NumOfPages(step.numOfVideos)) else [])
      && (step.Saved? ==>
            SaveRun(fs.Current(), saveLog)
            == SaveOutcome(old(fs.Current()), fs.mkdirFailures, fs.writeFailures, step.data, step.saveOptions, isoNow))
      && (!step.Saved? ==> fs.Current() == old(fs.Current()) && saveLog == [])
  {
    ghost var defaults := TrueKeys(config.store[ExportItemsSetting].fields);
    ghost var step := Decide(playlistId, config.Get(ApiKeySetting), itemsResponse, playlistsResponse, useDefaults,
                             defaults, stored, answers, server);
    requests, saveLog := [], [];
    if playlistId == WatchLaterId {
      assert step == WatchLater;
      notices := [WatchLaterWarning];
      outcome := Resolved(false);
      return;
    }
    var apiKey := config.Get(ApiKeySetting);
    if !(apiKey.Some? && Truthy(apiKey.value)) {
      assert step == NoApiKey;
      notices := [MissingKeyWarning];
      outcome := Resolved(false);
      return;
    }
    var metadata := PlaylistMetadata(itemsResponse, playlistsResponse);
    assert step == MetadataStep(playlistId, metadata, useDefaults, defaults, stored, answers, server);
    outcome, notices, requests, saveLog :=
      ContinueWithMetadata(config, fs, playlistId, metadata, useDefaults, stored, answers, server, isoNow);
  }

  /**
   * The handler from the metadata `try` block on: report a failure, stop on an
   * empty playlist, otherwise choose the export and run it.
   */
  method ContinueWithMetadata(config: Config, fs: FileSystem, playlistId: string, metadata: Result<Metadata, ThrownError>,
                              useDefaults: bool, stored: StoredOptions, answers: Answers, server: Server, isoNow: string)
    returns (outcome: Outcome, notices: seq<Notice>, requests: seq<PageRequest>, saveLog: seq<SaveMessage>)
    requires config.Valid()
    requires useDefaults ==> ValidExportItems(TrueKeys(config.store[ExportItemsSetting].fields))
    requires !useDefaults ==> ValidExportItems(answers.exportItems)
    modifies fs
    ensures var step := MetadataStep(playlistId, metadata, useDefaults, TrueKeys(config.store[ExportItemsSetting].fields),
                                     stored, answers, server);
      && outcome == OutcomeOf(step)
      && notices == NoticesOf(step)
      && requests == (if Fetched(step) then RequestsMade(server, playlistId, None, NumOfPages(step.numOfVideos)) else [])
      && (step.Saved? ==>
            SaveRun(fs.Current(), saveLog)
            == SaveOutcome(old(fs.Current()), fs.mkdirFailures, fs.writeFailures, step.data, step.saveOptions, isoNow))
      && (!step.Saved? ==> fs.Current() == old(fs.Current()) && saveLog == [])
  {
    ghost var step := MetadataStep(playlistId, metadata, useDefaults, TrueKeys(config.store[ExportItemsSetting].fields),
                                   stored, answers, server);
    requests, saveLog := [], [];
    if metadata.Failure? {
      assert step == MetadataFailed(metadata.error);
      outcome, notices := ReportApiError(metadata.error);
      return;
    }
    if metadata.value.numOfVideos == 0 {
      assert step == EmptyPlaylist;
      notices := [EmptyPlaylistNotice];
      outcome := Resolved(false);
      return;
    }
    var exportItems, saveFileOptions := ChooseExport(config, useDefaults, stored, answers, metadata.value.title);
    assert step == FetchStep(playlistId, metadata.value.numOfVideos, exportItems, saveFileOptions,
                             stored.skipPrivateOrDeleted, server);
    outcome, notices, requests, saveLog :=
      ExportPlaylist(fs, playlistId, metadata.value.numOfVideos, exportItems, saveFileOptions,
                     stored.skipPrivateOrDeleted, server, isoNow);
  }

  /** What a `catch` block settles to: `handleApiError` prints its message and the handler returns false. */
  function CaughtOutcome(error: ThrownError): Outcome {
    if HandleApiError(error).Some? then Resolved(false) else Unhandled
  }

  /** What a `catch` block prints. */
  function CaughtNotices(error: ThrownError): seq<Notice> {
    if HandleApiError(error).Some? then [ApiErrorNotice(HandleApiError(error).value)] else []
  }

  /** The two `catch` blocks of `idActionHandler`: `handleApiError(error); return false;`. */
  method ReportApiError(error: ThrownError) returns (outcome: Outcome, notices: seq<Notice>)
    ensures outcome == CaughtOutcome(error) && notices == CaughtNotices(error)
    ensures outcome == Unhandled <==> error.Unstructured?
    ensures outcome != Resolved(true)
  {
    var message := HandleApiError(error);
    if message.None? {
      outcome, notices := Unhandled, [];
      return;
    }
    notices := [ApiErrorNotice(message.value)];
    outcome := Resolved(false);
  }

  /**
   * The `--default` choice: the export items checked by default in the settings
   * and the stored file options, or the prompt's three answers.
   */
  method ChooseExport(config: Config, useDefaults: bool, stored: StoredOptions, answers: Answers, title: string)
    returns (exportItems: seq<string>, saveFileOptions: SaveOptions)
    requires config.Valid()
    ensures exportItems == if useDefaults then TrueKeys(config.store[ExportItemsSetting].fields) else answers.exportItems
    ensures saveFileOptions == ChosenOptions(useDefaults, stored, answers, title)
  {
    saveFileOptions := SaveOptions(stored.fileExt, stored.folderPath, title);
    if useDefaults {
      exportItems := config.GetExportItemsDefaults();
    } else {
      exportItems := answers.exportItems;
      saveFileOptions := saveFileOptions.(fileExt := answers.fileExt);
      saveFileOptions := saveFileOptions.(folderPath := answers.folderPath);
    }
  }

  /** The `try` block after the choice: fetch the data, then save it. */
  method ExportPlaylist(fs: FileSystem, playlistId: string, numOfVideos: nat, exportItems: seq<string>,
                        saveFileOptions: SaveOptions, skip: bool, server: Server, isoNow: string)
    returns (outcome: Outcome, notices: seq<Notice>, requests: seq<PageRequest>, saveLog: seq<SaveMessage>)
    requires ValidExportItems(exportItems)
    modifies fs
    ensures var step := FetchStep(playlistId, numOfVideos, exportItems, saveFileOptions, skip, server);
      && outcome == OutcomeOf(step)
      && notices == NoticesOf(step)
      && requests == RequestsMade(server, playlistId, None, NumOfPages(numOfVideos))
      && (step.Saved? ==>
            SaveRun(fs.Current(), saveLog)
            == SaveOutcome(old(fs.Current()), fs.mkdirFailures, fs.writeFailures, step.data, saveFileOptions, isoNow))
      && (!step.Saved? ==> fs.Current() == old(fs.Current()) && saveLog == [])
  {
    var playlistData;
    playlistData, requests := GetPlaylistData(server, playlistId, exportItems, numOfVideos, skip);
    ghost var step := FetchStep(playlistId, numOfVideos, exportItems, saveFileOptions, skip, server);
    assert playlistData == GetPlaylistDataResult(server, playlistId, exportItems, numOfVideos, skip);
    if playlistData.Failure? {
      assert step == DataFailed(exportItems, numOfVideos, playlistData.error);
      outcome, notices := ReportApiError(playlistData.error);
      saveLog := [];
      return;
    }
    assert step == Saved(exportItems, numOfVideos, playlistData.value, saveFileOptions);
    saveLog := SaveFile(fs, playlistData.value, saveFileOptions, isoNow);
    outcome, notices := Resolved(true), [];
  }

  // ---------------------------------------------------------------------
  // Properties of the decision sequence
  // ---------------------------------------------------------------------

  /** The handler resolves to true exactly when it got as far as saving. */
  lemma TrueOnlyWhenExported(step: Step)
    ensures OutcomeOf(step) == Resolved(true) <==> step.Saved?
    ensures step.Saved? ==> NoticesOf(step) == []
  {
  }

  /**
   * `saveFile` only prints its folder and write failures, so reaching it is
   * enough: the handler resolves to true although no file was written.
   */
  lemma TrueEvenWhenSaveFails(step: Step, disk: Disk, mkdirFailures: set<string>, writeFailures: set<string>,
                              isoNow: string)
    requires step.Saved?
    requires || (!Exists(disk, step.saveOptions.folderPath) && step.saveOptions.folderPath in mkdirFailures)
             || TargetPath(step.saveOptions, isoNow) in writeFailures
    ensures OutcomeOf(step) == Resolved(true)
    ensures var run := SaveOutcome(disk, mkdirFailures, writeFailures, step.data, step.saveOptions, isoNow);
      && run.disk.files == disk.files
      && (forall m :: m in run.log ==> !m.Exported?)
      && (run.log[|run.log| - 1].FolderError? || run.log[|run.log| - 1].WriteError?)
  {
  }

  /** Watch Later is refused before the key, the API or the prompt are consulted. */
  lemma WatchLaterRefusedFirst(apiKey: Option<Json>,
                               itemsResponse: Result<nat, HttpError>, playlistsResponse: Result<seq<string>, HttpError>,
                               useDefaults: bool, defaults: seq<string>, stored: StoredOptions, answers: Answers,
                               server: Server)
    requires useDefaults ==> ValidExportItems(defaults)
    requires !useDefaults ==> ValidExportItems(answers.exportItems)
    ensures var step := Decide(WatchLaterId, apiKey, itemsResponse, playlistsResponse, useDefaults, defaults, stored, answers, server);
      step == WatchLater && OutcomeOf(step) == Resolved(false) && !Fetched(step)
  {
  }

  /** An absent or empty API key stops the handler before any request. */
  lemma MissingKeyRefused(playlistId: string, apiKey: Option<Json>,
                          itemsResponse: Result<nat, HttpError>, playlistsResponse: Result<seq<string>, HttpError>,
                          useDefaults: bool, defaults: seq<string>, stored: StoredOptions, answers: Answers,
                          server: Server)
    requires useDefaults ==> ValidExportItems(defaults)
    requires !useDefaults ==> ValidExportItems(answers.exportItems)
    requires playlistId != WatchLaterId
    requires apiKey == None || apiKey == Some(Str(""))
    ensures var step := Decide(playlistId, apiKey, itemsResponse, playlistsResponse, useDefaults, defaults, stored, answers, server);
      step == NoApiKey && OutcomeOf(step) == Resolved(false) && NoticesOf(step) == [MissingKeyWarning]
  {
  }

  /**
   * A metadata failure is reported once through `handleApiError` and the handler
   * resolves to false without fetching data; an unstructured error makes it reject.
   */
  lemma MetadataFailureStops(playlistId: string, apiKey: Option<Json>,
                             itemsResponse: Result<nat, HttpError>, playlistsResponse: Result<seq<string>, HttpError>,
                             useDefaults: bool, defaults: seq<string>, stored: StoredOptions, answers: Answers,
                             server: Server)
    requires useDefaults ==> ValidExportItems(defaults)
    requires !useDefaults ==> ValidExportItems(answers.exportItems)
    requires playlistId != WatchLaterId && TruthyOrUndefined(apiKey)
    requires PlaylistMetadata(itemsResponse, playlistsResponse).Failure?
    ensures var e := PlaylistMetadata(itemsResponse, playlistsResponse).error;
            var step := Decide(playlistId, apiKey, itemsResponse, playlistsResponse, useDefaults, defaults, stored, answers, server);
      && step == MetadataFailed(e)
      && !Fetched(step)
      && (e.Details? ==> OutcomeOf(step) == Resolved(false) && NoticesOf(step) == [ApiErrorNotice(HandleApiError(e).value)])
      && (e.Unstructured? ==> OutcomeOf(step) == Unhandled)
  {
  }

  /** An empty playlist resolves to false without fetching data or saving. */
  lemma EmptyPlaylistStops(playlistId: string, apiKey: Option<Json>,
                           itemsResponse: Result<nat, HttpError>, playlistsResponse: Result<seq<string>, HttpError>,
                           useDefaults: bool, defaults: seq<string>, stored: StoredOptions, answers: Answers,
                           server: Server)
    requires useDefaults ==> ValidExportItems(defaults)
    requires !useDefaults ==> ValidExportItems(answers.exportItems)
    requires playlistId != WatchLaterId && TruthyOrUndefined(apiKey)
    requires PlaylistMetadata(itemsResponse, playlistsResponse).Success?
    requires PlaylistMetadata(itemsResponse, playlistsResponse).value.numOfVideos == 0
    ensures var step := Decide(playlistId, apiKey, itemsResponse, playlistsResponse, useDefaults, defaults, stored, answers, server);
      step == EmptyPlaylist && OutcomeOf(step) == Resolved(false) && !Fetched(step)
  {
  }

  /**
   * Past the checks, the data is fetched for the chosen export items and the
   * metadata's video count: a failure resolves to false (or rejects) and nothing
   * is saved; a success is saved with the chosen file options and the playlist
   * title, and the handler resolves to true. `--default` takes the items from the
   * settings' defaults and the file options from the settings; otherwise all
   * three come from the prompt.
   */
  lemma FetchThenSave(playlistId: string, apiKey: Option<Json>,
                      itemsResponse: Result<nat, HttpError>, playlistsResponse: Result<seq<string>, HttpError>,
                      useDefaults: bool, defaults: seq<string>, stored: StoredOptions, answers: Answers,
                      server: Server)
    requires useDefaults ==> ValidExportItems(defaults)
    requires !useDefaults ==> ValidExportItems(answers.exportItems)
    requires playlistId != WatchLaterId && TruthyOrUndefined(apiKey)
    requires PlaylistMetadata(itemsResponse, playlistsResponse).Success?
    requires PlaylistMetadata(itemsResponse, playlistsResponse).value.numOfVideos > 0
    ensures var metadata := PlaylistMetadata(itemsResponse, playlistsResponse).value;
            var exportItems := if useDefaults then defaults else answers.exportItems;
            var fetched := GetPlaylistDataResult(server, playlistId, exportItems, metadata.numOfVideos, stored.skipPrivateOrDeleted);
            var step := Decide(playlistId, apiKey, itemsResponse, playlistsResponse, useDefaults, defaults, stored, answers, server);
      && Fetched(step)
      && step.exportItems == exportItems
      && step.numOfVideos == metadata.numOfVideos
      && (fetched.Failure? ==> step == DataFailed(exportItems, metadata.numOfVideos, fetched.error)
                               && OutcomeOf(step) != Resolved(true))
      && (fetched.Success? ==>
            && step.Saved?
            && step.data == fetched.value
            && step.saveOptions.playlistTitle == metadata.title
            && (useDefaults ==> step.saveOptions.fileExt == stored.fileExt && step.saveOptions.folderPath == stored.folderPath)
            && (!useDefaults ==> step.saveOptions.fileExt == answers.fileExt && step.saveOptions.folderPath == answers.folderPath)
            && OutcomeOf(step) == Resolved(true))
  {
  }
}
