/**
 * Export file naming and the save sequence of utils/saveFile.js.
 *
 * The file system is a set of directories and a map from file paths to what was
 * written there; which `mkdirSync` and `writeFileSync` calls fail is fixed by two
 * sets of paths. The serialised text is not modelled: a file holds the chosen
 * format and the entries it was produced from. The clock is the ISO timestamp
 * `new Date().toISOString()` would return, passed in.
 */
module FileExport {
  import opened JsonValues

  // ---------------------------------------------------------------------
  // File name sanitisation
  // ---------------------------------------------------------------------

  /** The characters `/[<>:"/\\|?*]/g` removes. */
  predicate Illegal(c: char) {
    c == '<' || c == '>' || c == ':' || c == '"' || c == '/' || c == '\\' || c == '|' || c == '?' || c == '*'
  }

  /** `name.replace(/[<>:"/\\|?*]/g, "")`. */
  function StripIllegal(s: string): string
    decreases |s|
  {
    if |s| == 0 then ""
    else StripIllegal(s[..|s| - 1]) + (if Illegal(s[|s| - 1]) then "" else [s[|s| - 1]])
  }

  /** The number of illegal characters in `s`. */
  function IllegalCount(s: string): nat
    decreases |s|
  {
    if |s| == 0 then 0
    else IllegalCount(s[..|s| - 1]) + (if Illegal(s[|s| - 1]) then 1 else 0)
  }

  /** `name.replace(/ /g, "_")`: every space becomes one underscore, every other character stays where it is. */
  function SpacesToUnderscores(s: string): (r: string)
    ensures |r| == |s|
    ensures forall i :: 0 <= i < |s| ==> r[i] == (if s[i] == ' ' then '_' else s[i])
    decreases |s|
  {
    if |s| == 0 then ""
    else SpacesToUnderscores(s[..|s| - 1]) + [if s[|s| - 1] == ' ' then '_' else s[|s| - 1]]
  }

  /** The file name part of `getExportFileName`: illegal characters removed, then spaces replaced. */
  function SanitizedName(fileName: string): string {
    SpacesToUnderscores(StripIllegal(fileName))
  }

  predicate NoIllegalChars(s: string) {
    forall i :: 0 <= i < |s| ==> !Illegal(s[i])
  }

  /** Stripping works character by character: the kept characters stay in order. */
  lemma {:induction false} StripIllegalAppend(a: string, b: string)
    ensures StripIllegal(a + b) == StripIllegal(a) + StripIllegal(b)
    decreases |b|
  {
    if |b| == 0 {
      assert a + b == a;
    } else {
      var ab := a + b;
      assert ab[..|ab| - 1] == a + b[..|b| - 1];
      assert ab[|ab| - 1] == b[|b| - 1];
      StripIllegalAppend(a, b[..|b| - 1]);
    }
  }

  /** The stripped name holds no illegal character and is shorter by exactly the number removed. */
  lemma {:induction false} StripIllegalSpec(s: string)
    ensures NoIllegalChars(StripIllegal(s))
    ensures |StripIllegal(s)| == |s| - IllegalCount(s)
    decreases |s|
  {
    if |s| > 0 {
      StripIllegalSpec(s[..|s| - 1]);
    }
  }

  /** A name with no illegal character is left as it is. */
  lemma {:induction false} StripIllegalKeepsLegal(s: string)
    requires NoIllegalChars(s)
    ensures StripIllegal(s) == s
    decreases |s|
  {
    if |s| > 0 {
      StripIllegalKeepsLegal(s[..|s| - 1]);
      assert s[..|s| - 1] + [s[|s| - 1]] == s;
    }
  }

  /** The sanitised name holds neither illegal characters nor spaces. */
  lemma SanitizedNameIsClean(fileName: string)
    ensures NoIllegalChars(SanitizedName(fileName))
    ensures forall i :: 0 <= i < |SanitizedName(fileName)| ==> SanitizedName(fileName)[i] != ' '
  {
    StripIllegalSpec(fileName);
    var stripped := StripIllegal(fileName);
    assert forall i :: 0 <= i < |stripped| ==> !Illegal(stripped[i]);
  }

  /** The sanitised name is as long as the input less its illegal characters. */
  lemma SanitizedNameLength(fileName: string)
    ensures |SanitizedName(fileName)| == |fileName| - IllegalCount(fileName)
  {
    StripIllegalSpec(fileName);
  }

  /** Sanitising twice changes nothing more. */
  lemma SanitizeIdempotent(fileName: string)
    ensures SanitizedName(SanitizedName(fileName)) == SanitizedName(fileName)
  {
    var once := SanitizedName(fileName);
    SanitizedNameIsClean(fileName);
    StripIllegalKeepsLegal(once);
    assert SpacesToUnderscores(once) == once;
  }

  lemma StripHelloColon()
    ensures StripIllegal("Hello:") == "Hello"
  {
    StripIllegalStep("Hello:", 5);
    assert "Hello:"[..5] == "Hello";
    StripIllegalKeepsLegal("Hello");
  }

  lemma StripHelloColonWorld()
    ensures StripIllegal("Hello: World") == "Hello World"
  {
    assert "Hello:" + " World" == "Hello: World";
    StripIllegalAppend("Hello:", " World");
    StripHelloColon();
    StripIllegalKeepsLegal(" World");
    assert "Hello" + " World" == "Hello World";
  }

  lemma SanitizeColonAndSpace()
    ensures SanitizedName("Hello: World") == "Hello_World"
  {
    StripHelloColonWorld();
    assert SpacesToUnderscores("Hello World") == "Hello_World";
  }

  lemma SanitizeSpace()
    ensures SanitizedName("Lorem Ipsum") == "Lorem_Ipsum"
  {
    StripIllegalKeepsLegal("Lorem Ipsum");
    assert SpacesToUnderscores("Lorem Ipsum") == "Lorem_Ipsum";
  }

  /** Stripping a prefix one character longer adds that character when it is legal. */
  lemma StripIllegalStep(s: string, k: nat)
    requires k < |s|
    ensures StripIllegal(s[..k + 1]) == StripIllegal(s[..k]) + (if Illegal(s[k]) then "" else [s[k]])
  {
    assert s[..k + 1][..k] == s[..k];
  }

  lemma SanitizeEveryIllegalChar()
    ensures SanitizedName("<\"a\">:b/\\c|d?e*") == "abcde"
  {
    assert "<\"a\">" + ":b/\\" == "<\"a\">:b/\\";
    assert "<\"a\">:b/\\" + "c|d?e*" == "<\"a\">:b/\\c|d?e*";
    StripIllegalAppend("<\"a\">", ":b/\\");
    StripIllegalAppend("<\"a\">:b/\\", "c|d?e*");
    StripQuotedA();
    StripColonBSlashes();
    StripCDE();
    assert "a" + "b" + "cde" == "abcde";
  }

  lemma StripQuotedA()
    ensures StripIllegal("<\"a\">") == "a"
  {
    var s := "<\"a\">";
    assert s[..0] == "";
    StripIllegalStep(s, 0);
    StripIllegalStep(s, 1);
    StripIllegalStep(s, 2);
    StripIllegalStep(s, 3);
    StripIllegalStep(s, 4);
    assert s[..5] == s;
  }

  lemma StripColonBSlashes()
    ensures StripIllegal(":b/\\") == "b"
  {
    var s := ":b/\\";
    assert s[..0] == "";
    StripIllegalStep(s, 0);
    StripIllegalStep(s, 1);
    StripIllegalStep(s, 2);
    StripIllegalStep(s, 3);
    assert s[..4] == s;
  }

  lemma StripCDE()
    ensures StripIllegal("c|d?e*") == "cde"
  {
    var s := "c|d?e*";
    assert s[..0] == "";
    StripIllegalStep(s, 0);
    StripIllegalStep(s, 1);
    StripIllegalStep(s, 2);
    StripIllegalStep(s, 3);
    StripIllegalStep(s, 4);
    StripIllegalStep(s, 5);
    assert s[..6] == s;
  }

  // ---------------------------------------------------------------------
  // getExportFileName
  // ---------------------------------------------------------------------

  /** `toISOString().substring(0, 10)`: the YYYY-MM-DD part of the timestamp. */
  function DateText(isoTimestamp: string): (date: string)
    ensures |isoTimestamp| >= 10 ==> |date| == 10
    ensures |date| <= |isoTimestamp| && isoTimestamp == date + isoTimestamp[|date|..]
  {
    if |isoTimestamp| >= 10 then isoTimestamp[..10] else isoTimestamp
  }

  /** `getExportFileName(fileName, fileExt, addDate)` at the moment `isoNow`. */
  function ExportFileName(fileName: string, fileExt: string, addDate: bool, isoNow: string): string {
    var name := SanitizedName(fileName);
    if addDate then DateText(isoNow) + "-" + name + "." + fileExt
    else name + "." + fileExt
  }

  /**
   * With the date, the file name reads: ten date characters, a dash, the
   * sanitised name, a dot and the extension; without it, the name, a dot and the
   * extension. The sanitised part is all that comes from the title.
   */
  lemma ExportFileNameLayout(fileName: string, fileExt: string, addDate: bool, isoNow: string)
    requires |isoNow| >= 10
    ensures var r := ExportFileName(fileName, fileExt, addDate, isoNow);
            var name := SanitizedName(fileName);
            var start := if addDate then 11 else 0;
      && |r| == start + |name| + 1 + |fileExt|
      && (addDate ==> r[..10] == isoNow[..10] && r[10] == '-')
      && r[start..start + |name|] == name
      && r[start + |name|] == '.'
      && r[start + |name| + 1..] == fileExt
  {
  }

  lemma ExportFileNameExample()
    ensures ExportFileName("Hello: World", "json", true, "2021-09-16T08:30:00.000Z") == "2021-09-16-Hello_World.json"
  {
    SanitizeColonAndSpace();
  }

  // ---------------------------------------------------------------------
  // The file system
  // ---------------------------------------------------------------------

  /** The serialiser `saveFile` picks. */
  datatype Format = Csv | JsonText

  /** The `switch (fileExt)`: "csv" selects json2csv, everything else (including "json") `JSON.stringify`. */
  function FormatFor(fileExt: string): (format: Format)
    ensures format == Csv <==> fileExt == "csv"
  {
    if fileExt == "csv" then Csv else JsonText
  }

  /** What a written file holds: the serialisation of `data` in `format`. */
  datatype Payload = Payload(format: Format, data: seq<Json>)

  /** `path.join(folder, name)` for a relative file name, without normalisation. */
  function Join(folder: string, name: string): (path: string)
    ensures folder == "" ==> path == name
    ensures folder != "" ==> |path| >= |folder| + |name| && path[..|folder|] == folder
  {
    if folder == "" then name
    else if folder[|folder| - 1] == '/' then folder + name
    else folder + "/" + name
  }

  /** The directories and files present. */
  datatype Disk = Disk(dirs: set<string>, files: map<string, Payload>)

  /** `fs.existsSync(path)`: a directory or a file is there. */
  function Exists(disk: Disk, path: string): bool {
    path in disk.dirs || path in disk.files
  }

  class FileSystem {
    var dirs: set<string>
    var files: map<string, Payload>
    /** Paths whose `mkdirSync` throws. */
    const mkdirFailures: set<string>
    /** Paths whose `writeFileSync` throws. */
    const writeFailures: set<string>

    function Current(): Disk
      reads this
    {
      Disk(dirs, files)
    }

    constructor (dirs0: set<string>, files0: map<string, Payload>, mkdirFailures0: set<string>, writeFailures0: set<string>)
      ensures dirs == dirs0 && files == files0
      ensures mkdirFailures == mkdirFailures0 && writeFailures == writeFailures0
    {
      dirs := dirs0;
      files := files0;
      mkdirFailures := mkdirFailures0;
      writeFailures := writeFailures0;
    }

    /** `fs.existsSync(path)`. */
    function ExistsSync(path: string): (present: bool)
      reads this
      ensures present == Exists(Current(), path)
    {
      path in dirs || path in files
    }

    /** `fs.mkdirSync(path, { recursive: true })`: creates the directory, or throws (`ok` false) and changes nothing. */
    method MkdirSync(path: string) returns (ok: bool)
      modifies this
      ensures ok == (path !in mkdirFailures)
      ensures dirs == if ok then old(dirs) + {path} else old(dirs)
      ensures files == old(files)
    {
      ok := path !in mkdirFailures;
      if ok {
        dirs := dirs + {path};
      }
    }

    /** `fs.writeFileSync(path, output)`: stores the payload under `path`, or throws (`ok` false) and changes nothing. */
    method WriteFileSync(path: string, output: Payload) returns (ok: bool)
      modifies this
      ensures ok == (path !in writeFailures)
      ensures files == if ok then old(files)[path := output] else old(files)
      ensures dirs == old(dirs)
    {
      ok := path !in writeFailures;
      if ok {
        files := files[path := output];
      }
    }
  }

  // ---------------------------------------------------------------------
  // saveFile
  // ---------------------------------------------------------------------

  datatype SaveOptions = SaveOptions(fileExt: string, folderPath: string, playlistTitle: string)

  /** The messages `saveFile` prints, by kind. */
  datatype SaveMessage =
    | CreatedFolder(folder: string)
    | FolderError(folder: string)
    | WriteError(filePath: string)
    | Exported(filePath: string)

  /** Where `saveFile` writes: the folder joined with the dated export file name. */
  function TargetPath(options: SaveOptions, isoNow: string): string {
    Join(options.folderPath, ExportFileName(options.playlistTitle, options.fileExt, true, isoNow))
  }

  /** The disk after `saveFile` and the messages it printed. */
  datatype SaveRun = SaveRun(disk: Disk, log: seq<SaveMessage>)

  /** What `saveFile(playlistData, options)` does to `disk`, given which calls fail. */
  function SaveOutcome(disk: Disk, mkdirFailures: set<string>, writeFailures: set<string>,
                       playlistData: seq<Json>, options: SaveOptions, isoNow: string): SaveRun
  {
    var folder := options.folderPath;
    var output := Payload(FormatFor(options.fileExt), playlistData);
    var target := TargetPath(options, isoNow);
    if !Exists(disk, folder) && folder in mkdirFailures then
      SaveRun(disk, [FolderError(folder)])
    else
      var created := if Exists(disk, folder) then [] else [CreatedFolder(folder)];
      var dirs := if Exists(disk, folder) then disk.dirs else disk.dirs + {folder};
      if target in writeFailures then SaveRun(Disk(dirs, disk.files), created + [WriteError(target)])
      else SaveRun(Disk(dirs, disk.files[target := output]), created + [Exported(target)])
  }

  /** `saveFile(playlistData, options)`: serialise, create the folder if missing, write, with an early return on each failure. */
  method SaveFile(fs: FileSystem, playlistData: seq<Json>, options: SaveOptions, isoNow: string)
    returns (log: seq<SaveMessage>)
    modifies fs
    ensures SaveRun(fs.Current(), log)
            == SaveOutcome(old(fs.Current()), fs.mkdirFailures, fs.writeFailures, playlistData, options, isoNow)
  {
    var output: Payload;
    if options.fileExt == "csv" {
      output := Payload(Csv, playlistData);
    } else {
      output := Payload(JsonText, playlistData);
    }
    log := [];
    if !fs.ExistsSync(options.folderPath) {
      var made := fs.MkdirSync(options.folderPath);
      if !made {
        log := log + [FolderError(options.folderPath)];
        return;
      }
      log := log + [CreatedFolder(options.folderPath)];
    }
    var filePath := Join(options.folderPath, ExportFileName(options.playlistTitle, options.fileExt, true, isoNow));
    var written := fs.WriteFileSync(filePath, output);
    if !written {
      log := log + [WriteError(filePath)];
      return;
    }
    log := log + [Exported(filePath)];
  }

  /** The folder is created only when it is missing, and an existing folder is left as it is. */
  lemma FolderCreatedOnlyIfMissing(disk: Disk, mkdirFailures: set<string>, writeFailures: set<string>,
                                   playlistData: seq<Json>, options: SaveOptions, isoNow: string)
    ensures var run := SaveOutcome(disk, mkdirFailures, writeFailures, playlistData, options, isoNow);
      && (Exists(disk, options.folderPath) ==>
            run.disk.dirs == disk.dirs
            && CreatedFolder(options.folderPath) !in run.log
            && FolderError(options.folderPath) !in run.log)
      && (!Exists(disk, options.folderPath) && options.folderPath !in mkdirFailures ==>
            run.disk.dirs == disk.dirs + {options.folderPath} && run.log[0] == CreatedFolder(options.folderPath))
  {
  }

  /** When the folder cannot be created nothing is written and only the folder error is reported. */
  lemma FolderFailureWritesNothing(disk: Disk, mkdirFailures: set<string>, writeFailures: set<string>,
                                   playlistData: seq<Json>, options: SaveOptions, isoNow: string)
    requires !Exists(disk, options.folderPath) && options.folderPath in mkdirFailures
    ensures SaveOutcome(disk, mkdirFailures, writeFailures, playlistData, options, isoNow)
            == SaveRun(disk, [FolderError(options.folderPath)])
  {
  }

  /**
   * Once the folder is there, exactly one file is written, at the folder joined
   * with the dated name, holding the entries in the format the extension selects;
   * the success message names that path, and appears only when the write succeeded.
   */
  lemma WriteGoesToTarget(disk: Disk, mkdirFailures: set<string>, writeFailures: set<string>,
                          playlistData: seq<Json>, options: SaveOptions, isoNow: string)
    requires Exists(disk, options.folderPath) || options.folderPath !in mkdirFailures
    ensures var run := SaveOutcome(disk, mkdirFailures, writeFailures, playlistData, options, isoNow);
            var target := Join(options.folderPath, ExportFileName(options.playlistTitle, options.fileExt, true, isoNow));
      && |run.log| > 0
      && (target !in writeFailures ==>
            run.disk.files == disk.files[target := Payload(FormatFor(options.fileExt), playlistData)]
            && run.log[|run.log| - 1] == Exported(target))
      && (target in writeFailures ==>
            run.disk.files == disk.files && run.log[|run.log| - 1] == WriteError(target)
            && forall m :: m in run.log ==> !m.Exported?)
  {
  }

  /** Whatever happens, no file other than the target changes. */
  lemma OnlyTargetChanges(disk: Disk, mkdirFailures: set<string>, writeFailures: set<string>,
                          playlistData: seq<Json>, options: SaveOptions, isoNow: string, path: string)
    requires path != TargetPath(options, isoNow)
    ensures var run := SaveOutcome(disk, mkdirFailures, writeFailures, playlistData, options, isoNow);
      (path in run.disk.files <==> path in disk.files)
      && (path in disk.files ==> run.disk.files[path] == disk.files[path])
  {
  }
}
