/**
 * `Program.Main`: load the configuration, set up the logger and the optional
 * SFTP uploader, scan the folder, then for each scanned file extract, search,
 * log and possibly upload, an exception in one file's processing logged as
 * "Error" without stopping the run.
 */
module Orchestration {
  import opened Strings
  import opened Outcomes
  import opened MatchEngine
  import opened Extraction

  /** The settings of `config.json` that the run reads. */
  datatype Config = Config(
    folderPath: string,
    keywords: seq<string>,
    regexPatterns: seq<RegexRule>,
    searchMode: string,
    supportedExtensions: seq<string>,
    logDirectory: string,
    enableSftp: bool)

  const DefaultSearchMode: string := "both"
  const DefaultEnableSftp: bool := false

  /** A configuration file that sets nothing: every property keeps its initial value. */
  const DefaultConfig: Config := Config("", [], [], DefaultSearchMode, [], "", DefaultEnableSftp)

  /**
   * Everything outside the program: the recursive listing `Directory.GetFiles`
   * returns for a folder (or throws), what the decoders yield for each file,
   * the regex engine, whether an SFTP transfer of a path succeeds, and
   * `Environment.NewLine`.
   */
  datatype Environment = Environment(
    directory: string -> Outcome<seq<string>>,
    files: string -> DecodedFile,
    engine: RegexEngine,
    transfer: string -> bool,
    newLine: string)

  /** A line of the general log (`Log`) or of the match report (`LogMatch`); timestamps are not modelled. */
  datatype LogEntry =
    | Status(path: string, status: string)
    | MatchReport(path: string, word: string, fileType: string, source: string, ocrStatus: string)

  /** How the run ends: configuration missing, an uncaught exception before the file loop, or the loop completed. */
  datatype RunEnd = NoConfiguration | Crashed | Completed

  datatype RunResult = RunResult(end: RunEnd, log: seq<LogEntry>, uploads: seq<string>)

  // ---------------------------------------------------------------------
  // The services, as objects with state
  // ---------------------------------------------------------------------

  /** `Logger`: the entries appended to its two files, in call order. */
  class Logger {
    const logDirectory: string
    var entries: seq<LogEntry>

    /** The constructor throws `ArgumentNullException` for an empty directory; `Run` stops before calling it then. */
    constructor (logDirectory: string)
      requires logDirectory != ""
      ensures this.logDirectory == logDirectory && entries == []
    {
      this.logDirectory := logDirectory;
      entries := [];
    }

    method Log(filePath: string, status: string)
      modifies this
      ensures entries == old(entries) + [Status(filePath, status)]
    {
      entries := entries + [Status(filePath, status)];
    }

    method LogMatch(filePath: string, matchingWord: string, fileType: string, matchSource: string, ocrStatus: string)
      modifies this
      ensures entries == old(entries) + [MatchReport(filePath, matchingWord, fileType, matchSource, ocrStatus)]
    {
      entries := entries + [MatchReport(filePath, matchingWord, fileType, matchSource, ocrStatus)];
    }
  }

  /** `SftpUploader`: the paths it was asked to upload, in call order. */
  class SftpUploader {
    const transfer: string -> bool
    var requests: seq<string>

    constructor (transfer: string -> bool)
      ensures this.transfer == transfer && requests == []
    {
      this.transfer := transfer;
      requests := [];
    }

    /**
     * `UploadFile`: `ok` is false exactly when the call throws, either for an
     * empty path or because connecting or transferring failed.
     */
    method UploadFile(filePath: string) returns (ok: bool)
      modifies this
      ensures requests == old(requests) + [filePath]
      ensures ok <==> filePath != "" && transfer(filePath)
    {
      requests := requests + [filePath];
      if filePath == "" {
        return false;
      }
      ok := transfer(filePath);
    }
  }

  // ---------------------------------------------------------------------
  // Specification of the run
  // ---------------------------------------------------------------------

  /** What searching a file's extracted text yields. */
  function Found(config: Config, env: Environment, file: string): Result<seq<MatchRecord>> {
    var content := ExtractedText(file, env.files(file), env.newLine);
    Search(content, config.regexPatterns, config.keywords, config.searchMode, env.engine)
  }

  /** One match-report entry per match, in match order, with the extension as file type and "N/A" as OCR status. */
  function Reports(file: string, matches: seq<MatchRecord>): (r: seq<LogEntry>)
    ensures |r| == |matches|
  {
    seq(|matches|, i requires 0 <= i < |matches| =>
      MatchReport(file, matches[i].value, GetExtension(file), matches[i].source, "N/A"))
  }

  function UploadFails(env: Environment, file: string): bool {
    file == "" || !env.transfer(file)
  }

  /** The entries one iteration of the file loop appends, given what the search yielded. */
  function OutcomeEvents(config: Config, env: Environment, file: string, found: Result<seq<MatchRecord>>): seq<LogEntry> {
    match found
    case Failure(_) => [Status(file, "Error")]
    case Success(matches) =>
      if |matches| > 0 then
        Reports(file, matches) + [Status(file, "Match Found")]
        + (if config.enableSftp && UploadFails(env, file) then [Status(file, "Error")] else [])
      else [Status(file, "No Match")]
  }

  /** The uploads one iteration of the file loop asks for, given what the search yielded. */
  function OutcomeUploads(config: Config, file: string, found: Result<seq<MatchRecord>>): seq<string> {
    match found
    case Failure(_) => []
    case Success(matches) => if |matches| > 0 && config.enableSftp then [file] else []
  }

  function FileEvents(config: Config, env: Environment, file: string): seq<LogEntry> {
    OutcomeEvents(config, env, file, Found(config, env, file))
  }

  function FileUploads(config: Config, env: Environment, file: string): seq<string> {
    OutcomeUploads(config, file, Found(config, env, file))
  }

  function EventsOf(config: Config, env: Environment): string -> seq<LogEntry> {
    file => FileEvents(config, env, file)
  }

  function UploadsOf(config: Config, env: Environment): string -> seq<string> {
    file => FileUploads(config, env, file)
  }

  /** `events` and `uploads` give, for every file, what one iteration of the file loop logs and uploads. */
  ghost predicate PerFile(config: Config, env: Environment, events: string -> seq<LogEntry>, uploads: string -> seq<string>) {
    && (forall f {:trigger FileEvents(config, env, f)} :: events(f) == FileEvents(config, env, f))
    && (forall f {:trigger FileUploads(config, env, f)} :: uploads(f) == FileUploads(config, env, f))
  }

  /** The log entries of the file loop. */
  function LoopEvents(config: Config, env: Environment, files: seq<string>): seq<LogEntry> {
    ConcatMap(files, EventsOf(config, env))
  }

  /** The uploads of the file loop. */
  function LoopUploads(config: Config, env: Environment, files: seq<string>): seq<string> {
    ConcatMap(files, UploadsOf(config, env))
  }

  /** The files the loop visits, or `Threw` when `Directory.GetFiles` throws. */
  function Scanned(config: Config, env: Environment): Outcome<seq<string>> {
    match env.directory(config.folderPath)
    case Threw => Threw
    case Decoded(listing) => Decoded(ScanFiles(listing, config.supportedExtensions))
  }

  /** The whole run: how it ends, the log it leaves and the uploads it asks for. */
  function RunSpec(config: Option<Config>, env: Environment): RunResult {
    match config
    case None => RunResult(NoConfiguration, [], [])
    case Some(c) =>
      if c.logDirectory == "" then RunResult(Crashed, [], [])
      else
        match Scanned(c, env)
        case Threw => RunResult(Crashed, [], [])
        case Decoded(files) => RunResult(Completed, LoopEvents(c, env, files), LoopUploads(c, env, files))
  }

  // ---------------------------------------------------------------------
  // The run
  // ---------------------------------------------------------------------

  /** `Program.Main` after `LoadConfiguration`, which yields `config` (`None` for a missing file). */
  method Run(config: Option<Config>, env: Environment) returns (end: RunEnd, log: seq<LogEntry>, uploads: seq<string>)
    ensures RunResult(end, log, uploads) == RunSpec(config, env)
  {
    if config.None? {
      return NoConfiguration, [], [];
    }
    var c := config.value;
    if c.logDirectory == "" {
      return Crashed, [], [];
    }
    var logger := new Logger(c.logDirectory);
    var sftpUploader: SftpUploader? := null;
    if c.enableSftp {
      sftpUploader := new SftpUploader(env.transfer);
    }
    var listing := env.directory(c.folderPath);
    if listing.Threw? {
      return Crashed, [], [];
    }
    var files := ScanFiles(listing.value, c.supportedExtensions);
    ProcessFiles(c, env, files, logger, sftpUploader, EventsOf(c, env), UploadsOf(c, env));
    if sftpUploader == null {
      NothingUploadedWithoutSftp(c, env, files);
    }
    end, log := Completed, logger.entries;
    uploads := if sftpUploader == null then [] else sftpUploader.requests;
  }

  /**
   * The `foreach` over the scanned files. The ghost `events` and `uploads`
   * are `EventsOf(c, env)` and `UploadsOf(c, env)` (that is what `Run`
   * passes), so the postconditions say `LoopEvents` and `LoopUploads`; they
   * are parameters only so that the proof of the loop does not unfold what
   * extraction and search compute for each file.
   */
  method ProcessFiles(c: Config, env: Environment, files: seq<string>, logger: Logger, sftpUploader: SftpUploader?,
                      ghost events: string -> seq<LogEntry>, ghost uploads: string -> seq<string>)
    requires c.enableSftp <==> sftpUploader != null
    requires sftpUploader != null ==> sftpUploader.transfer == env.transfer
    requires PerFile(c, env, events, uploads)
    modifies logger, sftpUploader
    ensures logger.entries == old(logger.entries) + ConcatMap(files, events)
    ensures sftpUploader != null ==> sftpUploader.requests == old(sftpUploader.requests) + ConcatMap(files, uploads)
  {
    var i := 0;
    while i < |files|
      invariant 0 <= i <= |files|
      invariant logger.entries == old(logger.entries) + ConcatMap(files[..i], events)
      invariant sftpUploader != null ==> sftpUploader.requests == old(sftpUploader.requests) + ConcatMap(files[..i], uploads)
    {
      assert files[..i + 1][..i] == files[..i];
      ProcessFile(c, env, files[i], logger, sftpUploader, events, uploads);
      i := i + 1;
    }
    assert files[..i] == files;
  }

  /** The body of the file loop, its try/catch included; `events` and `uploads` as in `ProcessFiles`. */
  method ProcessFile(c: Config, env: Environment, file: string, logger: Logger, sftpUploader: SftpUploader?,
                     ghost events: string -> seq<LogEntry>, ghost uploads: string -> seq<string>)
    requires c.enableSftp <==> sftpUploader != null
    requires sftpUploader != null ==> sftpUploader.transfer == env.transfer
    requires PerFile(c, env, events, uploads)
    modifies logger, sftpUploader
    ensures logger.entries == old(logger.entries) + events(file)
    ensures sftpUploader != null ==> sftpUploader.requests == old(sftpUploader.requests) + uploads(file)
  {
    var content := ExtractContent(file, env.files(file), env.newLine);
    var matches := SearchContent(content, c.regexPatterns, c.keywords, c.searchMode, env.engine);
    assert matches == Found(c, env, file);
    assert events(file) == FileEvents(c, env, file) && uploads(file) == FileUploads(c, env, file);
    LogOutcome(c, env, file, matches, logger, sftpUploader);
  }

  /** What the loop body does once the search has returned or thrown. */
  method LogOutcome(c: Config, env: Environment, file: string, matches: Result<seq<MatchRecord>>,
                    logger: Logger, sftpUploader: SftpUploader?)
    requires c.enableSftp <==> sftpUploader != null
    requires sftpUploader != null ==> sftpUploader.transfer == env.transfer
    modifies logger, sftpUploader
    ensures logger.entries == old(logger.entries) + OutcomeEvents(c, env, file, matches)
    ensures sftpUploader != null ==> sftpUploader.requests == old(sftpUploader.requests) + OutcomeUploads(c, file, matches)
    ensures sftpUploader == null ==> OutcomeUploads(c, file, matches) == []
  {
    if matches.Failure? {
      logger.Log(file, "Error");
      return;
    }
    var found := matches.value;
    if |found| > 0 {
      var m := 0;
      while m < |found|
        invariant 0 <= m <= |found|
        invariant logger.entries == old(logger.entries) + Reports(file, found)[..m]
        invariant sftpUploader != null ==> sftpUploader.requests == old(sftpUploader.requests)
      {
        assert Reports(file, found)[..m + 1] == Reports(file, found)[..m] + [Reports(file, found)[m]];
        logger.LogMatch(file, found[m].value, GetExtension(file), found[m].source, "N/A");
        m := m + 1;
      }
      assert Reports(file, found)[..m] == Reports(file, found);
      logger.Log(file, "Match Found");
      if c.enableSftp && sftpUploader != null {
        var ok := sftpUploader.UploadFile(file);
        if !ok {
          // the exception UploadFile rethrows reaches the loop's catch
          logger.Log(file, "Error");
        }
      }
    } else {
      logger.Log(file, "No Match");
    }
  }

  // ---------------------------------------------------------------------
  // Properties
  // ---------------------------------------------------------------------

  /**
   * Files are processed independently and in scan order: the loop over
   * `a + b` logs and uploads what the loop over `a` does, then what the loop
   * over `b` does, whatever happened in `a`.
   */
  lemma LoopAppend(config: Config, env: Environment, a: seq<string>, b: seq<string>)
    ensures LoopEvents(config, env, a + b) == LoopEvents(config, env, a) + LoopEvents(config, env, b)
    ensures LoopUploads(config, env, a + b) == LoopUploads(config, env, a) + LoopUploads(config, env, b)
  {
    ConcatMapAppend(a, b, EventsOf(config, env));
    ConcatMapAppend(a, b, UploadsOf(config, env));
  }

  /**
   * What one file leaves in the log, whatever the search yielded: entries
   * about that file only; the match reports, then "Match Found", when the
   * search found something; "No Match" when it found nothing; "Error" when
   * the search threw or the upload failed.
   */
  lemma OutcomeEventsShape(config: Config, env: Environment, file: string, found: Result<seq<MatchRecord>>)
    ensures var ev := OutcomeEvents(config, env, file, found);
            ev != [] && forall k :: 0 <= k < |ev| ==> ev[k].path == file
    ensures var ev := OutcomeEvents(config, env, file, found);
            (Status(file, "Match Found") in ev <==> found.Success? && found.value != [])
            && (Status(file, "No Match") in ev <==> found.Success? && found.value == [])
            && (Status(file, "Error") in ev
                <==> found.Failure? || (found.value != [] && config.enableSftp && UploadFails(env, file)))
    ensures var ev := OutcomeEvents(config, env, file, found);
            found.Success? && found.value != [] ==>
              |ev| > |found.value| && ev[..|found.value|] == Reports(file, found.value)
              && ev[|found.value|] == Status(file, "Match Found")
  {
    if found.Success? && found.value != [] {
      var reports := Reports(file, found.value);
      var tail := [Status(file, "Match Found")]
                  + (if config.enableSftp && UploadFails(env, file) then [Status(file, "Error")] else []);
      assert OutcomeEvents(config, env, file, found) == reports + tail;
      assert forall k :: 0 <= k < |reports| ==> reports[k].MatchReport?;
      assert (reports + tail)[..|reports|] == reports;
    }
  }

  /** `OutcomeEventsShape` for what the search of the file's extracted text actually yields. */
  lemma FileEventsShape(config: Config, env: Environment, file: string)
    ensures var ev := FileEvents(config, env, file);
            ev != [] && forall k :: 0 <= k < |ev| ==> ev[k].path == file
    ensures var ev := FileEvents(config, env, file);
            var found := Found(config, env, file);
            (Status(file, "Match Found") in ev <==> found.Success? && found.value != [])
            && (Status(file, "No Match") in ev <==> found.Success? && found.value == [])
            && (Status(file, "Error") in ev
                <==> found.Failure? || (found.value != [] && config.enableSftp && UploadFails(env, file)))
  {
    OutcomeEventsShape(config, env, file, Found(config, env, file));
  }

  /** A file is uploaded exactly when SFTP is enabled and the search found something in it. */
  lemma {:induction false} UploadedIff(config: Config, env: Environment, files: seq<string>, f: string)
    ensures f in LoopUploads(config, env, files)
            <==> f in files && config.enableSftp && Found(config, env, f).Success? && Found(config, env, f).value != []
  {
    if files != [] {
      var n := |files| - 1;
      UploadedIff(config, env, files[..n], f);
      assert files == files[..n] + [files[n]];
    }
  }

  /** With SFTP disabled the run asks for no upload at all. */
  lemma {:induction false} NothingUploadedWithoutSftp(config: Config, env: Environment, files: seq<string>)
    requires !config.enableSftp
    ensures LoopUploads(config, env, files) == []
  {
    if files != [] {
      NothingUploadedWithoutSftp(config, env, files[..|files| - 1]);
    }
  }

  /** Every scanned file gets a status line: "Match Found", "No Match" or "Error". */
  lemma EveryFileGetsStatus(config: Config, env: Environment, files: seq<string>, i: nat)
    requires i < |files|
    ensures var ev := LoopEvents(config, env, files);
            Status(files[i], "Match Found") in ev || Status(files[i], "No Match") in ev || Status(files[i], "Error") in ev
  {
    assert files == files[..i] + [files[i]] + files[i + 1..];
    LoopAppend(config, env, files[..i] + [files[i]], files[i + 1..]);
    LoopAppend(config, env, files[..i], [files[i]]);
    assert [files[i]][..0] == [];
    FileEventsShape(config, env, files[i]);
  }

  /**
   * "Match Found" is logged before the upload is tried, so a failed upload
   * leaves both "Match Found" and, right after it, "Error" for the same file.
   */
  lemma FailedUploadLogsBoth(config: Config, env: Environment, file: string)
    requires Found(config, env, file).Success? && Found(config, env, file).value != []
    requires config.enableSftp && UploadFails(env, file)
    ensures var ev := FileEvents(config, env, file);
            |ev| >= 2 && ev[|ev| - 2] == Status(file, "Match Found") && ev[|ev| - 1] == Status(file, "Error")
  {
  }

  /** A pattern that does not compile, in a mode that runs patterns, turns every file into "Error" and uploads nothing. */
  lemma {:induction false} InvalidPatternFailsEveryFile(config: Config, env: Environment, files: seq<string>, j: nat)
    requires RunsRegex(config.searchMode)
    requires j < |config.regexPatterns| && !env.engine.compiles(config.regexPatterns[j].pattern)
    ensures LoopEvents(config, env, files) == seq(|files|, i requires 0 <= i < |files| => Status(files[i], "Error"))
    ensures LoopUploads(config, env, files) == []
  {
    if files != [] {
      var n := |files| - 1;
      InvalidPatternFailsEveryFile(config, env, files[..n], j);
      assert Found(config, env, files[n]).Failure?;
    }
  }

  /**
   * The run reaches the file loop only with a configuration, a non-empty log
   * directory and a readable folder; otherwise it logs and uploads nothing.
   */
  lemma RunReachesLoop(config: Option<Config>, env: Environment)
    ensures var run := RunSpec(config, env);
            (run.end == Completed <==>
               config.Some? && config.value.logDirectory != "" && env.directory(config.value.folderPath).Decoded?)
            && (run.end == NoConfiguration <==> config.None?)
            && (run.end != Completed ==> run.log == [] && run.uploads == [])
  {
  }

  /** A configuration file that sets no log directory crashes the run before any file is looked at. */
  lemma DefaultConfigurationCrashes(env: Environment)
    ensures RunSpec(Some(DefaultConfig), env) == RunResult(Crashed, [], [])
  {
  }

  /** Every uploaded file was scanned and has a "Match Found" line in the log. */
  lemma {:induction false} UploadsAreLoggedMatches(config: Config, env: Environment, files: seq<string>, f: string)
    requires f in LoopUploads(config, env, files)
    ensures f in files && Status(f, "Match Found") in LoopEvents(config, env, files)
  {
    var n := |files| - 1;
    if f in LoopUploads(config, env, files[..n]) {
      UploadsAreLoggedMatches(config, env, files[..n], f);
    } else {
      assert f == files[n];
      FileEventsShape(config, env, f);
    }
  }

  /**
   * An extraction failure or an unsupported format is never an "Error": the
   * file is searched as "" like any other text. "Error" comes only from a
   * pattern that does not compile or from a failed upload.
   */
  lemma ErrorOnlyFromPatternsOrUpload(config: Config, env: Environment, file: string)
    requires Status(file, "Error") in FileEvents(config, env, file)
    ensures (RunsRegex(config.searchMode)
             && exists j :: 0 <= j < |config.regexPatterns| && !env.engine.compiles(config.regexPatterns[j].pattern))
            || (config.enableSftp && UploadFails(env, file))
  {
    FileEventsShape(config, env, file);
  }
}
