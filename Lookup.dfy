/** LookupModule.run: for each version specifier, reuse or fetch, verify and
    cache the device's firmware image, and report one record per specifier.

    The functions TermStep, Process and LookupSpec say what one iteration and
    the whole call do to the cache directory, which URLs they request and
    what they return; the methods FetchTerm and Run do the same step by step
    and are proved equal to them. */
module Lookup {
  import opened FirmwareTypes
  import opened Strings
  import opened Device
  import opened CacheStore
  import opened Catalog
  import opened Profiles

  type Files = map<string, Bytes>

  const Root := "http://downloads.arednmesh.org/afs/www/"

  function ConfigUrl(): string {
    Root + "config.js"
  }

  function OverviewUrl(versionId: string): string {
    Root + "data/" + versionId + "/overview.json"
  }

  function ProfileUrl(versionId: string, target: string, id: string): string {
    Root + "data/" + versionId + "/" + target + "/" + id + ".json"
  }

  /** What a piece of network work produced: the URLs it requested, in order,
      and its value or the error that ended it. */
  datatype Fetched<T> = Fetched(requests: seq<string>, outcome: Result<T, Error>)

  /** A verified firmware image and the version id it was resolved to. */
  datatype Download = Download(versionId: string, content: Bytes)

  /** Lines 159-186: the overview, its first profile for the board type, the
      profile document, and its first acceptable image. */
  function ResolveImage(env: Env, versionId: string, boardtype: string): Fetched<ImageRef> {
    var ovUrl := OverviewUrl(versionId);
    var ov := env.overview(ovUrl);
    if ov.status != 200 then Fetched([ovUrl], Failure(CannotReadOverview(ovUrl)))
    else match FirstProfile(ov.body.profiles, boardtype)
      case None => Fetched([ovUrl], Failure(FirmwareNotFound(boardtype)))
      case Some(i) =>
        var p := ov.body.profiles[i];
        var pUrl := ProfileUrl(versionId, p.target, p.id);
        var doc := env.profile(pUrl);
        if doc.status != 200 then Fetched([ovUrl, pUrl], Failure(CannotReadProfile(pUrl)))
        else match ImageChoice(doc.body, TargetBase(ov.body.imageUrl, p.target))
          case None => Fetched([ovUrl, pUrl], Failure(FirmwareNotFound(boardtype)))
          case Some(ref) => Fetched([ovUrl, pUrl], Success(ref))
  }

  /** Lines 189-193: the image is accepted only with status 200 and a hex
      digest equal, as a string, to the expected one. */
  function DownloadVerified(env: Env, ref: ImageRef): Result<Bytes, Error> {
    var dl := env.firmware(ref.url);
    if dl.status != 200 then Failure(CannotDownload)
    else if env.sha256(dl.body) != ref.sha256 then Failure(ChecksumFailed)
    else Success(dl.body)
  }

  /** Lines 73-193: the network part of one iteration. */
  function FetchFirmware(env: Env, version: string, boardtype: string): Fetched<Download> {
    if !(MatchesVersionPattern(version) || IsAlias(version)) then
      Fetched([], Failure(UnknownVersion(version)))
    else
      var cfg := env.catalog(ConfigUrl());
      if cfg.status != 200 then Fetched([ConfigUrl()], Failure(CannotFindVersions))
      else match Choose(version, cfg.body)
        case Failure(e) => Fetched([ConfigUrl()], Failure(e))
        case Success(versionId) =>
          var img := ResolveImage(env, versionId, boardtype);
          match img.outcome
          case Failure(e) => Fetched([ConfigUrl()] + img.requests, Failure(e))
          case Success(ref) =>
            var requests := [ConfigUrl()] + img.requests + [ref.url];
            match DownloadVerified(env, ref)
            case Failure(e) => Fetched(requests, Failure(e))
            case Success(data) => Fetched(requests, Success(Download(versionId, data)))
  }

  /** Lines 200-204: the record is computed from the file as stored. */
  function StoredRecord(env: Env, versionId: string, path: string, files: Files): Record
    requires path in files
  {
    Record(versionId, path, env.sha256(files[path]), |files[path]|)
  }

  /** One iteration: the URLs requested, the cache directory after it, the
      value of the Python local version_id after it (None: never assigned),
      and the record or the error. */
  datatype Term = Term(requests: seq<string>, files: Files, lastId: Option<string>, result: Result<Record, Error>)

  /** Lines 71-204 for one specifier. An alias, or a specifier whose file is
      absent, goes to the network; an explicit specifier whose file exists
      does not, and then reports whatever version_id the previous iteration
      left behind. */
  function TermStep(env: Env, board: string, boardtype: string, version: string,
                    files: Files, lastId: Option<string>): Term
  {
    var path := CachePath(version, board, boardtype);
    if IsAlias(version) || path !in files then
      var f := FetchFirmware(env, version, boardtype);
      match f.outcome
      case Failure(e) => Term(f.requests, files, lastId, Failure(e))
      case Success(d) =>
        var stored := files[path := d.content];
        Term(f.requests, stored, Some(d.versionId), Success(StoredRecord(env, d.versionId, path, stored)))
    else if lastId.None? then
      Term([], files, lastId, Failure(VersionIdUnbound))
    else
      Term([], files, lastId, Success(StoredRecord(env, lastId.value, path, files)))
  }

  /** The state of the loop over terms: the cache directory, version_id, the
      list being returned, every URL requested so far, and the error that
      ended the call, if any. */
  datatype Batch = Batch(files: Files, lastId: Option<string>, records: seq<Record>,
                         requests: seq<string>, failure: Option<Error>)

  function Start(files: Files): Batch {
    Batch(files, None, [], [], None)
  }

  /** One turn of the loop; after an error nothing more happens. */
  function Step(env: Env, board: string, boardtype: string, b: Batch, version: string): Batch {
    if b.failure.Some? then b
    else
      var t := TermStep(env, board, boardtype, version, b.files, b.lastId);
      match t.result
      case Failure(e) => Batch(t.files, t.lastId, b.records, b.requests + t.requests, Some(e))
      case Success(rec) => Batch(t.files, t.lastId, b.records + [rec], b.requests + t.requests, None)
  }

  /** The loop over `terms`, in order. */
  function Process(env: Env, board: string, boardtype: string, terms: seq<string>, start: Batch): Batch
    decreases |terms|
  {
    if |terms| == 0 then start
    else Step(env, board, boardtype, Process(env, board, boardtype, terms[..|terms| - 1], start), terms[|terms| - 1])
  }

  /** The whole call: the device facts are read and normalized once, then
      every specifier is processed. */
  function LookupSpec(env: Env, variables: map<string, string>, terms: seq<string>, files: Files): Batch {
    match ReadDevice(variables)
    case Failure(e) => Batch(files, None, [], [], Some(e))
    case Success(device) => Process(env, device.0, NormalizeBoardType(device.1), terms, Start(files))
  }

  /** All records, or the one error; never a partial list. */
  function Outcome(b: Batch): Result<seq<Record>, Error> {
    if b.failure.Some? then Failure(b.failure.value) else Success(b.records)
  }

  /** The network part of one iteration, as the source runs it: the catalog,
      the sort and the choice, the profile scan and the image scan, the
      download and the hash check. */
  method FetchTerm(env: Env, version: string, boardtype: string) returns (fetched: Fetched<Download>)
    ensures fetched == FetchFirmware(env, version, boardtype)
  {
    if !(MatchesVersionPattern(version) || IsAlias(version)) {
      return Fetched([], Failure(UnknownVersion(version)));
    }
    var requests := [ConfigUrl()];
    var resp := env.catalog(ConfigUrl());
    if resp.status != 200 {
      return Fetched(requests, Failure(CannotFindVersions));
    }
    var releases := SortStrings(resp.body);
    var chosen := SelectVersion(version, releases);
    if chosen.Failure? {
      return Fetched(requests, Failure(chosen.error));
    }
    var versionId := chosen.value;

    var ovUrl := OverviewUrl(versionId);
    requests := requests + [ovUrl];
    var ovResp := env.overview(ovUrl);
    if ovResp.status != 200 {
      return Fetched(requests, Failure(CannotReadOverview(ovUrl)));
    }
    var overview := ovResp.body;
    var firmware: Option<ImageRef> := None;
    var found := FindProfile(overview.profiles, boardtype);
    if found.Some? {
      var profile := overview.profiles[found.value];
      var target := TargetBase(overview.imageUrl, profile.target);
      var pUrl := ProfileUrl(versionId, profile.target, profile.id);
      requests := requests + [pUrl];
      var doc := env.profile(pUrl);
      if doc.status != 200 {
        return Fetched(requests, Failure(CannotReadProfile(pUrl)));
      }
      firmware := FindImage(doc.body, target);
    }
    if firmware.None? {
      return Fetched(requests, Failure(FirmwareNotFound(boardtype)));
    }

    var ref := firmware.value;
    requests := requests + [ref.url];
    var dl := env.firmware(ref.url);
    if dl.status != 200 {
      return Fetched(requests, Failure(CannotDownload));
    }
    if env.sha256(dl.body) != ref.sha256 {
      return Fetched(requests, Failure(ChecksumFailed));
    }
    fetched := Fetched(requests, Success(Download(versionId, dl.body)));
  }

  /** Once an iteration has failed, later specifiers change nothing. */
  lemma {:induction false} FailureIsFinal(env: Env, board: string, boardtype: string,
                                          terms: seq<string>, start: Batch, k: nat)
    requires k <= |terms|
    requires Process(env, board, boardtype, terms[..k], start).failure.Some?
    ensures Process(env, board, boardtype, terms, start) == Process(env, board, boardtype, terms[..k], start)
    decreases |terms|
  {
    if k < |terms| {
      var front := terms[..|terms| - 1];
      assert front[..k] == terms[..k];
      FailureIsFinal(env, board, boardtype, front, start, k);
    } else {
      assert terms[..k] == terms;
    }
  }

  /** Lines 71-204, one iteration of the loop: the cache is consulted, the
      network is used when needed, and the record is read back from the file. */
  method LookupTerm(env: Env, board: string, boardtype: string, version: string,
                    cache: FirmwareCache, lastId: Option<string>)
    returns (requests: seq<string>, versionId: Option<string>, result: Result<Record, Error>)
    modifies cache
    ensures var t := TermStep(env, board, boardtype, version, old(cache.files), lastId);
      requests == t.requests && cache.files == t.files && versionId == t.lastId && result == t.result
  {
    requests := [];
    versionId := lastId;
    var filename := CachePath(version, board, boardtype);
    if IsAlias(version) || !cache.Exists(filename) {
      var fetched := FetchTerm(env, version, boardtype);
      requests := fetched.requests;
      if fetched.outcome.Failure? {
        return requests, versionId, Failure(fetched.outcome.error);
      }
      versionId := Some(fetched.outcome.value.versionId);
      cache.Write(filename, fetched.outcome.value.content);
    }
    var data := cache.Read(filename);
    if versionId.None? {
      return requests, versionId, Failure(VersionIdUnbound);
    }
    result := Success(Record(versionId.value, filename, env.sha256(data), |data|));
  }

  /** Lines 68-206: the loop over the specifiers, appending one record per
      specifier and abandoning the list at the first error. */
  method LookupTerms(env: Env, board: string, boardtype: string, terms: seq<string>, cache: FirmwareCache)
    returns (outcome: Result<seq<Record>, Error>, requests: seq<string>)
    modifies cache
    ensures var spec := Process(env, board, boardtype, terms, Start(old(cache.files)));
      outcome == Outcome(spec) && requests == spec.requests && cache.files == spec.files
  {
    ghost var start := Start(cache.files);
    requests := [];
    var records: seq<Record> := [];
    var versionId: Option<string> := None;
    var i := 0;
    while i < |terms|
      invariant 0 <= i <= |terms|
      invariant Process(env, board, boardtype, terms[..i], start) ==
                Batch(cache.files, versionId, records, requests, None)
    {
      ProcessOneMore(env, board, boardtype, terms, start, i);
      StepUnfolds(env, board, boardtype, Batch(cache.files, versionId, records, requests, None), terms[i]);
      var termRequests, result;
      termRequests, versionId, result := LookupTerm(env, board, boardtype, terms[i], cache, versionId);
      requests := requests + termRequests;
      if result.Failure? {
        assert Process(env, board, boardtype, terms[..i + 1], start).failure.Some?;
        FailureIsFinal(env, board, boardtype, terms, start, i + 1);
        return Failure(result.error), requests;
      }
      records := records + [result.value];
      i := i + 1;
    }
    assert terms[..i] == terms;
    outcome := Success(records);
  }

  lemma ProcessOneMore(env: Env, board: string, boardtype: string, terms: seq<string>, start: Batch, i: nat)
    requires i < |terms|
    ensures Process(env, board, boardtype, terms[..i + 1], start) ==
            Step(env, board, boardtype, Process(env, board, boardtype, terms[..i], start), terms[i])
  {
    assert terms[..i + 1][..i] == terms[..i];
  }

  lemma StepUnfolds(env: Env, board: string, boardtype: string, b: Batch, version: string)
    requires b.failure.None?
    ensures var t := TermStep(env, board, boardtype, version, b.files, b.lastId);
      Step(env, board, boardtype, b, version) ==
        Batch(t.files, t.lastId, if t.result.Success? then b.records + [t.result.value] else b.records,
              b.requests + t.requests, if t.result.Failure? then Some(t.result.error) else None)
  {
  }

  /** LookupModule.run. The host variables, the network and the cache
      directory are parameters; the result list or the error is returned
      together with the URLs requested. */
  method Run(terms: seq<string>, variables: map<string, string>, env: Env, cache: FirmwareCache)
    returns (outcome: Result<seq<Record>, Error>, requests: seq<string>)
    modifies cache
    ensures var spec := LookupSpec(env, variables, terms, old(cache.files));
      outcome == Outcome(spec) && requests == spec.requests && cache.files == spec.files
  {
    if BoardVariable !in variables {
      return Failure(MissingVariable(BoardVariable)), [];
    }
    var board := variables[BoardVariable];
    if board == "" {
      return Failure(NoBoard), [];
    }
    if HardwareTypeVariable !in variables {
      return Failure(MissingVariable(HardwareTypeVariable)), [];
    }
    var boardtype := variables[HardwareTypeVariable];
    if boardtype == "" {
      return Failure(NoHardwareType), [];
    }
    if StartsWith(boardtype, "cpe") {
      boardtype := "tplink," + boardtype;
    }
    if StartsWith(boardtype, "rocket-m-xw") {
      boardtype := "ubnt-" + boardtype;
    }
    if boardtype == QemuBoardType {
      boardtype := "generic";
    }
    assert boardtype == NormalizeBoardType(variables[HardwareTypeVariable]);
    outcome, requests := LookupTerms(env, board, boardtype, terms, cache);
  }
}
