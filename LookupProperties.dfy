/** What the lookup promises, proved about the functions that specify it:
    device facts are checked before any work, explicit versions already
    cached cost no network, only verified images are written, and a
    successful call returns one record per specifier, read from the file. */
module LookupProperties {
  import opened FirmwareTypes
  import opened Strings
  import opened Device
  import opened CacheStore
  import opened Catalog
  import opened Profiles
  import opened Lookup

  /** A missing or empty board or hardware type ends the call before any
      specifier is looked at: no request, no file written. */
  lemma DeviceCheckedFirst(env: Env, variables: map<string, string>, terms: seq<string>, files: Files)
    requires ReadDevice(variables).Failure?
    ensures var b := LookupSpec(env, variables, terms, files);
      Outcome(b) == Failure(ReadDevice(variables).error) && b.requests == [] && b.files == files
    ensures BoardVariable in variables && variables[BoardVariable] == "" ==>
      Outcome(LookupSpec(env, variables, terms, files)) == Failure(NoBoard)
  {
  }

  /** An explicit specifier whose file is cached: no request, no write, and
      the record carries the version_id left by an earlier iteration, or the
      call fails when there was none. */
  lemma ExplicitCacheHit(env: Env, board: string, boardtype: string, version: string,
                         files: Files, lastId: Option<string>)
    requires !IsAlias(version) && CachePath(version, board, boardtype) in files
    ensures var t := TermStep(env, board, boardtype, version, files, lastId);
      var path := CachePath(version, board, boardtype);
      t.requests == [] && t.files == files && t.lastId == lastId &&
      t.result == (if lastId.None? then Failure(VersionIdUnbound)
                   else Success(Record(lastId.value, path, env.sha256(files[path]), |files[path]|)))
  {
  }

  /** A specifier that is neither an alias nor d.d.d.d, and has no cached
      file, fails before the catalog is requested. */
  lemma UnknownVersionBeforeCatalog(env: Env, board: string, boardtype: string, version: string,
                                    files: Files, lastId: Option<string>)
    requires !IsAlias(version) && !MatchesVersionPattern(version)
    requires CachePath(version, board, boardtype) !in files
    ensures var t := TermStep(env, board, boardtype, version, files, lastId);
      t.requests == [] && t.files == files && t.result == Failure(UnknownVersion(version))
  {
  }

  /** An alias is never answered from the cache: the catalog is requested
      first, whatever the cache holds. */
  lemma AliasAlwaysFetches(env: Env, board: string, boardtype: string, version: string,
                           files: Files, lastId: Option<string>)
    requires IsAlias(version)
    ensures var t := TermStep(env, board, boardtype, version, files, lastId);
      |t.requests| >= 1 && t.requests[0] == ConfigUrl()
  {
    AliasAndPatternDisjoint(version);
  }

  /** The image found is the first accepted image of the first profile whose
      id is the board type, and its URL is the target-substituted image_url,
      a "/" and the image name. */
  lemma ResolvedImageIsFirstMatch(env: Env, versionId: string, boardtype: string) returns (i: nat, j: nat)
    requires ResolveImage(env, versionId, boardtype).outcome.Success?
    ensures var ov := env.overview(OverviewUrl(versionId));
      ov.status == 200 && i < |ov.body.profiles| && ov.body.profiles[i].id == boardtype &&
      (forall k :: 0 <= k < i ==> ov.body.profiles[k].id != boardtype) &&
      var p := ov.body.profiles[i];
      var doc := env.profile(ProfileUrl(versionId, p.target, boardtype));
      doc.status == 200 && j < |doc.body| && AcceptedKind(doc.body[j].kind) &&
      (forall k :: 0 <= k < j ==> !AcceptedKind(doc.body[k].kind)) &&
      ResolveImage(env, versionId, boardtype) ==
        Fetched([OverviewUrl(versionId), ProfileUrl(versionId, p.target, boardtype)],
                Success(ImageRef(TargetBase(ov.body.imageUrl, p.target) + "/" + doc.body[j].name,
                                 doc.body[j].sha256)))
  {
    var ov := env.overview(OverviewUrl(versionId));
    i := FirstProfile(ov.body.profiles, boardtype).value;
    var p := ov.body.profiles[i];
    var doc := env.profile(ProfileUrl(versionId, p.target, p.id));
    j := FirstImage(doc.body).value;
  }

  /** The search never goes past the first profile with the board type: if
      that profile has no accepted image the firmware is not found, whatever
      later profiles hold. */
  lemma OnlyFirstProfileConsidered(env: Env, versionId: string, boardtype: string, i: nat)
    requires var ov := env.overview(OverviewUrl(versionId));
      ov.status == 200 && i < |ov.body.profiles| && ov.body.profiles[i].id == boardtype &&
      forall k :: 0 <= k < i ==> ov.body.profiles[k].id != boardtype
    requires var p := env.overview(OverviewUrl(versionId)).body.profiles[i];
      var doc := env.profile(ProfileUrl(versionId, p.target, boardtype));
      doc.status == 200 && forall k :: 0 <= k < |doc.body| ==> !AcceptedKind(doc.body[k].kind)
    ensures ResolveImage(env, versionId, boardtype).outcome == Failure(FirmwareNotFound(boardtype))
  {
    var ov := env.overview(OverviewUrl(versionId));
    assert FirstProfile(ov.body.profiles, boardtype) == Some(i);
  }

  /** Without any profile for the board type the firmware is not found, and
      only the overview is requested. */
  lemma NoProfileNotFound(env: Env, versionId: string, boardtype: string)
    requires var ov := env.overview(OverviewUrl(versionId));
      ov.status == 200 && forall k :: 0 <= k < |ov.body.profiles| ==> ov.body.profiles[k].id != boardtype
    ensures ResolveImage(env, versionId, boardtype) ==
      Fetched([OverviewUrl(versionId)], Failure(FirmwareNotFound(boardtype)))
  {
  }

  /** A successful fetch went through every gate: a valid specifier, the
      catalog with status 200 and a version chosen from it, the image found,
      and a download with status 200 whose digest equals the expected one. */
  lemma FetchedIsVerified(env: Env, version: string, boardtype: string)
    requires FetchFirmware(env, version, boardtype).outcome.Success?
    ensures var f := FetchFirmware(env, version, boardtype);
      var d := f.outcome.value;
      var cfg := env.catalog(ConfigUrl());
      (IsAlias(version) || MatchesVersionPattern(version)) && cfg.status == 200 &&
      Choose(version, cfg.body) == Success(d.versionId) && d.versionId in cfg.body &&
      var img := ResolveImage(env, d.versionId, boardtype);
      img.outcome.Success? &&
      var ref := img.outcome.value;
      env.firmware(ref.url).status == 200 && env.firmware(ref.url).body == d.content &&
      env.sha256(d.content) == ref.sha256 &&
      f.requests == [ConfigUrl()] + img.requests + [ref.url]
  {
    var cfg := env.catalog(ConfigUrl());
    ChosenIsKey(version, cfg.body);
  }

  /** The cache changes only by writing, at the specifier's path, an image
      that passed every gate; a failed iteration leaves it as it was. */
  lemma WriteGate(env: Env, board: string, boardtype: string, version: string,
                  files: Files, lastId: Option<string>)
    ensures var t := TermStep(env, board, boardtype, version, files, lastId);
      t.result.Failure? ==> t.files == files
    ensures var t := TermStep(env, board, boardtype, version, files, lastId);
      var f := FetchFirmware(env, version, boardtype);
      t.files != files ==>
        f.outcome.Success? && t.files == files[CachePath(version, board, boardtype) := f.outcome.value.content] &&
        var ref := ResolveImage(env, f.outcome.value.versionId, boardtype).outcome;
        ref.Success? && env.firmware(ref.value.url).status == 200 &&
        env.sha256(f.outcome.value.content) == ref.value.sha256
  {
    var f := FetchFirmware(env, version, boardtype);
    if f.outcome.Success? {
      FetchedIsVerified(env, version, boardtype);
    }
  }

  /** A download whose digest differs from the expected one aborts the
      iteration with the cache unchanged. */
  lemma ChecksumMismatchAborts(env: Env, board: string, boardtype: string, version: string,
                               files: Files, lastId: Option<string>)
    requires IsAlias(version) || (MatchesVersionPattern(version) && CachePath(version, board, boardtype) !in files)
    requires env.catalog(ConfigUrl()).status == 200
    requires Choose(version, env.catalog(ConfigUrl()).body).Success?
    requires var img := ResolveImage(env, Choose(version, env.catalog(ConfigUrl()).body).value, boardtype);
      img.outcome.Success? && env.firmware(img.outcome.value.url).status == 200 &&
      env.sha256(env.firmware(img.outcome.value.url).body) != img.outcome.value.sha256
    ensures var t := TermStep(env, board, boardtype, version, files, lastId);
      t.result == Failure(ChecksumFailed) && t.files == files && |t.requests| == 4
  {
  }

  /** A successful iteration stores the file at the specifier's path and
      reports that file's digest and length; files are never removed. */
  lemma RecordFromStoredFile(env: Env, board: string, boardtype: string, version: string,
                             files: Files, lastId: Option<string>)
    ensures files.Keys <= TermStep(env, board, boardtype, version, files, lastId).files.Keys
    ensures var t := TermStep(env, board, boardtype, version, files, lastId);
      var path := CachePath(version, board, boardtype);
      t.result.Success? ==>
        t.result.value.file == path && path in t.files &&
        t.result.value.sha256 == env.sha256(t.files[path]) &&
        t.result.value.size == |t.files[path]| &&
        t.lastId == Some(t.result.value.version)
  {
  }

  /** Looking up the same non-alias specifier again right after a success
      makes no request, writes nothing, and returns the same record, whether
      the first lookup fetched the file or found it cached. */
  lemma SecondLookupHitsCache(env: Env, board: string, boardtype: string, version: string,
                              files: Files, lastId: Option<string>)
    requires !IsAlias(version)
    requires TermStep(env, board, boardtype, version, files, lastId).result.Success?
    ensures var t := TermStep(env, board, boardtype, version, files, lastId);
      var again := TermStep(env, board, boardtype, version, t.files, t.lastId);
      again.requests == [] && again.files == t.files && again.result == t.result
  {
    var path := CachePath(version, board, boardtype);
    if path !in files {
      var f := FetchFirmware(env, version, boardtype);
      FetchedIsVerified(env, version, boardtype);
      ChosenIsKey(version, env.catalog(ConfigUrl()).body);
      assert f.outcome.value.versionId == version;
    }
  }

  /** A successful call has one record per specifier, in order, each naming
      the specifier's cache file, which is present at the end; the cache
      only grows; version_id is the last record's version. */
  lemma {:induction false} RecordsFollowTerms(env: Env, board: string, boardtype: string,
                                              terms: seq<string>, files: Files)
    ensures var b := Process(env, board, boardtype, terms, Start(files));
      files.Keys <= b.files.Keys &&
      (b.failure.None? ==>
        |b.records| == |terms| &&
        (forall i :: 0 <= i < |terms| ==>
          b.records[i].file == CachePath(terms[i], board, boardtype) && b.records[i].file in b.files) &&
        (|terms| > 0 ==> b.lastId == Some(b.records[|terms| - 1].version)))
    decreases |terms|
  {
    if |terms| > 0 {
      var front := terms[..|terms| - 1];
      var version := terms[|terms| - 1];
      RecordsFollowTerms(env, board, boardtype, front, files);
      var b0 := Process(env, board, boardtype, front, Start(files));
      RecordFromStoredFile(env, board, boardtype, version, b0.files, b0.lastId);
    }
  }

  /** The unbound version_id: an explicit specifier whose file is cached,
      given first, makes the whole call fail, before any request. */
  lemma FirstTermCacheHitUnbound(env: Env, board: string, boardtype: string, terms: seq<string>, files: Files)
    requires |terms| > 0 && !IsAlias(terms[0]) && CachePath(terms[0], board, boardtype) in files
    ensures var b := Process(env, board, boardtype, terms, Start(files));
      b.failure == Some(VersionIdUnbound) && b.requests == [] && b.files == files && Outcome(b).Failure?
  {
    ProcessOneMore(env, board, boardtype, terms, Start(files), 0);
    assert terms[..0] == [];
    FailureIsFinal(env, board, boardtype, terms, Start(files), 1);
  }

  /** The stale version_id: an explicit specifier whose file is cached,
      after other specifiers, is reported with the version of the record
      before it, not with its own. */
  lemma CacheHitRepeatsPreviousVersion(env: Env, board: string, boardtype: string,
                                       terms: seq<string>, files: Files, version: string)
    requires |terms| > 0 && !IsAlias(version)
    requires var b := Process(env, board, boardtype, terms, Start(files));
      b.failure.None? && CachePath(version, board, boardtype) in b.files
    ensures var before := Process(env, board, boardtype, terms, Start(files));
      var b := Process(env, board, boardtype, terms + [version], Start(files));
      b.failure.None? && |b.records| == |terms| + 1 && b.requests == before.requests &&
      b.records[|terms|].version == b.records[|terms| - 1].version
  {
    var ext := terms + [version];
    assert ext[..|ext| - 1] == terms;
    RecordsFollowTerms(env, board, boardtype, terms, files);
  }
}
