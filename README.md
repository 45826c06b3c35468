# AREDN firmware lookup, modelled in Dafny

This project models the `firmware` lookup plugin of the kn6plv.aredn Ansible
collection (`LookupModule.run`). Given the host variables `ansible_board` and
`ansible_hardware_type` and a list of version specifiers (`release`,
`nightly`, `nightly-babel` or an explicit `d.d.d.d` version), the lookup
returns one record per specifier: `{version, file, sha256, size}`, where
`file` is a firmware image in `/tmp/aredn-firmware/`. A file written during
the call had its hash checked before it was written; for an explicit version
whose file is already in the directory, that file is returned as found.

Modules, following the plugin's steps:

- `FirmwareTypes` (Types.dfy): the error taxonomy, the parsed remote documents
  (catalog keys, overview, profile images), the result record, and `Env`, the
  network and SHA-256 as parameters.
- `Strings` (Strings.dfy): prefix tests, `str.replace` (one character, and a
  substring), Python's code-point order on `str` and `list.sort()` as a pure
  insertion sort, proved sorted and a permutation.
- `Device` (Device.dfy): reading the two device facts and rewriting the
  hardware type (`cpe…` → `tplink,cpe…`, `rocket-m-xw…` → `ubnt-rocket-m-xw…`,
  the QEMU PC name → `generic`). The three rewrites are applied in sequence.
- `CacheStore` (CacheStore.dfy): the cache file name and the cache directory
  as a class holding a map from file name to bytes.
- `Catalog` (Catalog.dfy): specifier classification and the choice of a
  version id from the sorted list of catalog keys.
- `Profiles` (Profiles.dfy): the first profile whose id is the board type,
  its first image of kind `sysupgrade`, `nand-sysupgrade` or `combined`, and
  the URL built from `image_url`.
- `Lookup` (Lookup.dfy): one iteration (`TermStep`), the loop (`Process`) and
  the whole call (`LookupSpec`) as functions. The methods `FetchTerm`,
  `LookupTerm`, `LookupTerms` and `Run` do the same work step by step, on a
  `FirmwareCache` object, and are proved equal to those functions.
- `LookupProperties` (LookupProperties.dfy): the lemmas about the whole
  lookup.

Each network call is modelled as an oracle from URL to status and parsed body.
Every model function records the URLs it requests, in order, so "no network
access" is a statement about an empty list of requests.

Behaviour the model keeps as the code has it:

- **Stale `version_id` on cache hits.** For an explicit version whose cache
  file exists, `version_id` is never assigned in that iteration. The record
  then carries whatever the previous iteration left. If there was no earlier
  assignment, the call fails. This is the `UnboundLocalError` in Python,
  `VersionIdUnbound` here. The model carries `version_id` across iterations
  as an `Option` (`ExplicitCacheHit`, `FirstTermCacheHitUnbound`,
  `CacheHitRepeatsPreviousVersion`).
- **Single-digit versions only.** The pattern `^\d\.\d\.\d\.\d$` accepts only
  single-digit components. So `3.25.5.1` and `3.24.10.0` are refused as
  unknown versions unless their file is already cached. Python's `$` also
  matches before a final newline, so `"3.5.5.1\n"` is accepted.
- **Cached files are trusted.** An explicit version whose file exists is
  returned without re-checking its hash or size against anything; the record's
  sha256 is simply the digest of whatever bytes are there. That includes a
  file left truncated by an interrupted write, since the write is not atomic
  (`ExplicitCacheHit`, `RecordFromStoredFile`).
- **Cache hits skip the format check.** The cache test comes before the
  format test. So an explicit specifier of any shape is served from the cache
  when its file exists.
- **Checksum comparison is exact.** The digest is compared with `!=` on
  strings, so it is case-sensitive: an expected hash written in upper case
  never matches the lower-case `hexdigest()`.
- **One error for both search misses.** No matching profile and no
  acceptable image both raise the same "firmware not found" error.
- **`release` on a one-element catalog.** `releases[-2]` raises an
  IndexError (`ReleaseIndexError`) instead of a lookup error.
- **Only the first matching profile counts.** The profile loop breaks after
  the first profile whose id matches, even if that profile has no acceptable
  image.

## Model

| member | source | states |
|---|---|---|
| Device.ReadDevice | collections/ansible_collections/kn6plv/aredn/plugins/lookup/firmware.py:49-54 | succeeds exactly when both facts are present and non-empty; an empty board gives "no board"; a present board with an empty hardware type gives "no hardware type" |
| Device.NormalizeBoardType | collections/ansible_collections/kn6plv/aredn/plugins/lookup/firmware.py:60-66 | a `cpe` prefix gives `tplink,` + type; a `rocket-m-xw` prefix gives `ubnt-` + type; the QEMU PC name gives `generic`; any other type is unchanged |
| Strings.ReplaceChar | collections/ansible_collections/kn6plv/aredn/plugins/lookup/firmware.py:71 | same length; each occurrence of the character is replaced and every other character is kept in place |
| CacheStore.CachePath | collections/ansible_collections/kn6plv/aredn/plugins/lookup/firmware.py:71 | definition, no contract of its own: the cache directory followed by `CacheName`; its shape is stated by `CacheNameShape` |
| CacheStore.CacheName | collections/ansible_collections/kn6plv/aredn/plugins/lookup/firmware.py:71 | the name is the raw `aredn-…-squashfs-sysupgrade.bin` string with exactly its `/` and `,` characters turned into `-` |
| CacheStore.CacheNameShape | collections/ansible_collections/kn6plv/aredn/plugins/lookup/firmware.py:71 | the name part has no `/` or `,`, starts with `aredn-`, ends with `-squashfs-sysupgrade.bin`, has the raw length, and the directory is prefixed after the replacement |
| CacheStore.CacheNameKeepsSafeVersion | collections/ansible_collections/kn6plv/aredn/plugins/lookup/firmware.py:71 | a version with no `/` or `,` appears unchanged right after `aredn-` and is followed by `-` |
| CacheStore.FirmwareCache.constructor | collections/ansible_collections/kn6plv/aredn/plugins/lookup/firmware.py:32-34 | the cache directory starts with the given files |
| CacheStore.FirmwareCache.Write | collections/ansible_collections/kn6plv/aredn/plugins/lookup/firmware.py:195-198 | the one file is created or overwritten with the data and no other file changes |
| CacheStore.FirmwareCache.Read | collections/ansible_collections/kn6plv/aredn/plugins/lookup/firmware.py:200-202 | returns the stored contents of the file |
| Catalog.VersionPatternExamples | collections/ansible_collections/kn6plv/aredn/plugins/lookup/firmware.py:73 | `3.5.5.1` and `3.5.5.1` plus a final newline match; `3.25.5.1`, `3.24.10.0` and a double trailing newline do not |
| Catalog.IsAlias | collections/ansible_collections/kn6plv/aredn/plugins/lookup/firmware.py:72 | definition, no contract of its own: the three symbolic specifiers `release`, `nightly`, `nightly-babel` |
| Catalog.MatchesVersionPattern | collections/ansible_collections/kn6plv/aredn/plugins/lookup/firmware.py:73 | definition, no contract of its own: four single ASCII digits separated by dots, optionally followed by one newline; checked against examples by `VersionPatternExamples` and against the aliases by `AliasAndPatternDisjoint` |
| Catalog.AliasAndPatternDisjoint | collections/ansible_collections/kn6plv/aredn/plugins/lookup/firmware.py:72-73 | no alias has the explicit-version shape, and an explicit version has no `/` or `,` |
| Strings.SortStringsCorrect | collections/ansible_collections/kn6plv/aredn/plugins/lookup/firmware.py:132 | the sorted release list is in code-point order and is a permutation of the catalog keys |
| Strings.LexLe | collections/ansible_collections/kn6plv/aredn/plugins/lookup/firmware.py:132 | definition, no contract of its own: code-point order on `str`, a proper prefix first; its properties are the lemmas `LexLeTotal`, `LexLeAntisymmetric` and `LexLeTransitive` |
| Strings.SortStrings | collections/ansible_collections/kn6plv/aredn/plugins/lookup/firmware.py:132 | definition, no contract of its own: insertion sort standing for `list.sort()`; proved sorted and a permutation by `SortStringsCorrect` |
| Catalog.SelectVersion | collections/ansible_collections/kn6plv/aredn/plugins/lookup/firmware.py:126-153 | a chosen id is in the list; an empty list, and only an empty list, gives "no releases"; an explicit version is chosen if it is in the list and is "version not found" otherwise |
| Catalog.Choose | collections/ansible_collections/kn6plv/aredn/plugins/lookup/firmware.py:126-153 | definition, no contract of its own: `SelectVersion` over the sorted catalog keys; its properties are `ChosenIsKey`, `NightlyIsMinimum`, `BabelIsMaximum` and `ReleaseIsSecondLargest` |
| Catalog.NightlyIsMinimum | collections/ansible_collections/kn6plv/aredn/plugins/lookup/firmware.py:132-145 | `nightly` yields a catalog key no greater than any key |
| Catalog.BabelIsMaximum | collections/ansible_collections/kn6plv/aredn/plugins/lookup/firmware.py:132-147 | `nightly-babel` yields a catalog key no smaller than any key |
| Catalog.ReleaseIsSecondLargest | collections/ansible_collections/kn6plv/aredn/plugins/lookup/firmware.py:132-143 | `release` is the IndexError exactly for a one-element catalog; otherwise, with one copy of the greatest key removed, it yields the greatest of the remaining keys |
| Catalog.ChosenIsKey | collections/ansible_collections/kn6plv/aredn/plugins/lookup/firmware.py:126-153 | after sorting, the chosen id is a catalog key; an empty catalog gives "no releases"; an explicit version is chosen exactly when it is a key |
| Catalog.FourKeyCatalog | collections/ansible_collections/kn6plv/aredn/plugins/lookup/firmware.py:132-147 | for keys 2.0.0.0, babel-x, 1.0.0.0, 3.0.0.0: `release` gives 3.0.0.0, `nightly` gives 1.0.0.0 and `nightly-babel` gives babel-x |
| Profiles.FirstProfile | collections/ansible_collections/kn6plv/aredn/plugins/lookup/firmware.py:170-184 | the least index whose profile id is the board type, or none when no profile has it |
| Profiles.FirstImage | collections/ansible_collections/kn6plv/aredn/plugins/lookup/firmware.py:179-183 | the least index whose image kind is sysupgrade, nand-sysupgrade or combined, or none when no image is |
| Profiles.FindProfile | collections/ansible_collections/kn6plv/aredn/plugins/lookup/firmware.py:170-184 | the scan with `break` returns the first matching profile |
| Profiles.FindImage | collections/ansible_collections/kn6plv/aredn/plugins/lookup/firmware.py:179-183 | the scan with `break` returns the URL `base + "/" + name` and the sha256 of the first accepted image |
| Profiles.ImageChoice | collections/ansible_collections/kn6plv/aredn/plugins/lookup/firmware.py:179-183 | definition, no contract of its own: the URL `base + "/" + name` and the sha256 of the image `FirstImage` picks, or none; `FindImage` is proved equal to it |
| Profiles.SysupgradeAfterFactory | collections/ansible_collections/kn6plv/aredn/plugins/lookup/firmware.py:179-183 | a factory image followed by a sysupgrade image yields the sysupgrade image |
| Strings.ReplaceAllAbsent | collections/ansible_collections/kn6plv/aredn/plugins/lookup/firmware.py:174 | `str.replace` leaves a string without the pattern unchanged |
| Strings.ReplaceAll | collections/ansible_collections/kn6plv/aredn/plugins/lookup/firmware.py:174 | definition, no contract of its own: `str.replace` with a non-empty pattern, matching from the left without overlap; its properties are the lemmas below |
| Profiles.TargetBase | collections/ansible_collections/kn6plv/aredn/plugins/lookup/firmware.py:174 | definition, no contract of its own: `image_url` with `{target}` replaced by the profile target; its properties are `TargetBaseSubstitutes` and `TargetBaseReplacesEvery` |
| Strings.ReplaceSinglePlaceholder | collections/ansible_collections/kn6plv/aredn/plugins/lookup/firmware.py:174 | a template with one placeholder, and no copy of the pattern's first character elsewhere, gets the replacement in its place |
| Strings.ReplaceAllStep | collections/ansible_collections/kn6plv/aredn/plugins/lookup/firmware.py:174 | text without the pattern's first character, then the pattern: the text is kept, the pattern becomes the replacement and the rest is replaced in turn |
| Strings.ReplaceAllJoin | collections/ansible_collections/kn6plv/aredn/plugins/lookup/firmware.py:174 | every occurrence is replaced: pieces joined by the pattern become the same pieces joined by the replacement |
| Profiles.TargetBaseSubstitutes | collections/ansible_collections/kn6plv/aredn/plugins/lookup/firmware.py:174 | the first `{target}` after `{`-free text becomes the profile target, and the rest of the template, which may hold more placeholders, is substituted in turn |
| Profiles.TargetBaseReplacesEvery | collections/ansible_collections/kn6plv/aredn/plugins/lookup/firmware.py:174 | every `{target}` in an `image_url` built from `{`-free pieces is replaced by the profile target |
| Lookup.FetchTerm | collections/ansible_collections/kn6plv/aredn/plugins/lookup/firmware.py:73-193 | the step-by-step network part equals `FetchFirmware`: catalog, sort, choice, profile and image scans, download and hash check, with the URLs in request order |
| Lookup.ResolveImage | collections/ansible_collections/kn6plv/aredn/plugins/lookup/firmware.py:159-186 | definition, no contract of its own: the overview request, its first profile for the board type, the profile request and its first accepted image, with the source's three errors; its properties are `ResolvedImageIsFirstMatch`, `OnlyFirstProfileConsidered` and `NoProfileNotFound` |
| Lookup.DownloadVerified | collections/ansible_collections/kn6plv/aredn/plugins/lookup/firmware.py:189-193 | definition, no contract of its own: the download is accepted only with status 200 and a digest equal to the expected sha256 as strings; its properties are `FetchedIsVerified` and `ChecksumMismatchAborts` |
| Lookup.FetchFirmware | collections/ansible_collections/kn6plv/aredn/plugins/lookup/firmware.py:73-193 | definition, no contract of its own: format check, catalog request, version choice, `ResolveImage` and `DownloadVerified`, with the URLs in request order; its properties are `UnknownVersionBeforeCatalog`, `AliasAlwaysFetches` and `FetchedIsVerified` |
| Lookup.TermStep | collections/ansible_collections/kn6plv/aredn/plugins/lookup/firmware.py:71-204 | definition, no contract of its own: one iteration, network or cache hit, the write of a verified download and the record read back from the stored file, with `version_id` carried over; its properties are `ExplicitCacheHit`, `WriteGate`, `RecordFromStoredFile` and `SecondLookupHitsCache` |
| Lookup.Step | collections/ansible_collections/kn6plv/aredn/plugins/lookup/firmware.py:68-206 | definition, no contract of its own: one turn of the loop, which does nothing once an error has ended the call |
| Lookup.Process | collections/ansible_collections/kn6plv/aredn/plugins/lookup/firmware.py:68-206 | definition, no contract of its own: the loop over the specifiers in order; its properties are `FailureIsFinal` and `RecordsFollowTerms` |
| Lookup.LookupSpec | collections/ansible_collections/kn6plv/aredn/plugins/lookup/firmware.py:39-206 | definition, no contract of its own: device checks and board-type normalization, then `Process`; its properties are `DeviceCheckedFirst`, `FirstTermCacheHitUnbound` and `CacheHitRepeatsPreviousVersion` |
| Lookup.FailureIsFinal | collections/ansible_collections/kn6plv/aredn/plugins/lookup/firmware.py:68-206 | after an error, later specifiers change neither the cache, the requests nor the result |
| Lookup.LookupTerm | collections/ansible_collections/kn6plv/aredn/plugins/lookup/firmware.py:71-204 | one iteration on the cache object: its requests, new cache, `version_id` and record are those of `TermStep` |
| Lookup.LookupTerms | collections/ansible_collections/kn6plv/aredn/plugins/lookup/firmware.py:68-206 | the loop over the specifiers: its result, requests and final cache are those of `Process` |
| Lookup.Run | collections/ansible_collections/kn6plv/aredn/plugins/lookup/firmware.py:39-206 | the whole call: its result, requests and final cache are those of `LookupSpec` |
| LookupProperties.DeviceCheckedFirst | collections/ansible_collections/kn6plv/aredn/plugins/lookup/firmware.py:49-54 | a missing or empty device fact fails the call with no request and the cache unchanged; an empty board gives "no board" |
| LookupProperties.ExplicitCacheHit | collections/ansible_collections/kn6plv/aredn/plugins/lookup/firmware.py:72 | an explicit specifier with a cached file makes no request and no write; it reports the previous `version_id`, or fails when none was assigned |
| LookupProperties.UnknownVersionBeforeCatalog | collections/ansible_collections/kn6plv/aredn/plugins/lookup/firmware.py:156-157 | a specifier that is not an alias, not `d.d.d.d` and not cached fails with "unknown version" before any request |
| LookupProperties.AliasAlwaysFetches | collections/ansible_collections/kn6plv/aredn/plugins/lookup/firmware.py:72-74 | an alias always requests the catalog first, whatever the cache holds |
| LookupProperties.ResolvedImageIsFirstMatch | collections/ansible_collections/kn6plv/aredn/plugins/lookup/firmware.py:159-186 | a found image is the first accepted image of the first profile with the board type, at `image_url` with `{target}` replaced, plus `/` and the name |
| LookupProperties.OnlyFirstProfileConsidered | collections/ansible_collections/kn6plv/aredn/plugins/lookup/firmware.py:170-186 | if the first matching profile has no accepted image, the result is "firmware not found", whatever later profiles hold |
| LookupProperties.NoProfileNotFound | collections/ansible_collections/kn6plv/aredn/plugins/lookup/firmware.py:170-186 | with no profile for the board type, the result is "firmware not found" after the overview request only |
| LookupProperties.FetchedIsVerified | collections/ansible_collections/kn6plv/aredn/plugins/lookup/firmware.py:73-193 | a successful fetch had a valid specifier, a catalog with status 200, a chosen key, a found image and a status-200 download whose digest equals the expected sha256 |
| LookupProperties.WriteGate | collections/ansible_collections/kn6plv/aredn/plugins/lookup/firmware.py:189-198 | a failed iteration leaves the cache unchanged; a changed cache holds a verified download at the specifier's path |
| LookupProperties.ChecksumMismatchAborts | collections/ansible_collections/kn6plv/aredn/plugins/lookup/firmware.py:192-193 | a digest mismatch fails with "firmware checksum failed" after four requests, with the cache unchanged |
| LookupProperties.RecordFromStoredFile | collections/ansible_collections/kn6plv/aredn/plugins/lookup/firmware.py:200-204 | a record names the specifier's file, its sha256 and size are those of the stored contents, its version is the new `version_id`, and no file is removed |
| LookupProperties.SecondLookupHitsCache | collections/ansible_collections/kn6plv/aredn/plugins/lookup/firmware.py:71-72 | repeating any non-alias specifier after a success, whether it was fetched or found cached, makes no request, writes nothing and returns the same record |
| LookupProperties.RecordsFollowTerms | collections/ansible_collections/kn6plv/aredn/plugins/lookup/firmware.py:68-206 | on success there is one record per specifier, in order, each naming that specifier's cache file, which exists at the end; the cache only grows |
| LookupProperties.FirstTermCacheHitUnbound | collections/ansible_collections/kn6plv/aredn/plugins/lookup/firmware.py:72-204 | a cached explicit specifier given first fails the call with the unbound `version_id`, before any request |
| LookupProperties.CacheHitRepeatsPreviousVersion | collections/ansible_collections/kn6plv/aredn/plugins/lookup/firmware.py:72-204 | a cached explicit specifier after others adds no request and reports the previous record's version, not its own |

## Left out

- HTTP transport (`requests.get`): each GET is an oracle in `Env` that gives a status and an already-parsed body for a URL. The same URL always gives the same answer within a call.
- Extracting the `versions: {…},` fragment from `config.js` and parsing it with `json.loads` after the quote rewrite are not modelled. The catalog oracle returns the mapping's keys directly. A fragment that is missing or cannot be parsed is not modelled either (Python raises AttributeError or a JSON error there).
- JSON decoding of the overview and profile documents is not modelled. Missing `profiles`, `id`, `target`, `image_url`, `images`, `type`, `name` or `sha256` fields are not modelled (Python raises KeyError there).
- SHA-256 itself: `Env.sha256` is an uninterpreted function from bytes to a hex string.
- The file system: the directory is a map from file name to bytes. `os.makedirs`, I/O errors and `os.path.getsize` are not modelled separately; the size is the length of the stored bytes.
- Debug printing, `set_options`, the `LookupBase` plumbing and the unused `LooseVersion` import: they have no behaviour here.
- Concurrent runs sharing the cache directory: the model is sequential.
- `\d` in Python 3 also matches non-ASCII decimal digits. `Catalog.MatchesVersionPattern` accepts only `0`-`9`.
- Host variables are modelled as strings. Python's `not board` is also true for `None` and other false values; only the empty string is modelled.
- `version_id` after a failed iteration: `TermStep` keeps the old value, while Python may already have assigned a new one. Nothing can observe this, because the error ends the call.
- The `releases.sort()` call is a library routine, so it is modelled by the pure function `Strings.SortStrings` rather than an in-place loop. The list is local, so sorting in place has no visible effect.
