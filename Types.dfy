/** Values exchanged by the firmware lookup: its error taxonomy, the parsed
    remote documents, the result records, and the environment through which
    the lookup reaches the network and the hash function. */
module FirmwareTypes {

  datatype Option<T> = None | Some(value: T)

  datatype Result<T, E> = Success(value: T) | Failure(error: E)

  newtype byte = x: int | 0 <= x < 256

  type Bytes = seq<byte>

  /** Every AnsibleError the lookup raises, plus the Python exceptions that
      its control flow can reach (a missing fact, a negative index past the
      start of the release list, an unbound local). */
  datatype Error =
    | MissingVariable(name: string)      // KeyError on variables[name]
    | NoBoard                            // "no board"
    | NoHardwareType                     // "no hardware type"
    | CannotFindVersions                 // config.js not fetched with status 200
    | NoReleases                         // the versions mapping has no keys
    | ReleaseIndexError                  // releases[-2] on a one-element list
    | VersionNotFound(version: string)   // explicit version absent from the catalog
    | UnknownVersion(version: string)    // neither an alias nor d.d.d.d
    | CannotReadOverview(url: string)    // overview.json not fetched with status 200
    | CannotReadProfile(url: string)     // profile json not fetched with status 200
    | FirmwareNotFound(boardtype: string)
    | CannotDownload                     // firmware image not fetched with status 200
    | ChecksumFailed                     // hexdigest differs from the expected sha256
    | VersionIdUnbound                   // UnboundLocalError on version_id

  /** An HTTP response: the status code and the already-parsed body. */
  datatype Response<T> = Response(status: int, body: T)

  /** One entry of the "profiles" list of overview.json. */
  datatype Profile = Profile(id: string, target: string)

  /** overview.json: the image URL template and the profiles. */
  datatype Overview = Overview(imageUrl: string, profiles: seq<Profile>)

  /** One entry of the "images" list of a per-profile document. */
  datatype Image = Image(kind: string, name: string, sha256: string)

  /** The chosen image: where to download it and the hash it must have. */
  datatype ImageRef = ImageRef(url: string, sha256: string)

  /** One element of the returned list. */
  datatype Record = Record(version: string, file: string, sha256: string, size: nat)

  /** The outside world as seen by the lookup: one oracle per kind of GET
      (keyed by URL, returning the status and the parsed body) and the
      SHA-256 hex digest, left uninterpreted. */
  datatype Env = Env(
    catalog: string -> Response<seq<string>>,
    overview: string -> Response<Overview>,
    profile: string -> Response<seq<Image>>,
    firmware: string -> Response<Bytes>,
    sha256: Bytes -> string)
}
