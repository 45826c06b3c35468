/** The local firmware cache: where a (version, board, boardtype) triple is
    stored, and the directory itself as a store of files. */
module CacheStore {
  import opened FirmwareTypes
  import opened Strings

  const FirmwareDir := "/tmp/aredn-firmware/"
  const NamePrefix := "aredn-"
  const NameSuffix := "-squashfs-sysupgrade.bin"

  /** Characters that never appear in a cache file name. */
  predicate PathUnsafe(c: char) {
    c == '/' || c == ','
  }

  /** The file name before '/' and ',' are replaced. */
  function RawCacheName(version: string, board: string, boardtype: string): string {
    NamePrefix + version + "-" + board + "-" + boardtype + NameSuffix
  }

  /** The cache file name: the raw name with '/' and then ',' replaced by '-'.
      It is the raw name with exactly the unsafe characters turned into '-'. */
  function CacheName(version: string, board: string, boardtype: string): (r: string)
    ensures var raw := RawCacheName(version, board, boardtype);
      |r| == |raw| &&
      forall i :: 0 <= i < |r| ==> r[i] == (if PathUnsafe(raw[i]) then '-' else raw[i])
  {
    ReplaceChar(ReplaceChar(RawCacheName(version, board, boardtype), '/', '-'), ',', '-')
  }

  /** The full path: the directory is prefixed after the replacement. */
  function CachePath(version: string, board: string, boardtype: string): string {
    FirmwareDir + CacheName(version, board, boardtype)
  }

  /** The name part holds no '/' or ',', keeps the fixed prefix and suffix, and
      keeps every character of the version, board and boardtype that is safe. */
  lemma CacheNameShape(version: string, board: string, boardtype: string)
    ensures var name := CacheName(version, board, boardtype);
      (forall i :: 0 <= i < |name| ==> !PathUnsafe(name[i])) &&
      StartsWith(name, NamePrefix) && EndsWith(name, NameSuffix) &&
      |name| == |NamePrefix| + |version| + |board| + |boardtype| + 2 + |NameSuffix|
    ensures CachePath(version, board, boardtype) == FirmwareDir + CacheName(version, board, boardtype)
  {
    var raw := RawCacheName(version, board, boardtype);
    var name := CacheName(version, board, boardtype);
    assert raw[..|NamePrefix|] == NamePrefix;
    forall i | 0 <= i < |NamePrefix| ensures name[i] == NamePrefix[i] {
      assert raw[i] == NamePrefix[i];
    }
    assert name[..|NamePrefix|] == NamePrefix;
    var k := |raw| - |NameSuffix|;
    assert raw[k..] == NameSuffix;
    forall i | 0 <= i < |NameSuffix| ensures name[k + i] == NameSuffix[i] {
      assert raw[k + i] == NameSuffix[i];
    }
    assert name[k..] == NameSuffix;
  }

  /** A version that holds no unsafe character appears unchanged right after
      the prefix, so the version can be read back from the name. */
  lemma CacheNameKeepsSafeVersion(version: string, board: string, boardtype: string)
    requires forall i :: 0 <= i < |version| ==> !PathUnsafe(version[i])
    ensures var name := CacheName(version, board, boardtype);
      |NamePrefix| + |version| + 1 <= |name| &&
      name[|NamePrefix|..|NamePrefix| + |version|] == version &&
      name[|NamePrefix| + |version|] == '-'
  {
    var raw := RawCacheName(version, board, boardtype);
    var name := CacheName(version, board, boardtype);
    var p := |NamePrefix|;
    forall i | 0 <= i < |version| ensures name[p + i] == version[i] {
      assert raw[p + i] == version[i];
    }
    assert raw[p + |version|] == '-';
  }

  /** The cache directory: file names mapped to their contents. */
  class FirmwareCache {
    var files: map<string, Bytes>

    constructor (initial: map<string, Bytes>)
      ensures files == initial
    {
      files := initial;
    }

    /** os.path.exists(name) */
    predicate Exists(name: string)
      reads this
    {
      name in files
    }

    /** open(name, "w+b").write(data): creates or overwrites one file. */
    method Write(name: string, data: Bytes)
      modifies this
      ensures files == old(files)[name := data]
    {
      files := files[name := data];
    }

    /** open(name, "r+b").read() on a file the lookup has just checked or written. */
    method Read(name: string) returns (data: Bytes)
      requires name in files
      ensures data == files[name]
    {
      data := files[name];
    }
  }
}
