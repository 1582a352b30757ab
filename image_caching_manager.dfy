/** `ImageCachingManager` (ImageCachingManager.swift): a content-addressed cache of downloaded
    images. A file's name is the lowercase hex rendering of the SHA-256 digest of the image URL;
    the digest itself is a parameter (FIPS 180-4 is not modelled), the hex rendering is concrete.
    The file system is a map from path to the bytes stored there. */
module ImageCache {
  import opened Base
  import opened Errors
  import opened Networking

  /** A SHA-256 digest: 32 bytes. */
  type Digest = s: seq<byte> | |s| == 32 witness seq(32, _ => 0 as byte)

  // ----- `String(format: "%02x", _)` -----

  predicate IsLowerHex(c: char)
  {
    '0' <= c <= '9' || 'a' <= c <= 'f'
  }

  /** The lowercase hex character of a value below 16. */
  function HexDigit(d: nat): (c: char)
    requires d < 16
    ensures IsLowerHex(c)
  {
    if d < 10 then ('0' as int + d) as char else ('a' as int + d - 10) as char
  }

  /** The value of a hex character, -1 for any other character. */
  function HexDigitValue(c: char): int
  {
    if '0' <= c <= '9' then c as int - '0' as int
    else if 'a' <= c <= 'f' then c as int - 'a' as int + 10
    else -1
  }

  /** `%02x`: two characters, the high nibble first, with a leading zero. */
  function HexByte(b: byte): (s: string)
    ensures |s| == 2 && IsLowerHex(s[0]) && IsLowerHex(s[1])
    ensures HexDigitValue(s[0]) * 16 + HexDigitValue(s[1]) == b as int
  {
    [HexDigit(b as int / 16), HexDigit(b as int % 16)]
  }

  /** The digest rendered byte by byte and joined. */
  function Hex(bytes: seq<byte>): (s: string)
    ensures |s| == 2 * |bytes|
    ensures forall i :: 0 <= i < |s| ==> IsLowerHex(s[i])
  {
    if bytes == [] then [] else HexByte(bytes[0]) + Hex(bytes[1..])
  }

  /** Reads back a string of hex pairs. */
  function Unhex(s: string): Option<seq<byte>>
    decreases |s|
  {
    if |s| == 0 then Some([])
    else if |s| == 1 || HexDigitValue(s[0]) < 0 || HexDigitValue(s[1]) < 0 then None
    else
      match Unhex(s[2..])
      case None => None
      case Some(rest) => Some([(HexDigitValue(s[0]) * 16 + HexDigitValue(s[1])) as byte] + rest)
  }

  /** Reading the rendering back gives the bytes. */
  lemma {:induction false} UnhexHex(bytes: seq<byte>)
    ensures Unhex(Hex(bytes)) == Some(bytes)
  {
    if bytes != [] {
      UnhexHex(bytes[1..]);
      var s := Hex(bytes);
      var h := HexByte(bytes[0]);
      assert s[0] == h[0] && s[1] == h[1];
      assert s[2..] == Hex(bytes[1..]);
      assert (HexDigitValue(s[0]) * 16 + HexDigitValue(s[1])) as byte == bytes[0];
      assert [bytes[0]] + bytes[1..] == bytes;
    }
  }

  /** The hex rendering is injective, so two URLs share a file only if their digests collide. */
  lemma HexInjective(a: seq<byte>, b: seq<byte>)
    ensures Hex(a) == Hex(b) ==> a == b
  {
    UnhexHex(a);
    UnhexHex(b);
  }

  /** `cacheFileName(for:)`. `sha256` is SHA-256 applied to the UTF-8 bytes of the URL's
      absolute string. */
  function CacheFileName(sha256: string -> Digest, url: string): (name: string)
    ensures |name| == 64
    ensures forall i :: 0 <= i < |name| ==> IsLowerHex(name[i])
    ensures Unhex(name).Some? && Unhex(name).value == sha256(url)
  {
    UnhexHex(sha256(url));
    Hex(sha256(url))
  }

  /** Two URLs get the same file name exactly when their digests are equal. */
  lemma CacheFileNameIffSameDigest(sha256: string -> Digest, u: string, v: string)
    ensures CacheFileName(sha256, u) == CacheFileName(sha256, v) <==> sha256(u) == sha256(v)
  {
    HexInjective(sha256(u), sha256(v));
  }

  /** `appendingPathComponent`. */
  function FilePath(directory: string, name: string): string
  {
    directory + "/" + name
  }

  /** The path under the cache directory does not depend on anything but the directory and
      the digest of the URL. */
  lemma FilePathInjective(directory: string, a: string, b: string)
    ensures FilePath(directory, a) == FilePath(directory, b) ==> a == b
  {
    if FilePath(directory, a) == FilePath(directory, b) {
      assert a == FilePath(directory, a)[|directory| + 1..];
    }
  }

  /** Under one cache directory, two URLs share a cache path exactly when their digests collide. */
  lemma CachePathIffSameDigest(directory: string, sha256: string -> Digest, u: string, v: string)
    ensures FilePath(directory, CacheFileName(sha256, u)) == FilePath(directory, CacheFileName(sha256, v))
        <==> sha256(u) == sha256(v)
  {
    FilePathInjective(directory, CacheFileName(sha256, u), CacheFileName(sha256, v));
    CacheFileNameIffSameDigest(sha256, u, v);
  }

  /** `downloadImage(_:)`. Whatever goes wrong, including its own `noData` and `badResponse`,
      is rethrown as `NetworkError.unknown`. */
  function DownloadImage(t: TransportOutcome): (r: Result<seq<byte>, Error>)
    ensures r.Success? <==> t.Received? && |t.data| > 0 && IsSuccessResponse(t.response)
    ensures r.Success? ==> r.value == t.data && |r.value| > 0
    ensures r.Failure? ==> r.error == Network(Unknown)
  {
    match t
    case TransportFailed(_) => Failure(Network(Unknown))
    case Received(data, response) =>
      if |data| == 0 then Failure(Network(Unknown))
      else if !IsSuccessResponse(response) then Failure(Network(Unknown))
      else Success(data)
  }

  /** What happened to `data.write(to:)` and the `setAttributes` call after it. */
  datatype WriteOutcome = WriteFailed | AttributesFailed | Written

  class ImageCachingManager {
    const cacheDirectoryURL: Option<string>
    const sha256: string -> Digest
    var files: map<string, seq<byte>>

    constructor (cacheDirectoryURL: Option<string>, sha256: string -> Digest, files: map<string, seq<byte>>)
      ensures this.cacheDirectoryURL == cacheDirectoryURL && this.sha256 == sha256 && this.files == files
    {
      this.cacheDirectoryURL := cacheDirectoryURL;
      this.sha256 := sha256;
      this.files := files;
    }

    /** The one path both functions use for `url`. */
    function CachePath(url: string): string
      requires cacheDirectoryURL.Some?
    {
      FilePath(cacheDirectoryURL.value, CacheFileName(sha256, url))
    }

    /** `getCachedImageURL(for:)`: the cached file's path if it exists. It throws
        `cacheDirectoryURLUnavailable` without a directory and `imageNotFound` iff the file is
        absent; it never returns nil. */
    function GetCachedImageURL(url: string): (r: Result<Option<string>, Error>)
      reads this
      ensures r.Success? <==> cacheDirectoryURL.Some? && CachePath(url) in files
      ensures r.Success? ==> r.value == Some(CachePath(url))
      ensures cacheDirectoryURL.None? ==> r == Failure(ImageCaching(CacheDirectoryURLUnavailable))
      ensures cacheDirectoryURL.Some? && CachePath(url) !in files ==> r == Failure(ImageCaching(ImageNotFound))
    {
      match cacheDirectoryURL
      case None => Failure(ImageCaching(CacheDirectoryURLUnavailable))
      case Some(directory) =>
        var fileURL := FilePath(directory, CacheFileName(sha256, url));
        if fileURL !in files then Failure(ImageCaching(ImageNotFound)) else Success(Some(fileURL))
    }

    /** `cacheImage(for:)`. `transport` is what the download would receive and `write` what the
        file system does with the write; `downloaded` tells whether a download was started. A
        cached file is returned without downloading; otherwise the image is downloaded and
        written to the same path `getCachedImageURL` reads. A written file whose attributes
        could not be set stays on disk although the call throws. */
    method CacheImage(url: string, transport: TransportOutcome, write: WriteOutcome)
      returns (r: Result<Option<string>, Error>, downloaded: bool)
      modifies this
      ensures r != Success(None)
      ensures r.Success? ==> GetCachedImageURL(url) == r
      ensures cacheDirectoryURL.None? ==>
        r == Failure(ImageCaching(CacheDirectoryURLUnavailable)) && !downloaded && files == old(files)
      ensures old(GetCachedImageURL(url)).Success? ==>
        r == old(GetCachedImageURL(url)) && !downloaded && files == old(files)
      ensures downloaded <==> cacheDirectoryURL.Some? && old(GetCachedImageURL(url)).Failure?
      ensures downloaded && DownloadImage(transport).Failure? ==>
        r == Failure(ImageCaching(DownloadImageFailed)) && files == old(files)
      ensures downloaded && DownloadImage(transport).Success? && write == WriteFailed ==>
        r == Failure(ImageCaching(ImageCachingFailed)) && files == old(files)
      ensures downloaded && DownloadImage(transport).Success? && write == AttributesFailed ==>
        r == Failure(ImageCaching(ImageCachingFailed)) &&
        files == old(files)[CachePath(url) := DownloadImage(transport).value]
      ensures downloaded && DownloadImage(transport).Success? && write == Written ==>
        r == Success(Some(CachePath(url))) &&
        files == old(files)[CachePath(url) := DownloadImage(transport).value]
    {
      downloaded := false;
      if cacheDirectoryURL.None? {
        r := Failure(ImageCaching(CacheDirectoryURLUnavailable));
        return;
      }
      var cached := GetCachedImageURL(url);
      if cached.Success? {
        r := cached;
        return;
      }
      downloaded := true;
      var data := DownloadImage(transport);
      if data.Failure? {
        r := Failure(ImageCaching(DownloadImageFailed));
        return;
      }
      var fileURL := FilePath(cacheDirectoryURL.value, CacheFileName(sha256, url));
      if write == WriteFailed {
        r := Failure(ImageCaching(ImageCachingFailed));
        return;
      }
      files := files[fileURL := data.value];
      if write == AttributesFailed {
        r := Failure(ImageCaching(ImageCachingFailed));
      } else {
        r := Success(Some(fileURL));
      }
    }
  }

  /** Caching the same URL twice: the second call finds the first call's file and downloads
      nothing, whatever its own download and write would have done. */
  method CacheTwice(m: ImageCachingManager, url: string,
                    t1: TransportOutcome, w1: WriteOutcome, t2: TransportOutcome, w2: WriteOutcome)
    returns (first: Result<Option<string>, Error>, second: Result<Option<string>, Error>, secondDownloaded: bool)
    modifies m
    ensures first.Success? ==>
      second == first && !secondDownloaded && m.cacheDirectoryURL.Some? && m.CachePath(url) in m.files
  {
    var firstDownloaded;
    first, firstDownloaded := m.CacheImage(url, t1, w1);
    second, secondDownloaded := m.CacheImage(url, t2, w2);
  }
}
