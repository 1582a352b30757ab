/** The photo record, its equality and hash, and the fields a decoded record is built from
    (PhotoModel.swift), together with the response page that carries the records. */
module Models {
  import opened Base

  /** `LoadingStatus` of PhotoCollectionViewModel.swift. */
  datatype LoadingStatus = Ready | Loading | Loaded

  /** `URLs`: the remote addresses of one photo by size. */
  datatype URLs = URLs(raw: string, full: string, regular: string, small: string, thumb: string, smallS3: string)

  /** `PhotoModel`. The fields up to `urls` are the immutable metadata; `loadingStatus` and
      `cachedImageURL` are the two mutable ones. `isPlaceholder` and `thumbnailImageURL` are used
      by the view model, so the record carries them too. */
  datatype Photo = Photo(
    id: string,
    createdAt: string,
    updatedAt: string,
    width: int,
    height: int,
    color: string,
    description: Option<string>,
    urls: URLs,
    loadingStatus: Option<LoadingStatus>,
    cachedImageURL: Option<string>,
    isPlaceholder: bool,
    thumbnailImageURL: Option<string>)

  /** `PhotoModel(id:isPlaceholder: true)`: a loading row with empty metadata. */
  function Placeholder(id: string): Photo
  {
    Photo(id, "", "", 0, 0, "", None, URLs("", "", "", "", "", ""), None, None, true, None)
  }

  /** The removal predicate the view model passes to the store, `{ $0.isPlaceholder == true }`. */
  function IsPlaceholder(p: Photo): bool
  {
    p.isPlaceholder
  }

  /** Every field except the two mutable ones is the same in `a` and `b`. */
  ghost predicate SameMetadata(a: Photo, b: Photo)
  {
    && a.id == b.id && a.createdAt == b.createdAt && a.updatedAt == b.updatedAt
    && a.width == b.width && a.height == b.height && a.color == b.color
    && a.description == b.description && a.urls == b.urls
    && a.isPlaceholder == b.isPlaceholder && a.thumbnailImageURL == b.thumbnailImageURL
  }

  /** The `==` operator of `PhotoModel`. */
  predicate Equal(a: Photo, b: Photo)
  {
    a.id == b.id && a.cachedImageURL == b.cachedImageURL && a.loadingStatus == b.loadingStatus
  }

  /** One value passed to `hasher.combine`. */
  datatype HashComponent =
    | IdComponent(id: string)
    | CachedURLComponent(url: Option<string>)
    | StatusComponent(status: Option<LoadingStatus>)

  /** `hash(into:)`: the values combined into the hasher, in order. Whatever the hasher does with
      them, the final hash value is a function of this sequence. */
  function HashInput(p: Photo): seq<HashComponent>
  {
    [IdComponent(p.id), CachedURLComponent(p.cachedImageURL), StatusComponent(p.loadingStatus)]
  }

  /** `==` is an equivalence relation. */
  lemma EqualIsEquivalence(a: Photo, b: Photo, c: Photo)
    ensures Equal(a, a)
    ensures Equal(a, b) ==> Equal(b, a)
    ensures Equal(a, b) && Equal(b, c) ==> Equal(a, c)
  {
  }

  /** Records that differ only in metadata are equal; equality implies the same id; the same id
      with a different cache state is unequal. */
  lemma EqualIgnoresMetadata(a: Photo, b: Photo)
    ensures a.id == b.id && a.cachedImageURL == b.cachedImageURL && a.loadingStatus == b.loadingStatus ==> Equal(a, b)
    ensures Equal(a, b) ==> a.id == b.id
    ensures a.id == b.id && (a.loadingStatus != b.loadingStatus || a.cachedImageURL != b.cachedImageURL) ==> !Equal(a, b)
  {
  }

  /** The hasher is fed exactly the compared fields: two records are equal exactly when they feed
      the hasher the same values, so equal records hash alike under every hasher. */
  lemma EqualIffSameHashInput(a: Photo, b: Photo, hasher: seq<HashComponent> -> int)
    ensures Equal(a, b) <==> HashInput(a) == HashInput(b)
    ensures Equal(a, b) ==> hasher(HashInput(a)) == hasher(HashInput(b))
  {
    if HashInput(a) == HashInput(b) {
      assert HashInput(a)[0] == HashInput(b)[0];
      assert HashInput(a)[1] == HashInput(b)[1];
      assert HashInput(a)[2] == HashInput(b)[2];
    }
  }

  /** The update `cacheImage` makes: set `cachedImageURL` and mark the record `.loaded`. Only the
      two mutable fields change. */
  function WithCachedImage(p: Photo, url: string): (r: Photo)
    ensures SameMetadata(p, r)
    ensures r.cachedImageURL == Some(url) && r.loadingStatus == Some(Loaded)
  {
    p.(cachedImageURL := Some(url), loadingStatus := Some(Loaded))
  }

  /** Caching changes the record's `==` identity unless it was already cached at that URL. */
  lemma WithCachedImageEqual(p: Photo, url: string)
    ensures Equal(p, WithCachedImage(p, url)) <==> p.cachedImageURL == Some(url) && p.loadingStatus == Some(Loaded)
  {
  }

  // ----- decoding -----

  /** A decoded JSON value. */
  datatype Json =
    | JNull
    | JBool(b: bool)
    | JNumber(n: int)
    | JString(s: string)
    | JArray(items: seq<Json>)
    | JObject(members: map<string, Json>)

  /** The keys of `PhotoModel.CodingKeys`, as they appear in the JSON. */
  const PhotoCodingKeys: set<string> :=
    {"id", "created_at", "updated_at", "width", "height", "color", "description", "urls"}

  /** The keys of `URLs.CodingKeys`. */
  const URLsCodingKeys: set<string> := {"raw", "full", "regular", "small", "thumb", "small_s3"}

  function StringMember(m: map<string, Json>, key: string): Option<string>
  {
    if key in m && m[key].JString? then Some(m[key].s) else None
  }

  function IntMember(m: map<string, Json>, key: string): Option<int>
  {
    if key in m && m[key].JNumber? then Some(m[key].n) else None
  }

  /** `decodeIfPresent` for a `String?`: an absent key or `null` gives `nil`; a string gives it;
      anything else is a type mismatch (outer `None`). */
  function OptionalStringMember(m: map<string, Json>, key: string): Option<Option<string>>
  {
    if key !in m || m[key].JNull? then Some(None)
    else if m[key].JString? then Some(Some(m[key].s))
    else None
  }

  /** Keeps only the members named in `keys`. */
  function Restrict(m: map<string, Json>, keys: set<string>): (r: map<string, Json>)
    ensures r.Keys == m.Keys * keys
    ensures forall k :: k in r ==> r[k] == m[k]
  {
    map k | k in m && k in keys :: m[k]
  }

  function DecodeURLs(j: Json): Option<URLs>
  {
    if !j.JObject? then None
    else
      var m := j.members;
      if StringMember(m, "raw").Some? && StringMember(m, "full").Some? && StringMember(m, "regular").Some?
         && StringMember(m, "small").Some? && StringMember(m, "thumb").Some? && StringMember(m, "small_s3").Some?
      then Some(URLs(StringMember(m, "raw").value, StringMember(m, "full").value, StringMember(m, "regular").value,
                     StringMember(m, "small").value, StringMember(m, "thumb").value, StringMember(m, "small_s3").value))
      else None
  }

  /** The synthesized `init(from:)` of `PhotoModel`: only the coded keys are read, so a decoded
      record has no loading status and no cached image URL. */
  function DecodePhoto(j: Json): (r: Option<Photo>)
    ensures r.Some? ==> j.JObject?
    ensures r.Some? ==> r.value.loadingStatus.None? && r.value.cachedImageURL.None?
    ensures r.Some? ==> !r.value.isPlaceholder && r.value.thumbnailImageURL.None?
    ensures r.Some? ==> StringMember(j.members, "id") == Some(r.value.id)
                        && IntMember(j.members, "width") == Some(r.value.width)
                        && IntMember(j.members, "height") == Some(r.value.height)
                        && OptionalStringMember(j.members, "description") == Some(r.value.description)
    ensures j.JObject? && StringMember(j.members, "id").None? ==> r.None?
  {
    if !j.JObject? then None
    else
      var m := j.members;
      var id := StringMember(m, "id");
      var createdAt := StringMember(m, "created_at");
      var updatedAt := StringMember(m, "updated_at");
      var width := IntMember(m, "width");
      var height := IntMember(m, "height");
      var color := StringMember(m, "color");
      var description := OptionalStringMember(m, "description");
      var urls := if "urls" in m then DecodeURLs(m["urls"]) else None;
      if id.Some? && createdAt.Some? && updatedAt.Some? && width.Some? && height.Some? && color.Some?
         && description.Some? && urls.Some?
      then Some(Photo(id.value, createdAt.value, updatedAt.value, width.value, height.value, color.value,
                      description.value, urls.value, None, None, false, None))
      else None
  }

  /** Members outside `CodingKeys` (a `loadingStatus` or `cachedImageURL` key among them) have
      no effect on the decoded record. */
  lemma DecodeReadsOnlyCodingKeys(m: map<string, Json>)
    ensures DecodePhoto(JObject(m)) == DecodePhoto(JObject(Restrict(m, PhotoCodingKeys)))
  {
    var r := Restrict(m, PhotoCodingKeys);
    assert {"id", "created_at", "updated_at", "width", "height", "color", "description", "urls"} <= PhotoCodingKeys;
    assert StringMember(m, "id") == StringMember(r, "id");
    assert StringMember(m, "created_at") == StringMember(r, "created_at");
    assert StringMember(m, "updated_at") == StringMember(r, "updated_at");
    assert IntMember(m, "width") == IntMember(r, "width");
    assert IntMember(m, "height") == IntMember(r, "height");
    assert StringMember(m, "color") == StringMember(r, "color");
    assert OptionalStringMember(m, "description") == OptionalStringMember(r, "description");
    assert ("urls" in m) == ("urls" in r);
  }

  /** `PhotosResponseModel`, named by the fields the view model reads: `photos` is the decoded
      `results` array and `pages` the decoded `total_pages`. */
  datatype PhotosResponse = PhotosResponse(total: int, pages: int, photos: seq<Photo>)

  /** Decodes every element of a `results` array; one bad element fails the whole array. */
  function DecodePhotos(items: seq<Json>): (r: Option<seq<Photo>>)
    ensures r.Some? ==> |r.value| == |items| && forall i :: 0 <= i < |items| ==> DecodePhoto(items[i]) == Some(r.value[i])
    ensures r.None? ==> exists i :: 0 <= i < |items| && DecodePhoto(items[i]).None?
  {
    if items == [] then Some([])
    else
      var head := DecodePhoto(items[0]);
      var tail := DecodePhotos(items[1..]);
      if head.None? then None
      else if tail.None? then
        assert exists i :: 0 <= i < |items[1..]| && DecodePhoto(items[1..][i]).None?;
        var i :| 0 <= i < |items[1..]| && DecodePhoto(items[1..][i]).None?;
        assert DecodePhoto(items[i + 1]).None?;
        None
      else Some([head.value] + tail.value)
  }

  /** `PhotosResponseModel.init(from:)`, with keys `total`, `total_pages` and `results`. */
  function DecodeResponse(j: Json): (r: Option<PhotosResponse>)
  {
    if !j.JObject? then None
    else
      var m := j.members;
      if IntMember(m, "total").Some? && IntMember(m, "total_pages").Some? && "results" in m && m["results"].JArray?
      then
        var photos := DecodePhotos(m["results"].items);
        if photos.Some? then Some(PhotosResponse(IntMember(m, "total").value, IntMember(m, "total_pages").value, photos.value))
        else None
      else None
  }

  /** A decoded page holds no placeholder and no cached record: the view model can rely on that
      when it removes placeholders and merges the page. */
  lemma DecodedResponseIsUncached(j: Json)
    requires DecodeResponse(j).Some?
    ensures var r := DecodeResponse(j).value;
      |r.photos| == |j.members["results"].items|
      && forall p :: p in r.photos ==> !p.isPlaceholder && p.loadingStatus.None? && p.cachedImageURL.None?
  {
    var items := j.members["results"].items;
    var ps := DecodePhotos(items).value;
    forall p | p in ps
      ensures !p.isPlaceholder && p.loadingStatus.None? && p.cachedImageURL.None?
    {
      var i :| 0 <= i < |ps| && ps[i] == p;
      assert DecodePhoto(items[i]) == Some(p);
    }
  }
}
