/** `PhotoCollectionViewModel` (PhotoCollectionViewModel.swift): the paginated fetch of one query,
    the placeholder rows shown while the first page loads, and the two ways of caching images
    (one background task per photo, or one batch before the page is merged).

    The collaborators are oracles: `fetch` is what `photoService.fetchPhotos` returns or throws
    for a query, a page number and a page size; `cacheImage` what `imageCachingManager.cacheImage`
    returns or throws for a URL; `isValidURL` whether `URL(string:)` accepts a string. The
    publishers are append-only logs of what was sent. */
module ViewModel {
  import opened Base
  import opened Errors
  import opened Models
  import opened Storage
  import opened TaskRegistry

  // ----- `Query` -----

  datatype Query = Dogs | Cats | Search(keyword: string)

  /** `rawValue`. */
  function RawValue(q: Query): string
  {
    match q
    case Dogs => "dogs"
    case Cats => "cats"
    case Search(keyword) => keyword
  }

  /** `init?(rawValue:)`: never fails, and printing the result gives the input back. */
  function QueryFromRawValue(s: string): (q: Option<Query>)
    ensures q.Some? && RawValue(q.value) == s
  {
    if s == "dogs" then Some(Dogs) else if s == "cats" then Some(Cats) else Some(Search(s))
  }

  /** Parsing a printed query gives it back except for the two searches whose keyword is a
      reserved word; those come back as the fixed queries. */
  lemma QueryRoundTrip(q: Query)
    ensures QueryFromRawValue(RawValue(q)) == Some(q) <==> q != Search("dogs") && q != Search("cats")
    ensures q == Search("dogs") ==> QueryFromRawValue(RawValue(q)) == Some(Dogs)
    ensures q == Search("cats") ==> QueryFromRawValue(RawValue(q)) == Some(Cats)
  {
  }

  // ----- the page cursor of `handleResponse` -----

  /** `perPage`. */
  const PerPage: int := 21

  datatype Cursor = Cursor(pageNumber: int, fetchNext: bool)

  /** The cursor update after a non-empty page of a response reporting `pages` pages. */
  function AdvanceCursor(c: Cursor, pages: int): (r: Cursor)
    ensures r.pageNumber == c.pageNumber || r.pageNumber == c.pageNumber + 1
    ensures r.pageNumber == c.pageNumber + 1 <==> c.pageNumber + 1 < pages
    ensures r.fetchNext <==> r.pageNumber < pages
  {
    var n := if c.pageNumber + 1 < pages then c.pageNumber + 1 else c.pageNumber;
    Cursor(n, n < pages)
  }

  /** The cursor after `k` non-empty pages of a query reporting `pages` pages each time,
      starting from the initial `pageNumber = 1`, `fetchNext = true`. */
  function Run(pages: int, k: nat): Cursor
  {
    if k == 0 then Cursor(1, true) else AdvanceCursor(Run(pages, k - 1), pages)
  }

  /** The cursor climbs one page per response up to `pages - 1` and stays there with `fetchNext`
      still set: the last page is never requested, and page `pages - 1` is requested again and
      again. With fewer than two pages it stays on page 1 and stops fetching. */
  lemma {:induction false} RunNeverReachesLastPage(pages: int, k: nat)
    ensures Run(pages, k).pageNumber == if pages <= 2 then 1 else if 1 + k < pages - 1 then 1 + k else pages - 1
    ensures k > 0 ==> (Run(pages, k).fetchNext <==> pages >= 2)
    ensures Run(pages, k).pageNumber < pages || pages <= 1
  {
    if k > 0 {
      RunNeverReachesLastPage(pages, k - 1);
    }
  }

  // ----- placeholders -----

  function Placeholders(uuids: seq<string>): seq<Photo>
    requires |uuids| >= PerPage
  {
    seq(PerPage, i requires 0 <= i < PerPage => Placeholder(uuids[i]))
  }

  /** The placeholder loop of `getPhotos`: `perPage` records, each a placeholder with the next
      UUID as its id. */
  method MakePlaceholders(uuids: seq<string>) returns (ps: seq<Photo>)
    requires |uuids| >= PerPage
    ensures |ps| == PerPage
    ensures forall i :: 0 <= i < PerPage ==> ps[i].isPlaceholder && ps[i].id == uuids[i]
    ensures ps == Placeholders(uuids)
  {
    ps := [];
    for i := 0 to PerPage
      invariant ps == Placeholders(uuids)[..i]
    {
      ps := ps + [Placeholder(uuids[i])];
    }
  }

  /** `UUID()` never repeats itself. */
  ghost predicate DistinctUUIDs(uuids: seq<string>)
    requires |uuids| >= PerPage
  {
    forall i, j :: 0 <= i < j < PerPage ==> uuids[i] != uuids[j]
  }

  /** The UUIDs the placeholder loop consumes. */
  function UUIDSet(uuids: seq<string>): set<string>
    requires |uuids| >= PerPage
  {
    set i | 0 <= i < PerPage :: uuids[i]
  }

  /** Either every record is a placeholder or none is. */
  ghost predicate AllOrNoPlaceholders(ps: seq<Photo>)
  {
    (forall i :: 0 <= i < |ps| ==> ps[i].isPlaceholder) || (forall i :: 0 <= i < |ps| ==> !ps[i].isPlaceholder)
  }

  /** The store after the placeholder step: filled when it was empty, as it was otherwise. */
  function Filled(s: Store, uuids: seq<string>): Store
    requires |uuids| >= PerPage
  {
    if |s.photos| == 0 then AddAll(s, Placeholders(uuids)) else s
  }

  /** What the placeholder step publishes. */
  function FillLog(s: Store, uuids: seq<string>): seq<seq<Photo>>
    requires |uuids| >= PerPage
  {
    if |s.photos| == 0 then [Filled(s, uuids).photos] else []
  }

  /** Adding the placeholders to an empty store gives exactly `perPage` placeholder rows, indexed
      by their UUIDs. */
  lemma FillWithPlaceholders(s: Store, uuids: seq<string>)
    requires Valid(s) && |s.photos| == 0 && |uuids| >= PerPage && DistinctUUIDs(uuids)
    ensures Filled(s, uuids).photos == Placeholders(uuids)
    ensures |Filled(s, uuids).photos| == PerPage
    ensures forall i :: 0 <= i < PerPage ==> Filled(s, uuids).photos[i].isPlaceholder
    ensures Valid(Filled(s, uuids))
  {
    var ps := Placeholders(uuids);
    ValidHasDistinctIds(s);
    assert IdSet(ps) !! s.indexMap.Keys;
    AddAllFreshAppends(s, ps);
    AddAllValid(s, ps);
  }

  // ----- merging a page -----

  /** `removePhotos(where: isPlaceholder)` followed by `addPhotos(toAdd)`. */
  function Merge(s: Store, toAdd: seq<Photo>): Store
  {
    AddAll(RemoveWhere(s, IsPlaceholder), toAdd)
  }

  /** Merging a page of real records into a store that holds only placeholders or none keeps the
      index invariant and leaves no placeholder, the merged store holds only the surviving records
      and the page, and every id of the page is in it. */
  lemma MergeValid(s: Store, toAdd: seq<Photo>)
    requires Valid(s) && AllOrNoPlaceholders(s.photos)
    requires forall i :: 0 <= i < |toAdd| ==> !toAdd[i].isPlaceholder
    ensures Valid(Merge(s, toAdd))
    ensures forall i :: 0 <= i < |Merge(s, toAdd).photos| ==> !Merge(s, toAdd).photos[i].isPlaceholder
    ensures forall p :: p in Merge(s, toAdd).photos ==> (p in s.photos && !p.isPlaceholder) || p in toAdd
    ensures IdSet(toAdd) <= IdSet(Merge(s, toAdd).photos)
  {
    var f: Photo -> bool := IsPlaceholder;
    assert RemovedFormSuffix(s.photos, f);
    RemoveWhereValidIffSuffix(s, f);
    var r := RemoveWhere(s, IsPlaceholder);
    RemoveWhereLeavesNoMatch(s, f);
    AddAllValid(r, toAdd);
    AddAllElements(r, toAdd);
    ValidHasDistinctIds(r);
    AddAllIndexesInputs(r, toAdd);
    ValidHasDistinctIds(Merge(s, toAdd));
    forall i | 0 <= i < |Merge(s, toAdd).photos|
      ensures !Merge(s, toAdd).photos[i].isPlaceholder
    {
      var p := Merge(s, toAdd).photos[i];
      assert p in r.photos || p in toAdd;
    }
  }

  // ----- `cacheImages` -----

  /** The thumbnail URL exists and `URL(string:)` accepts it, so a caching task is started. */
  predicate HasCacheableURL(p: Photo, isValidURL: string -> bool)
  {
    p.thumbnailImageURL.Some? && isValidURL(p.thumbnailImageURL.value)
  }

  /** The batch read in input order: the first throw aborts it, a nil result drops the record,
      a URL marks it cached. */
  function BatchCached(ps: seq<Photo>, isValidURL: string -> bool,
                       cacheImage: string -> Result<Option<string>, Error>): Result<seq<Photo>, Error>
    decreases |ps|
  {
    if ps == [] then Success([])
    else
      match BatchCached(ps[..|ps| - 1], isValidURL, cacheImage)
      case Failure(e) => Failure(e)
      case Success(acc) =>
        var p := ps[|ps| - 1];
        if !HasCacheableURL(p, isValidURL) then Success(acc)
        else
          match cacheImage(p.thumbnailImageURL.value)
          case Failure(e) => Failure(e)
          case Success(None) => Success(acc)
          case Success(Some(u)) => Success(acc + [WithCachedImage(p, u)])
  }

  /** `q` is an input with a cacheable URL, marked cached with the URL the cache returned. */
  ghost predicate CachedFrom(q: Photo, ps: seq<Photo>, isValidURL: string -> bool,
                             cacheImage: string -> Result<Option<string>, Error>)
  {
    exists i :: 0 <= i < |ps| && HasCacheableURL(ps[i], isValidURL) &&
      var c := cacheImage(ps[i].thumbnailImageURL.value);
      c.Success? && c.value.Some? && q == WithCachedImage(ps[i], c.value.value)
  }

  /** The batch throws exactly when one of the started caching calls throws, and then with that
      call's error. */
  lemma {:induction false} BatchCachedFails(ps: seq<Photo>, isValidURL: string -> bool,
                                            cacheImage: string -> Result<Option<string>, Error>)
    ensures BatchCached(ps, isValidURL, cacheImage).Failure? <==>
      exists i :: 0 <= i < |ps| && HasCacheableURL(ps[i], isValidURL) && cacheImage(ps[i].thumbnailImageURL.value).Failure?
    ensures BatchCached(ps, isValidURL, cacheImage).Failure? ==>
      exists i :: 0 <= i < |ps| && HasCacheableURL(ps[i], isValidURL) &&
        cacheImage(ps[i].thumbnailImageURL.value) == Failure(BatchCached(ps, isValidURL, cacheImage).error)
    decreases |ps|
  {
    if ps != [] {
      var init := ps[..|ps| - 1];
      BatchCachedFails(init, isValidURL, cacheImage);
      forall i | 0 <= i < |init|
        ensures init[i] == ps[i]
      {
      }
    }
  }

  /** A completed batch holds exactly the inputs whose caching call returned a URL, each marked
      cached with that URL and `.loaded`; inputs without a usable thumbnail URL or with a nil
      result are dropped. */
  lemma {:induction false} BatchCachedMembers(ps: seq<Photo>, isValidURL: string -> bool,
                                              cacheImage: string -> Result<Option<string>, Error>)
    requires BatchCached(ps, isValidURL, cacheImage).Success?
    ensures var r := BatchCached(ps, isValidURL, cacheImage).value;
      && |r| <= |ps|
      && forall q :: q in r <==> CachedFrom(q, ps, isValidURL, cacheImage)
    decreases |ps|
  {
    if ps != [] {
      var init := ps[..|ps| - 1];
      var p := ps[|ps| - 1];
      BatchCachedMembers(init, isValidURL, cacheImage);
      var r := BatchCached(ps, isValidURL, cacheImage).value;
      var acc := BatchCached(init, isValidURL, cacheImage).value;
      forall q | q in r
        ensures CachedFrom(q, ps, isValidURL, cacheImage)
      {
        if q in acc {
          var i :| 0 <= i < |init| && HasCacheableURL(init[i], isValidURL) &&
            var c := cacheImage(init[i].thumbnailImageURL.value);
            c.Success? && c.value.Some? && q == WithCachedImage(init[i], c.value.value);
          assert ps[i] == init[i];
        } else {
          assert ps[|ps| - 1] == p;
        }
      }
      forall q | CachedFrom(q, ps, isValidURL, cacheImage)
        ensures q in r
      {
        var i :| 0 <= i < |ps| && HasCacheableURL(ps[i], isValidURL) &&
          var c := cacheImage(ps[i].thumbnailImageURL.value);
          c.Success? && c.value.Some? && q == WithCachedImage(ps[i], c.value.value);
        if i < |init| {
          assert init[i] == ps[i];
          assert CachedFrom(q, init, isValidURL, cacheImage);
        }
      }
    }
  }

  /** The cached records of a batch of real records are real records, marked `.loaded`. */
  lemma BatchCachedRealRecords(ps: seq<Photo>, isValidURL: string -> bool,
                               cacheImage: string -> Result<Option<string>, Error>)
    requires BatchCached(ps, isValidURL, cacheImage).Success?
    requires forall i :: 0 <= i < |ps| ==> !ps[i].isPlaceholder
    ensures var r := BatchCached(ps, isValidURL, cacheImage).value;
      forall j :: 0 <= j < |r| ==> !r[j].isPlaceholder && r[j].loadingStatus == Some(Loaded) && r[j].id in IdSet(ps)
  {
    BatchCachedMembers(ps, isValidURL, cacheImage);
    var r := BatchCached(ps, isValidURL, cacheImage).value;
    forall j | 0 <= j < |r|
      ensures !r[j].isPlaceholder && r[j].loadingStatus == Some(Loaded) && r[j].id in IdSet(ps)
    {
      assert r[j] in r;
      assert CachedFrom(r[j], ps, isValidURL, cacheImage);
    }
  }

  lemma {:induction false} BatchCachedPrefixFails(ps: seq<Photo>, k: nat, isValidURL: string -> bool,
                                                  cacheImage: string -> Result<Option<string>, Error>)
    requires k <= |ps| && BatchCached(ps[..k], isValidURL, cacheImage).Failure?
    ensures BatchCached(ps, isValidURL, cacheImage) == BatchCached(ps[..k], isValidURL, cacheImage)
    decreases |ps| - k
  {
    if k < |ps| {
      assert ps[..k + 1][..k] == ps[..k];
      BatchCachedPrefixFails(ps, k + 1, isValidURL, cacheImage);
    } else {
      assert ps[..k] == ps;
    }
  }

  /** `cacheImages(photoModels:)`, with the task group's results read in input order. */
  method CacheImages(photoModels: seq<Photo>, isValidURL: string -> bool,
                     cacheImage: string -> Result<Option<string>, Error>) returns (r: Result<seq<Photo>, Error>)
    ensures r == BatchCached(photoModels, isValidURL, cacheImage)
  {
    var retVal: seq<Photo> := [];
    for k := 0 to |photoModels|
      invariant BatchCached(photoModels[..k], isValidURL, cacheImage) == Success(retVal)
    {
      var p := photoModels[k];
      assert photoModels[..k + 1][..k] == photoModels[..k];
      if HasCacheableURL(p, isValidURL) {
        var c := cacheImage(p.thumbnailImageURL.value);
        if c.Failure? {
          BatchCachedPrefixFails(photoModels, k + 1, isValidURL, cacheImage);
          return Failure(c.error);
        }
        if c.value.Some? {
          retVal := retVal + [WithCachedImage(p, c.value.value)];
        }
      }
    }
    assert photoModels[..|photoModels|] == photoModels;
    r := Success(retVal);
  }

  /** The first record of `xs` with id `id`. */
  function FirstWithId(xs: seq<Photo>, id: string): (p: Photo)
    requires id in IdSet(xs)
    ensures p in xs && p.id == id
    decreases |xs|
  {
    var init := xs[..|xs| - 1];
    if id in IdSet(init) then
      var p := FirstWithId(init, id);
      assert p in xs by { assert forall q :: q in init ==> q in xs; }
      p
    else
      assert xs[|xs| - 1].id == id by {
        forall i | 0 <= i < |xs| - 1
          ensures xs[i].id != id
        {
          assert init[i] == xs[i];
        }
      }
      xs[|xs| - 1]
  }

  /** Appending a record does not change the first record of an id already present, and makes
      the record the first of its id otherwise. */
  lemma FirstWithIdSnoc(xs: seq<Photo>, x: Photo)
    ensures forall id :: id in IdSet(xs) ==> id in IdSet(xs + [x]) && FirstWithId(xs + [x], id) == FirstWithId(xs, id)
    ensures x.id in IdSet(xs + [x]) && (x.id !in IdSet(xs) ==> FirstWithId(xs + [x], x.id) == x)
  {
    IdSetSnoc(xs, x);
    assert (xs + [x])[..|xs|] == xs;
  }

  // ----- the view model -----

  /** The plain fields of the view model, compared before and after a call. */
  datatype Fields = Fields(query: Option<Query>, cursor: Cursor, loadingStatus: LoadingStatus,
                           photosLog: seq<seq<Photo>>, errorLog: seq<Error>)

  class PhotoCollectionViewModel {
    var query: Option<Query>
    var pageNumber: int
    var fetchNext: bool
    const batchCaching: bool
    /** The current value of `loadingStatus`. */
    var loadingStatus: LoadingStatus
    /** Every array `photosPublisher` sent, oldest first. */
    var photosLog: seq<seq<Photo>>
    /** Every error `errorPublisher` sent, oldest first. */
    var errorLog: seq<Error>
    const photoStorage: PhotoStorage
    const cacheTaskStore: CacheTaskStore
    /** The UUIDs given to placeholders so far; real ids never collide with them. */
    ghost var placeholderIds: set<string>
    /** Every caching task started so far. */
    ghost var spawned: set<CacheTask>

    function FieldValues(): Fields
      reads this
    {
      Fields(query, Cursor(pageNumber, fetchNext), loadingStatus, photosLog, errorLog)
    }

    /** The invariant: the store keeps its index invariant and holds only placeholders or none,
        placeholders carry placeholder UUIDs, and each registered task is a started task for a real
        record whose id is its key. */
    ghost predicate Valid()
      reads this, photoStorage, cacheTaskStore
    {
      && Storage.Valid(photoStorage.View())
      && AllOrNoPlaceholders(photoStorage.photos)
      && (forall i :: 0 <= i < |photoStorage.photos| && photoStorage.photos[i].isPlaceholder ==>
            photoStorage.photos[i].id in placeholderIds)
      && (forall t :: t in spawned ==> !t.photo.isPlaceholder && t.photo.id !in placeholderIds)
      && (forall id :: id in cacheTaskStore.tasks ==> cacheTaskStore.tasks[id] in spawned && cacheTaskStore.tasks[id].photo.id == id)
    }

    /** `init`: page 1, fetching on, status `.ready`, nothing published, empty store and registry. */
    constructor (batchCaching: bool, query: Option<Query>)
      ensures Valid()
      ensures this.batchCaching == batchCaching
      ensures FieldValues() == Fields(query, Cursor(1, true), Ready, [], [])
      ensures photoStorage.photos == [] && photoStorage.indexMap == map[] && cacheTaskStore.tasks == map[]
      ensures placeholderIds == {} && spawned == {}
      ensures fresh(photoStorage) && fresh(cacheTaskStore)
    {
      this.query := query;
      pageNumber := 1;
      fetchNext := true;
      this.batchCaching := batchCaching;
      loadingStatus := Ready;
      photosLog := [];
      errorLog := [];
      photoStorage := new PhotoStorage();
      cacheTaskStore := new CacheTaskStore();
      placeholderIds := {};
      spawned := {};
    }

    /** The guard of `getPhotos`. */
    predicate CanFetch()
      reads this
    {
      query.Some? && fetchNext && loadingStatus == Ready
    }

    /** `addPhotos(_:)`: upsert into the store, then publish the new array. */
    method AddPhotos(photos: seq<Photo>)
      requires Storage.Valid(photoStorage.View())
      modifies photoStorage
      ensures photoStorage.View() == AddAll(old(photoStorage.View()), photos)
      ensures photosLog == old(photosLog) && Storage.Valid(photoStorage.View())
    {
      ValidHasDistinctIds(photoStorage.View());
      AddAllValid(photoStorage.View(), photos);
      photoStorage.AddPhotos(photos);
    }

    /** The publishing half of `addPhotos(_:)` and `updatePhotos(index:photo:)`. */
    method Publish()
      requires Valid()
      modifies this
      ensures Valid()
      ensures photosLog == old(photosLog) + [photoStorage.photos]
      ensures query == old(query) && pageNumber == old(pageNumber) && fetchNext == old(fetchNext)
      ensures loadingStatus == old(loadingStatus) && errorLog == old(errorLog)
      ensures placeholderIds == old(placeholderIds) && spawned == old(spawned)
    {
      var updated := photoStorage.GetPhotos();
      photosLog := photosLog + [updated];
    }

    /** One iteration of the registration loop. */
    method RegisterCacheTask(photo: Photo)
      requires Valid()
      requires !photo.isPlaceholder && photo.id !in placeholderIds
      modifies this, cacheTaskStore
      ensures Valid()
      ensures FieldValues() == old(FieldValues()) && placeholderIds == old(placeholderIds)
      ensures photo.id in old(cacheTaskStore.tasks) ==> cacheTaskStore.tasks == old(cacheTaskStore.tasks)
      ensures photo.id !in old(cacheTaskStore.tasks) ==>
        && photo.id in cacheTaskStore.tasks
        && cacheTaskStore.tasks == old(cacheTaskStore.tasks)[photo.id := cacheTaskStore.tasks[photo.id]]
        && fresh(cacheTaskStore.tasks[photo.id]) && !cacheTaskStore.tasks[photo.id].isCancelled
        && cacheTaskStore.tasks[photo.id].photo == photo
      ensures forall t :: t in spawned ==> t in old(spawned) || t.photo == photo
    {
      var existing := cacheTaskStore.TaskFor(photo.id);
      if existing == null {
        var cacheTask := new CacheTask(photo);
        spawned := spawned + {cacheTask};
        cacheTaskStore.Add(cacheTask, photo.id);
      }
    }

    /** The registration loop's step from `photos[..k]` to `photos[..k + 1]`. */
    method RegisterNext(photos: seq<Photo>, k: int, ghost tasks0: map<string, CacheTask>)
      requires Valid() && 0 <= k < |photos|
      requires !photos[k].isPlaceholder && photos[k].id !in placeholderIds
      requires cacheTaskStore.tasks.Keys == tasks0.Keys + IdSet(photos[..k])
      requires forall id :: id in tasks0 ==> cacheTaskStore.tasks[id] == tasks0[id]
      requires forall id :: id in cacheTaskStore.tasks && id !in tasks0 ==>
        !cacheTaskStore.tasks[id].isCancelled &&
        id in IdSet(photos[..k]) && cacheTaskStore.tasks[id].photo == FirstWithId(photos[..k], id)
      modifies this, cacheTaskStore
      ensures Valid()
      ensures FieldValues() == old(FieldValues()) && placeholderIds == old(placeholderIds)
      ensures cacheTaskStore.tasks.Keys == tasks0.Keys + IdSet(photos[..k + 1])
      ensures forall id :: id in tasks0 ==> cacheTaskStore.tasks[id] == tasks0[id]
      ensures forall id :: id in cacheTaskStore.tasks && id !in old(cacheTaskStore.tasks) ==> fresh(cacheTaskStore.tasks[id])
      ensures forall id :: id in old(cacheTaskStore.tasks) ==> cacheTaskStore.tasks[id] == old(cacheTaskStore.tasks)[id]
      ensures forall id :: id in cacheTaskStore.tasks && id !in tasks0 ==>
        !cacheTaskStore.tasks[id].isCancelled &&
        id in IdSet(photos[..k + 1]) && cacheTaskStore.tasks[id].photo == FirstWithId(photos[..k + 1], id)
      ensures forall t :: t in spawned ==> t in old(spawned) || t.photo == photos[k]
    {
      var photo := photos[k];
      IdSetSnoc(photos[..k], photo);
      FirstWithIdSnoc(photos[..k], photo);
      assert photos[..k + 1] == photos[..k] + [photo];
      RegisterCacheTask(photo);
    }

    /** The per-photo registration loop of `handleResponse`: a task is started and registered for
        an id only when `task(for:)` finds none, so each registered id keeps its first task and
        each new one caches the first record of the page with that id. */
    method RegisterCacheTasks(photos: seq<Photo>)
      requires Valid()
      requires forall i :: 0 <= i < |photos| ==> !photos[i].isPlaceholder && photos[i].id !in placeholderIds
      modifies this, cacheTaskStore
      ensures Valid()
      ensures FieldValues() == old(FieldValues()) && placeholderIds == old(placeholderIds)
      ensures cacheTaskStore.tasks.Keys == old(cacheTaskStore.tasks).Keys + IdSet(photos)
      ensures forall id :: id in old(cacheTaskStore.tasks) ==> cacheTaskStore.tasks[id] == old(cacheTaskStore.tasks)[id]
      ensures forall id :: id in cacheTaskStore.tasks && id !in old(cacheTaskStore.tasks) ==>
        fresh(cacheTaskStore.tasks[id]) && !cacheTaskStore.tasks[id].isCancelled &&
        cacheTaskStore.tasks[id].photo == FirstWithId(photos, id)
      ensures forall t :: t in spawned ==> t in old(spawned) || t.photo.id in IdSet(photos)
    {
      ghost var tasks0 := cacheTaskStore.tasks;
      for k := 0 to |photos|
        invariant Valid()
        invariant FieldValues() == old(FieldValues()) && placeholderIds == old(placeholderIds)
        invariant cacheTaskStore.tasks.Keys == tasks0.Keys + IdSet(photos[..k])
        invariant forall id :: id in tasks0 ==> cacheTaskStore.tasks[id] == tasks0[id]
        invariant forall id :: id in cacheTaskStore.tasks && id !in tasks0 ==> fresh(cacheTaskStore.tasks[id])
        invariant forall id :: id in cacheTaskStore.tasks && id !in tasks0 ==>
          !cacheTaskStore.tasks[id].isCancelled &&
          id in IdSet(photos[..k]) && cacheTaskStore.tasks[id].photo == FirstWithId(photos[..k], id)
        invariant forall t :: t in spawned ==> t in old(spawned) || t.photo.id in IdSet(photos[..k])
      {
        RegisterNext(photos, k, tasks0);
        IdSetSnoc(photos[..k], photos[k]);
        assert photos[..k + 1] == photos[..k] + [photos[k]];
      }
      assert photos[..|photos|] == photos;
    }

    /** `removePhotos(where: { $0.isPlaceholder == true })`: with only placeholders or none in the
        store, the removal keeps the index invariant and leaves no placeholder. */
    method RemovePlaceholders()
      requires Valid()
      modifies photoStorage
      ensures Valid()
      ensures photoStorage.View() == RemoveWhere(old(photoStorage.View()), IsPlaceholder)
      ensures forall i :: 0 <= i < |photoStorage.photos| ==> !photoStorage.photos[i].isPlaceholder
    {
      var s0 := photoStorage.View();
      var f: Photo -> bool := IsPlaceholder;
      assert RemovedFormSuffix(s0.photos, f);
      RemoveWhereValidIffSuffix(s0, f);
      RemoveWhereLeavesNoMatch(s0, f);
      photoStorage.RemovePhotos(IsPlaceholder);
      forall i | 0 <= i < |photoStorage.photos|
        ensures !photoStorage.photos[i].isPlaceholder
      {
        assert photoStorage.photos[i] in RemoveWhere(s0, f).photos;
      }
    }

    /** `addPhotos(_:)` on a store without placeholders: merge real records and publish. */
    method AddRealPhotos(photos: seq<Photo>)
      requires Valid()
      requires forall i :: 0 <= i < |photoStorage.photos| ==> !photoStorage.photos[i].isPlaceholder
      requires forall i :: 0 <= i < |photos| ==> !photos[i].isPlaceholder
      modifies this, photoStorage
      ensures Valid()
      ensures photoStorage.View() == AddAll(old(photoStorage.View()), photos)
      ensures photosLog == old(photosLog) + [photoStorage.photos]
      ensures query == old(query) && Cursor(pageNumber, fetchNext) == old(Cursor(pageNumber, fetchNext))
      ensures loadingStatus == old(loadingStatus) && errorLog == old(errorLog)
      ensures placeholderIds == old(placeholderIds) && spawned == old(spawned)
    {
      var s0 := photoStorage.View();
      MergeValid(s0, photos);
      var f: Photo -> bool := IsPlaceholder;
      SelectAllOrNothing(s0.photos, f, false);
      SelectAllOrNothing(s0.photos, f, true);
      assert RemoveWhere(s0, IsPlaceholder) == s0;
      AddPhotos(photos);
      Publish();
    }

    /** The batch branch of `handleResponse`: cache the page, then merge what was cached; a throw
        is published instead and nothing is merged. */
    method MergeBatch(photos: seq<Photo>, isValidURL: string -> bool,
                      cacheImage: string -> Result<Option<string>, Error>)
      requires Valid()
      requires forall i :: 0 <= i < |photoStorage.photos| ==> !photoStorage.photos[i].isPlaceholder
      requires forall i :: 0 <= i < |photos| ==> !photos[i].isPlaceholder
      modifies this, photoStorage
      ensures Valid()
      ensures query == old(query) && Cursor(pageNumber, fetchNext) == old(Cursor(pageNumber, fetchNext))
      ensures loadingStatus == old(loadingStatus)
      ensures placeholderIds == old(placeholderIds) && spawned == old(spawned)
      ensures var b := BatchCached(photos, isValidURL, cacheImage);
        && (b.Failure? ==>
              photoStorage.View() == old(photoStorage.View()) &&
              photosLog == old(photosLog) && errorLog == old(errorLog) + [b.error])
        && (b.Success? ==>
              photoStorage.View() == AddAll(old(photoStorage.View()), b.value) &&
              photosLog == old(photosLog) + [photoStorage.photos] && errorLog == old(errorLog))
    {
      var cached := CacheImages(photos, isValidURL, cacheImage);
      if cached.Failure? {
        errorLog := errorLog + [cached.error];
      } else {
        BatchCachedRealRecords(photos, isValidURL, cacheImage);
        AddRealPhotos(cached.value);
      }
    }

    /** `handleResponse(response:)`. An empty page changes nothing. Otherwise the cursor advances,
        the placeholders are removed, and the page is merged: as it came, with a caching task
        registered per new id, or after the batch cache, whose throw is published instead and
        leaves the page out. */
    method HandleResponse(response: PhotosResponse, isValidURL: string -> bool,
                          cacheImage: string -> Result<Option<string>, Error>)
      requires Valid()
      requires forall i :: 0 <= i < |response.photos| ==>
        !response.photos[i].isPlaceholder && response.photos[i].id !in placeholderIds
      modifies this, photoStorage, cacheTaskStore
      ensures Valid()
      ensures placeholderIds == old(placeholderIds)
      ensures forall t :: t in spawned ==> t in old(spawned) || (!batchCaching && t.photo.id in IdSet(response.photos))
      ensures |response.photos| == 0 ==> unchanged(this, photoStorage, cacheTaskStore)
      ensures |response.photos| > 0 ==>
        && query == old(query) && loadingStatus == old(loadingStatus)
        && Cursor(pageNumber, fetchNext) == AdvanceCursor(old(Cursor(pageNumber, fetchNext)), response.pages)
      ensures |response.photos| > 0 && !batchCaching ==>
        && photoStorage.View() == Merge(old(photoStorage.View()), response.photos)
        && photosLog == old(photosLog) + [photoStorage.photos] && errorLog == old(errorLog)
        && cacheTaskStore.tasks.Keys == old(cacheTaskStore.tasks).Keys + IdSet(response.photos)
        && (forall id :: id in old(cacheTaskStore.tasks) ==> cacheTaskStore.tasks[id] == old(cacheTaskStore.tasks)[id])
        && (forall id :: id in cacheTaskStore.tasks && id !in old(cacheTaskStore.tasks) ==>
              fresh(cacheTaskStore.tasks[id]) && !cacheTaskStore.tasks[id].isCancelled &&
              cacheTaskStore.tasks[id].photo == FirstWithId(response.photos, id))
      ensures |response.photos| > 0 && batchCaching ==>
        && cacheTaskStore.tasks == old(cacheTaskStore.tasks)
        && var b := BatchCached(response.photos, isValidURL, cacheImage);
        && (b.Failure? ==>
              photoStorage.View() == RemoveWhere(old(photoStorage.View()), IsPlaceholder) &&
              photosLog == old(photosLog) && errorLog == old(errorLog) + [b.error])
        && (b.Success? ==>
              photoStorage.View() == Merge(old(photoStorage.View()), b.value) &&
              photosLog == old(photosLog) + [photoStorage.photos] && errorLog == old(errorLog))
    {
      if |response.photos| == 0 {
        return;
      }
      if pageNumber + 1 < response.pages {
        pageNumber := pageNumber + 1;
      }
      fetchNext := pageNumber < response.pages;

      RemovePlaceholders();
      if batchCaching {
        MergeBatch(response.photos, isValidURL, cacheImage);
      } else {
        AddRealPhotos(response.photos);
        RegisterCacheTasks(response.photos);
      }
    }

    /** The placeholder step of `getPhotos`: an empty store gets `perPage` placeholder rows,
        which are published; a non-empty store is left alone. */
    method FillPlaceholders(uuids: seq<string>)
      requires Valid()
      requires |uuids| >= PerPage && DistinctUUIDs(uuids)
      requires forall t, i :: t in spawned && 0 <= i < PerPage ==> t.photo.id != uuids[i]
      modifies this, photoStorage
      ensures Valid()
      ensures photoStorage.View() == Filled(old(photoStorage.View()), uuids)
      ensures photosLog == old(photosLog) + FillLog(old(photoStorage.View()), uuids)
      ensures query == old(query) && Cursor(pageNumber, fetchNext) == old(Cursor(pageNumber, fetchNext))
      ensures loadingStatus == old(loadingStatus) && errorLog == old(errorLog) && spawned == old(spawned)
      ensures placeholderIds <= old(placeholderIds) + UUIDSet(uuids)
    {
      var photos := photoStorage.GetPhotos();
      if |photos| == 0 {
        var placeholders := MakePlaceholders(uuids);
        FillWithPlaceholders(photoStorage.View(), uuids);
        placeholderIds := placeholderIds + UUIDSet(uuids);
        AddPhotos(placeholders);
        Publish();
      }
    }

    /** The fetch of `getPhotos`, given what `fetchPhotos` returned or threw. */
    method FetchPage(res: Result<Option<PhotosResponse>, Error>, isValidURL: string -> bool,
                     cacheImage: string -> Result<Option<string>, Error>)
      requires Valid()
      requires res.Success? && res.value.Some? ==>
        forall i :: 0 <= i < |res.value.value.photos| ==>
          !res.value.value.photos[i].isPlaceholder && res.value.value.photos[i].id !in placeholderIds
      modifies this, photoStorage, cacheTaskStore
      ensures Valid()
      ensures query == old(query) && placeholderIds == old(placeholderIds)
      ensures forall t :: t in spawned ==>
        t in old(spawned) ||
        (!batchCaching && res.Success? && res.value.Some? && t.photo.id in IdSet(res.value.value.photos))
      ensures res.Failure? ==>
        && loadingStatus == Ready && errorLog == old(errorLog) + [res.error]
        && photoStorage.View() == old(photoStorage.View()) && photosLog == old(photosLog)
        && Cursor(pageNumber, fetchNext) == old(Cursor(pageNumber, fetchNext))
        && cacheTaskStore.tasks == old(cacheTaskStore.tasks)
      ensures res == Success(None) ==>
        && loadingStatus == Loading && errorLog == old(errorLog)
        && photoStorage.View() == old(photoStorage.View()) && photosLog == old(photosLog)
        && Cursor(pageNumber, fetchNext) == old(Cursor(pageNumber, fetchNext))
        && cacheTaskStore.tasks == old(cacheTaskStore.tasks)
      ensures res.Success? && res.value.Some? && |res.value.value.photos| == 0 ==>
        && loadingStatus == Ready && errorLog == old(errorLog)
        && photoStorage.View() == old(photoStorage.View()) && photosLog == old(photosLog)
        && Cursor(pageNumber, fetchNext) == old(Cursor(pageNumber, fetchNext))
        && cacheTaskStore.tasks == old(cacheTaskStore.tasks)
      ensures res.Success? && res.value.Some? && |res.value.value.photos| > 0 ==>
        && var response := res.value.value;
        && loadingStatus == Ready
        && Cursor(pageNumber, fetchNext) == AdvanceCursor(old(Cursor(pageNumber, fetchNext)), response.pages)
        && (!batchCaching ==>
              && photoStorage.View() == Merge(old(photoStorage.View()), response.photos) && errorLog == old(errorLog)
              && photosLog == old(photosLog) + [photoStorage.photos]
              && cacheTaskStore.tasks.Keys == old(cacheTaskStore.tasks).Keys + IdSet(response.photos))
        && (batchCaching ==>
              && cacheTaskStore.tasks == old(cacheTaskStore.tasks)
              && var b := BatchCached(response.photos, isValidURL, cacheImage);
              && (b.Failure? ==>
                    photoStorage.View() == RemoveWhere(old(photoStorage.View()), IsPlaceholder) &&
                    errorLog == old(errorLog) + [b.error] && photosLog == old(photosLog))
              && (b.Success? ==>
                    photoStorage.View() == Merge(old(photoStorage.View()), b.value) && errorLog == old(errorLog) &&
                    photosLog == old(photosLog) + [photoStorage.photos]))
    {
      loadingStatus := Loading;
      match res
      case Failure(e) =>
        loadingStatus := Ready;
        errorLog := errorLog + [e];
      case Success(None) =>
      case Success(Some(response)) =>
        HandleResponse(response, isValidURL, cacheImage);
        loadingStatus := Ready;
    }

    /** `getPhotos()`. Nothing happens unless there is a query, `fetchNext` holds and the status is
        `.ready`. Then an empty store is filled with `perPage` placeholders (published), the status
        becomes `.loading`, and the page at `pageNumber` is fetched: a throw returns the status to
        `.ready` and is published; a nil result leaves `.loading` in place; a response is handled
        and the status returns to `.ready`. `uuids` are the values `UUID()` produces. */
    method GetPhotos(fetch: (string, int, int) -> Result<Option<PhotosResponse>, Error>, uuids: seq<string>,
                     isValidURL: string -> bool, cacheImage: string -> Result<Option<string>, Error>)
      requires Valid()
      requires |uuids| >= PerPage && DistinctUUIDs(uuids)
      requires forall t, i :: t in spawned && 0 <= i < PerPage ==> t.photo.id != uuids[i]
      requires query.Some? ==>
        var res := fetch(RawValue(query.value), pageNumber, PerPage);
        res.Success? && res.value.Some? ==>
          forall i :: 0 <= i < |res.value.value.photos| ==>
            var id := res.value.value.photos[i].id;
            !res.value.value.photos[i].isPlaceholder && id !in placeholderIds && id !in UUIDSet(uuids)
      modifies this, photoStorage, cacheTaskStore
      ensures Valid()
      ensures !old(CanFetch()) ==> unchanged(this, photoStorage, cacheTaskStore)
      ensures old(CanFetch()) ==> query == old(query)
      ensures placeholderIds <= old(placeholderIds) + UUIDSet(uuids)
      ensures forall t :: t in spawned ==>
        t in old(spawned) ||
        (old(CanFetch()) && !batchCaching &&
         var res := fetch(RawValue(old(query).value), old(pageNumber), PerPage);
         res.Success? && res.value.Some? && t.photo.id in IdSet(res.value.value.photos))
      ensures old(CanFetch()) && |old(photoStorage.photos)| == 0 ==>
        |photosLog| > |old(photosLog)| && photosLog[|old(photosLog)|] == Placeholders(uuids)
      ensures old(CanFetch()) ==>
        var s1 := Filled(old(photoStorage.View()), uuids);
        var log1 := old(photosLog) + FillLog(old(photoStorage.View()), uuids);
        var res := fetch(RawValue(old(query).value), old(pageNumber), PerPage);
        && (res.Failure? ==>
              && loadingStatus == Ready && errorLog == old(errorLog) + [res.error]
              && photoStorage.View() == s1 && photosLog == log1
              && Cursor(pageNumber, fetchNext) == old(Cursor(pageNumber, fetchNext))
              && cacheTaskStore.tasks == old(cacheTaskStore.tasks))
        && (res == Success(None) ==>
              && loadingStatus == Loading && errorLog == old(errorLog)
              && photoStorage.View() == s1 && photosLog == log1
              && Cursor(pageNumber, fetchNext) == old(Cursor(pageNumber, fetchNext))
              && cacheTaskStore.tasks == old(cacheTaskStore.tasks))
        && (res.Success? && res.value.Some? && |res.value.value.photos| == 0 ==>
              && loadingStatus == Ready && errorLog == old(errorLog)
              && photoStorage.View() == s1 && photosLog == log1
              && Cursor(pageNumber, fetchNext) == old(Cursor(pageNumber, fetchNext))
              && cacheTaskStore.tasks == old(cacheTaskStore.tasks))
        && (res.Success? && res.value.Some? && |res.value.value.photos| > 0 ==>
              && var response := res.value.value;
              && loadingStatus == Ready
              && Cursor(pageNumber, fetchNext) == AdvanceCursor(old(Cursor(pageNumber, fetchNext)), response.pages)
              && (!batchCaching ==>
                    && photoStorage.View() == Merge(s1, response.photos) && errorLog == old(errorLog)
                    && photosLog == log1 + [photoStorage.photos]
                    && cacheTaskStore.tasks.Keys == old(cacheTaskStore.tasks).Keys + IdSet(response.photos))
              && (batchCaching ==>
                    && cacheTaskStore.tasks == old(cacheTaskStore.tasks)
                    && var b := BatchCached(response.photos, isValidURL, cacheImage);
                    && (b.Failure? ==>
                          photoStorage.View() == RemoveWhere(s1, IsPlaceholder) &&
                          errorLog == old(errorLog) + [b.error] && photosLog == log1)
                    && (b.Success? ==>
                          photoStorage.View() == Merge(s1, b.value) && errorLog == old(errorLog) &&
                          photosLog == log1 + [photoStorage.photos])))
    {
      if !CanFetch() {
        return;
      }
      var q := query.value;
      ghost var log0 := photosLog;
      FillPlaceholders(uuids);
      if |old(photoStorage.photos)| == 0 {
        FillWithPlaceholders(old(photoStorage.View()), uuids);
        assert photosLog[|log0|] == Placeholders(uuids);
      }
      var res := fetch(RawValue(q), pageNumber, PerPage);
      FetchPage(res, isValidURL, cacheImage);
    }

    /** `cacheImage(photoModel:)` followed by `remove(for:)`: the body of the task `t`, run
        with `cacheImage` as the cache's answers. Only the record indexed under the task's id is
        rewritten, with the captured record marked cached and `.loaded`, and the new array is
        published; nothing is rewritten when the id is not indexed, the thumbnail URL is missing
        or invalid, or the cache returns nil or throws (the throw is swallowed). Then the task
        registered under the id, if any, is cancelled and unregistered. */
    method RunCacheTask(t: CacheTask, isValidURL: string -> bool,
                        cacheImage: string -> Result<Option<string>, Error>)
      requires Valid() && t in spawned
      modifies this, photoStorage, cacheTaskStore, cacheTaskStore.tasks.Values
      ensures Valid()
      ensures query == old(query) && Cursor(pageNumber, fetchNext) == old(Cursor(pageNumber, fetchNext))
      ensures loadingStatus == old(loadingStatus) && errorLog == old(errorLog)
      ensures placeholderIds == old(placeholderIds) && spawned == old(spawned)
      ensures cacheTaskStore.tasks == old(cacheTaskStore.tasks) - {t.photo.id}
      ensures t.photo.id in old(cacheTaskStore.tasks) ==> old(cacheTaskStore.tasks)[t.photo.id].isCancelled
      ensures var s := old(photoStorage.View()); var id := t.photo.id;
        if id in s.indexMap && HasCacheableURL(t.photo, isValidURL) &&
           cacheImage(t.photo.thumbnailImageURL.value).Success? && cacheImage(t.photo.thumbnailImageURL.value).value.Some?
        then
          && photoStorage.View() ==
               Store(s.photos[s.indexMap[id] := WithCachedImage(t.photo, cacheImage(t.photo.thumbnailImageURL.value).value.value)], s.indexMap)
          && photosLog == old(photosLog) + [photoStorage.photos]
        else photoStorage.View() == s && photosLog == old(photosLog)
    {
      var photoModel := t.photo;
      var index := photoStorage.GetIndex(photoModel.id);
      if index.Some? && HasCacheableURL(photoModel, isValidURL) {
        var cached := cacheImage(photoModel.thumbnailImageURL.value);
        if cached.Success? && cached.value.Some? {
          var updated := WithCachedImage(photoModel, cached.value.value);
          var s := photoStorage.View();
          ReplaceSameIdValid(s, index.value, updated);
          assert !s.photos[index.value].isPlaceholder;
          photoStorage.UpdatePhoto(index.value, updated);
          Publish();
        }
      }
      cacheTaskStore.Remove(photoModel.id);
    }

    /** `reset()`: forget the query, empty the store, publish `[]` and return to `.ready`. The page
        cursor and the task registry are left as they were. */
    method Reset()
      requires Valid()
      modifies this, photoStorage
      ensures Valid()
      ensures query.None? && loadingStatus == Ready
      ensures photoStorage.photos == [] && photoStorage.indexMap == map[]
      ensures photosLog == old(photosLog) + [[]] && errorLog == old(errorLog)
      ensures Cursor(pageNumber, fetchNext) == old(Cursor(pageNumber, fetchNext))
      ensures cacheTaskStore.tasks == old(cacheTaskStore.tasks)
      ensures placeholderIds == old(placeholderIds) && spawned == old(spawned)
    {
      query := None;
      photoStorage.RemoveAll();
      photosLog := photosLog + [[]];
      loadingStatus := Ready;
    }

    /** The search subscriber, after its debounce: reset, then search for `searchText`. */
    method Search(searchText: string)
      requires Valid()
      modifies this, photoStorage
      ensures Valid()
      ensures query == Some(Query.Search(searchText)) && loadingStatus == Ready
      ensures photoStorage.photos == [] && photosLog == old(photosLog) + [[]]
      ensures Cursor(pageNumber, fetchNext) == old(Cursor(pageNumber, fetchNext))
      ensures cacheTaskStore.tasks == old(cacheTaskStore.tasks)
      ensures placeholderIds == old(placeholderIds) && spawned == old(spawned)
    {
      Reset();
      query := Some(Query.Search(searchText));
    }

    /** `deinit`: cancel every registered caching task. */
    method Teardown()
      requires Valid()
      modifies cacheTaskStore, cacheTaskStore.tasks.Values
      ensures Valid()
      ensures cacheTaskStore.tasks == map[]
      ensures forall t :: t in old(cacheTaskStore.tasks).Values ==> t.isCancelled
    {
      cacheTaskStore.RemoveAll();
    }
  }

  /** What `fetch` answers holds no placeholder and none of the ids `ids`. */
  ghost predicate PageAvoids(res: Result<Option<PhotosResponse>, Error>, ids: set<string>)
  {
    res.Success? && res.value.Some? ==>
      forall i :: 0 <= i < |res.value.value.photos| ==>
        !res.value.value.photos[i].isPlaceholder && res.value.value.photos[i].id !in ids
  }

  /** The first `getPhotos()` of a new view model, as `ScrollTwoPages` uses it: afterwards the
      placeholder UUIDs are the first batch's, every started task caches a record of the first
      page, and the cursor is on page 1 or 2. */
  method ScrollFirstPage(vm: PhotoCollectionViewModel, q: Query,
                         fetch: (string, int, int) -> Result<Option<PhotosResponse>, Error>,
                         uuids1: seq<string>, uuids2: seq<string>,
                         isValidURL: string -> bool, cacheImage: string -> Result<Option<string>, Error>)
    requires vm.Valid() && vm.FieldValues() == Fields(Some(q), Cursor(1, true), Ready, [], [])
    requires vm.photoStorage.View() == Store([], map[]) && vm.cacheTaskStore.tasks == map[]
    requires vm.placeholderIds == {} && vm.spawned == {}
    requires |uuids1| >= PerPage && DistinctUUIDs(uuids1) && |uuids2| >= PerPage
    requires PageAvoids(fetch(RawValue(q), 1, PerPage), UUIDSet(uuids1) + UUIDSet(uuids2))
    modifies vm, vm.photoStorage, vm.cacheTaskStore
    ensures vm.Valid() && vm.query == Some(q)
    ensures vm.placeholderIds <= UUIDSet(uuids1)
    ensures forall t, i :: t in vm.spawned && 0 <= i < PerPage ==> t.photo.id != uuids2[i]
    ensures vm.pageNumber == 1 || vm.pageNumber == 2
    ensures var r1 := fetch(RawValue(q), 1, PerPage);
      r1.Success? && r1.value.Some? && |r1.value.value.photos| > 0 && r1.value.value.pages > 3 ==>
        && Cursor(vm.pageNumber, vm.fetchNext) == Cursor(2, true) && vm.loadingStatus == Ready
        && (!vm.batchCaching ==>
              && vm.photoStorage.View() == Merge(Filled(Store([], map[]), uuids1), r1.value.value.photos)
              && |vm.photoStorage.photos| > 0
              && vm.cacheTaskStore.tasks.Keys == IdSet(r1.value.value.photos))
  {
    vm.GetPhotos(fetch, uuids1, isValidURL, cacheImage);
    var r1 := fetch(RawValue(q), 1, PerPage);
    if r1.Success? && r1.value.Some? {
      forall t, i | t in vm.spawned && 0 <= i < PerPage
        ensures t.photo.id != uuids2[i]
      {
        assert uuids2[i] in UUIDSet(uuids2);
      }
      if |r1.value.value.photos| > 0 && !vm.batchCaching {
        var p1 := r1.value.value.photos;
        var sf := Filled(Store([], map[]), uuids1);
        FillWithPlaceholders(Store([], map[]), uuids1);
        MergeValid(sf, p1);
        assert p1[0].id in IdSet(p1);
      }
    }
  }

  /** Infinite scrolling: a new view model's grid calls `getPhotos()` twice. The model's ghost
      bookkeeping lets the second call follow the first. When both answers are non-empty pages of
      a query reporting more than three pages, the second request is for page 2, the cursor ends
      on page 3 with fetching on and the status `.ready`, and in the lazy mode the store is the
      two pages merged in order over the placeholders, with a caching task registered for every
      id of either page. */
  method ScrollTwoPages(batchCaching: bool, q: Query,
                        fetch: (string, int, int) -> Result<Option<PhotosResponse>, Error>,
                        uuids1: seq<string>, uuids2: seq<string>,
                        isValidURL: string -> bool, cacheImage: string -> Result<Option<string>, Error>)
    returns (vm: PhotoCollectionViewModel)
    requires |uuids1| >= PerPage && DistinctUUIDs(uuids1) && |uuids2| >= PerPage && DistinctUUIDs(uuids2)
    requires PageAvoids(fetch(RawValue(q), 1, PerPage), UUIDSet(uuids1) + UUIDSet(uuids2))
    requires PageAvoids(fetch(RawValue(q), 2, PerPage), UUIDSet(uuids1) + UUIDSet(uuids2))
    ensures vm.Valid() && vm.query == Some(q) && vm.batchCaching == batchCaching
    ensures var r1 := fetch(RawValue(q), 1, PerPage); var r2 := fetch(RawValue(q), 2, PerPage);
      r1.Success? && r1.value.Some? && |r1.value.value.photos| > 0 && r1.value.value.pages > 3 &&
      r2.Success? && r2.value.Some? && |r2.value.value.photos| > 0 && r2.value.value.pages > 3 ==>
        && Cursor(vm.pageNumber, vm.fetchNext) == Cursor(3, true) && vm.loadingStatus == Ready
        && (!batchCaching ==>
              && vm.photoStorage.View() ==
                   Merge(Merge(Filled(Store([], map[]), uuids1), r1.value.value.photos), r2.value.value.photos)
              && vm.cacheTaskStore.tasks.Keys == IdSet(r1.value.value.photos) + IdSet(r2.value.value.photos))
  {
    vm := new PhotoCollectionViewModel(batchCaching, Some(q));
    ScrollFirstPage(vm, q, fetch, uuids1, uuids2, isValidURL, cacheImage);
    vm.GetPhotos(fetch, uuids2, isValidURL, cacheImage);
  }
}
