# PhotoCollection: the photo pagination and caching pipeline

PhotoCollection is an iOS app that pages through photo search results and shows them in a grid.
This project models the part of the app that decides what the grid holds, and proves properties of it.
It covers:

- **The photo store** (`PhotoStorage`): an ordered array of records plus an index from id to position.
  `addPhotos` is an upsert. `removePhotos(where:)` does not renumber the records that stay.
- **The task registry** (`CacheTaskStore`): a dictionary from photo id to the handle of the
  background task that caches the photo's thumbnail. Removing an entry cancels its handle.
- **The view model** (`PhotoCollectionViewModel`):
  - parsing and printing a `Query`;
  - the `getPhotos` guard and the `ready`/`loading` status;
  - the 21 placeholder rows shown while the first page loads;
  - the page cursor;
  - lazy per-photo caching and eager batch caching;
  - `reset`.
- **The photo record** (`PhotoModel`): equality and hash, and which fields decoding reads.
- **The image cache** (`ImageCachingManager`). Files are named by the lowercase hex SHA-256 digest
  of the URL. The flow is check the cache, then download, then write.
- **The networking layer** (`NetworkingManager`): how a response is classified, and how errors
  propagate.
- **The photo service** (`PhotoSerice.fetchPhotos`): the configuration guard and the seven query
  items.
- **Two small state machines**:
  - the `TabBarPage` index mapping and the `MainCoordinator` child list;
  - the duplicate-push guard of `BaseNavigationController`.

Code that updates state in place is modelled as classes with `modifies` clauses. This covers the
store, the registry, the view model, the cache manager, the navigation controller and the
coordinators. Each state-changing method is specified against a pure function of its old state:
`AddAll`, `RemoveWhere`, `BuildIndex`, `Merge`, `BatchCached` and `AdvanceCursor`. Lemmas prove
what the source promises about those functions. The pure parts are functions and lemmas: `Query`,
`TabBarPage`, equality and decoding of records, response classification, and the query items.

Actors are modelled as plain objects whose methods run one at a time.

Several outside things become parameters:

- the results of `fetchPhotos` and `cacheImage` (a value, nil, or an error);
- `URL(string:)`, as a predicate `isValidURL`;
- what `URLSession` receives;
- the outcome of a file write;
- SHA-256, as a function to 32 bytes;
- the UUIDs.

Combine publishers become append-only logs of what was sent: `photosLog` and `errorLog`.

The source files do not agree with each other in a few places. The model adds what the view model
uses:

- The photo record carries `isPlaceholder` and `thumbnailImageURL`. The view model reads both, but
  `PhotoModel` does not declare them.
- The placeholder constructor is `Models.Placeholder`.
- `PhotosResponse` names its fields `pages` and `photos`, as the view model reads them. The decoder
  (`Models.DecodeResponse`) reads the keys `total_pages` and `results`, which `PhotosResponseModel`
  declares.
- `PhotoStorage.removeAll()` is called by the view model but not declared by the store. It is
  modelled as `setPhotos([])`.

## Model

| member | source | states |
|---|---|---|
| Models.EqualIsEquivalence | PhotoCollection/Models/PhotoModel.swift:23-27 | `==` on records is reflexive, symmetric and transitive |
| Models.EqualIgnoresMetadata | PhotoCollection/Models/PhotoModel.swift:23-27 | records that differ only in metadata are equal; equal records have the same id; the same id with a different loading status or cached URL is unequal |
| Models.EqualIffSameHashInput | PhotoCollection/Models/PhotoModel.swift:23-33 | two records are `==` exactly when they feed the hasher the same values; so equal records hash alike under every hasher |
| Models.WithCachedImage | PhotoCollection/Models/PhotoModel.swift:35-44 | the caching update sets `cachedImageURL` and `.loaded` and leaves every other field, the id included, unchanged |
| Models.WithCachedImageEqual | PhotoCollection/Models/PhotoModel.swift:23-27 | caching a record changes its `==` identity unless it was already cached, `.loaded`, at that URL |
| Models.DecodePhoto | PhotoCollection/Models/PhotoModel.swift:35-55 | a decoded record is not a placeholder; it has no loading status, cached URL or thumbnail URL; its id, width, height and description are the JSON members of those names; a missing id fails |
| Models.DecodeReadsOnlyCodingKeys | PhotoCollection/Models/PhotoModel.swift:46-55 | decoding depends only on members named in `CodingKeys`; a `loadingStatus` or `cachedImageURL` member has no effect |
| Models.DecodePhotos | PhotoCollection/Models/PhotoModel.swift:10-20 | the `results` array decodes element by element, with every element decoded; it fails exactly when some element fails |
| Models.DecodedResponseIsUncached | PhotoCollection/Models/PhotoModel.swift:10-20 | a decoded page has one record per `results` element, and none of them is a placeholder, loaded or cached |
| Storage.ValidHasDistinctIds | PhotoCollection/Utilities/PhotoStorage.swift:20-22 | under the index invariant, ids are distinct, every indexed position is inside the array, and the indexed ids are exactly the record ids |
| Storage.Upsert | PhotoCollection/Utilities/PhotoStorage.swift:30-35 | one loop step keeps every indexed position inside the array |
| Storage.AddAll | PhotoCollection/Utilities/PhotoStorage.swift:28-37 | the whole loop keeps every indexed position inside the array |
| Storage.UpsertValid | PhotoCollection/Utilities/PhotoStorage.swift:30-35 | one upsert preserves the index invariant |
| Storage.ReplaceSameIdValid | PhotoCollection/Utilities/PhotoStorage.swift:39-43 | overwriting a record with one of the same id preserves the index invariant |
| Storage.AddAllValid | PhotoCollection/Utilities/PhotoStorage.swift:28-37 | `addPhotos` preserves the index invariant, so no two records share an id, even when the input repeats one |
| Storage.AddAllIndexesInputs | PhotoCollection/Utilities/PhotoStorage.swift:33-34 | afterwards the indexed ids are the old ones plus every input id |
| Storage.AddAllKeepsPositions | PhotoCollection/Utilities/PhotoStorage.swift:30-35 | the array never shrinks; every existing record keeps its position and id; every existing index entry is unchanged |
| Storage.AddAllLeavesOthers | PhotoCollection/Utilities/PhotoStorage.swift:30-35 | a record whose id is not in the input is left exactly as it was |
| Storage.AddAllLastWins | PhotoCollection/Utilities/PhotoStorage.swift:30-31 | the record stored under an input id is the last input record with that id |
| Storage.NewIdsMembers | PhotoCollection/Utilities/PhotoStorage.swift:33-34 | the appended ids are exactly the input ids not indexed before |
| Storage.AddAllAppendsNewIds | PhotoCollection/Utilities/PhotoStorage.swift:33-34 | new ids are appended after the existing records, once each, in input order |
| Storage.AddAllElements | PhotoCollection/Utilities/PhotoStorage.swift:28-37 | every record afterwards was either stored before or is in the input |
| Storage.AddAllFreshAppends | PhotoCollection/Utilities/PhotoStorage.swift:33-34 | fresh, distinct ids are simply appended: the array becomes the old array followed by the input |
| Storage.BuildIndexLastPosition | PhotoCollection/Utilities/PhotoStorage.swift:48-51 | the rebuilt index holds exactly the ids of the new array, each mapped to its last position |
| Storage.BuildIndexValidIffDistinct | PhotoCollection/Utilities/PhotoStorage.swift:45-52 | after `setPhotos` the index invariant holds exactly when the new records have distinct ids |
| Storage.SelectMembers | PhotoCollection/Utilities/PhotoStorage.swift:55-57 | the filter keeps exactly the records on the chosen side of the predicate |
| Storage.SelectConcat | PhotoCollection/Utilities/PhotoStorage.swift:55-57 | the filter distributes over concatenation, so survivors keep their relative order |
| Storage.RemoveWhereLeavesNoMatch | PhotoCollection/Utilities/PhotoStorage.swift:54-58 | after removal no record matches the predicate; exactly the non-matching records remain; removed ids are gone from the index |
| Storage.RemoveWhereValidIffSuffix | PhotoCollection/Utilities/PhotoStorage.swift:54-58 | since survivors are not renumbered, removal keeps the index invariant exactly when the removed records form a suffix |
| Storage.RemoveSuffixValid | PhotoCollection/Utilities/PhotoStorage.swift:54-58 | removing a suffix keeps the index invariant |
| Storage.RemoveNonSuffixInvalid | PhotoCollection/Utilities/PhotoStorage.swift:54-58 | removing a record that an unremoved record follows breaks the index invariant |
| Storage.PhotoStorage.constructor | PhotoCollection/Utilities/PhotoStorage.swift:20-22 | the store starts empty |
| Storage.PhotoStorage.GetPhotos | PhotoCollection/Utilities/PhotoStorage.swift:24-26 | returns the array and changes nothing |
| Storage.PhotoStorage.GetIndex | PhotoCollection/Utilities/PhotoStorage.swift:60-62 | returns the index entry and changes nothing; under the invariant it is found iff a record has the id, and it is that record's position |
| Storage.PhotoStorage.UpdatePhoto | PhotoCollection/Utilities/PhotoStorage.swift:39-43 | only the element at `index` changes, and the length is kept; an index past the end is ignored |
| Storage.PhotoStorage.AddPhotos | PhotoCollection/Utilities/PhotoStorage.swift:28-37 | the new state is `AddAll` of the old state and the input |
| Storage.PhotoStorage.SetPhotos | PhotoCollection/Utilities/PhotoStorage.swift:45-52 | the array becomes the input; the id set and the index are rebuilt from it |
| Storage.PhotoStorage.RemoveAll | PhotoCollection/ViewModels/PhotoCollectionViewModel.swift:242 | the store is emptied, as by `setPhotos([])`, and satisfies the invariant |
| Storage.PhotoStorage.RemovePhotos | PhotoCollection/Utilities/PhotoStorage.swift:54-58 | the new state is `RemoveWhere` of the old state |
| TaskRegistry.CacheTask.constructor | PhotoCollection/ViewModels/PhotoCollectionViewModel.swift:165-170 | a new handle captures its record and is not cancelled |
| TaskRegistry.CacheTask.Cancel | PhotoCollection/Utilities/CacheTaskStore.swift:25 | cancelling sets the flag; cancelling twice is harmless |
| TaskRegistry.CacheTaskStore.constructor | PhotoCollection/Utilities/CacheTaskStore.swift:18 | the registry starts empty |
| TaskRegistry.CacheTaskStore.Add | PhotoCollection/Utilities/CacheTaskStore.swift:20-22 | the id maps to the task and every other key is unchanged; a replaced task is not cancelled |
| TaskRegistry.CacheTaskStore.Remove | PhotoCollection/Utilities/CacheTaskStore.swift:24-27 | the id is unregistered and its task cancelled; other entries are untouched; an absent id is a no-op |
| TaskRegistry.CacheTaskStore.TaskFor | PhotoCollection/Utilities/CacheTaskStore.swift:29-31 | returns the registered handle or null and changes nothing |
| TaskRegistry.CacheTaskStore.RemoveAll | PhotoCollection/Utilities/CacheTaskStore.swift:33-36 | every registered task is cancelled and the registry is emptied |
| Networking.SuccessStatusBoundaries | PhotoCollection/Utilities/NetworkingManager.swift:72-73 | 200 and 299 are accepted; 199, 300 and a non-HTTP response are rejected |
| Networking.HandleResponse | PhotoCollection/Utilities/NetworkingManager.swift:69-83 | success iff the data is non-empty, the status is 2xx and decoding succeeds; otherwise `noData` for empty data whatever the status, `badResponse` for a non-2xx or non-HTTP response, `dataParsingError` when decoding fails |
| Networking.GetData | PhotoCollection/Utilities/NetworkingManager.swift:49-67 | a URL that cannot be composed gives `invalidURL`; a transport error is rethrown unchanged; otherwise the result is that of `handleResponse` |
| Service.NatToStringRoundTrip | PhotoCollection/Services/PhotoService.swift:51-52 | the decimal rendering of a natural number reads back as that number |
| Service.IntToStringRoundTrip | PhotoCollection/Services/PhotoService.swift:51-52 | `String(Int)` reads back as the number, negative numbers included |
| Service.BuildQueryItems | PhotoCollection/Services/PhotoService.swift:49-57 | exactly 7 items, each with a value, with pairwise distinct names, in the order tags, page, per_page, format, nojsoncallback, method, api_key |
| Service.QueryItemValues | PhotoCollection/Services/PhotoService.swift:14-31 | by name, the items carry the query, the decimal page number and page size, `json`, `1`, `flickr.photos.search` and the key |
| Service.FetchPhotos | PhotoCollection/Services/PhotoService.swift:44-66 | no request is made, and nil is returned, exactly when the base URL, image URL or key is missing; otherwise one request goes to the base URL with the built items; its error is rethrown, and the response it decodes is returned without the `.photos` unwrapping and `constructImageURLs` step |
| ImageCache.HexByte | PhotoCollection/Utilities/ImageCachingManager.swift:99 | `%02x` gives two lowercase hex characters whose value is the byte |
| ImageCache.Hex | PhotoCollection/Utilities/ImageCachingManager.swift:99 | the joined rendering has two lowercase hex characters per byte |
| ImageCache.UnhexHex | PhotoCollection/Utilities/ImageCachingManager.swift:99 | reading the rendering back gives the bytes |
| ImageCache.HexInjective | PhotoCollection/Utilities/ImageCachingManager.swift:99 | the hex rendering is injective |
| ImageCache.CacheFileName | PhotoCollection/Utilities/ImageCachingManager.swift:97-100 | the file name has 64 lowercase hex characters and reads back as the digest of the URL |
| ImageCache.CacheFileNameIffSameDigest | PhotoCollection/Utilities/ImageCachingManager.swift:97-100 | two URLs get the same file name exactly when their digests are equal |
| ImageCache.FilePathInjective | PhotoCollection/Utilities/ImageCachingManager.swift:70-71 | within one directory, different file names give different paths |
| ImageCache.CachePathIffSameDigest | PhotoCollection/Utilities/ImageCachingManager.swift:70-71 | under one cache directory, two URLs share a cache path exactly when their SHA-256 digests are equal |
| ImageCache.DownloadImage | PhotoCollection/Utilities/ImageCachingManager.swift:35-50 | success iff data arrived, is non-empty and came with a 2xx HTTP status; every failure, `noData` and `badResponse` included, becomes `NetworkError.unknown` |
| ImageCache.ImageCachingManager.constructor | PhotoCollection/Utilities/ImageCachingManager.swift:27-33 | the manager starts with the given directory, digest and files |
| ImageCache.ImageCachingManager.GetCachedImageURL | PhotoCollection/Utilities/ImageCachingManager.swift:82-95 | succeeds exactly when there is a directory and the file at `directory/cacheFileName(url)` exists, and then returns that path; otherwise `cacheDirectoryURLUnavailable` or `imageNotFound`; never nil |
| ImageCache.ImageCachingManager.CacheImage | PhotoCollection/Utilities/ImageCachingManager.swift:52-80 | never returns nil without throwing; with no directory it throws `cacheDirectoryURLUnavailable`; a cached file is returned with no download; a failed download gives `downloadImageFailed`; a failed write or attribute update gives `imageCachingFailed`, and in the second case the written file stays; a success leaves `getCachedImageURL` returning the same path |
| ImageCache.CacheTwice | PhotoCollection/Utilities/ImageCachingManager.swift:58-60 | after a successful cache, a second call returns the same path and downloads nothing, whatever its own download and write would do, and the file exists |
| ViewModel.QueryFromRawValue | PhotoCollection/ViewModels/PhotoCollectionViewModel.swift:18-27 | parsing never fails, and printing the result gives the input back |
| ViewModel.QueryRoundTrip | PhotoCollection/ViewModels/PhotoCollectionViewModel.swift:18-42 | a printed query parses back to itself iff it is not `.search("dogs")` or `.search("cats")`; those two come back as `.dogs` and `.cats` |
| ViewModel.AdvanceCursor | PhotoCollection/ViewModels/PhotoCollectionViewModel.swift:145-149 | the page grows by exactly one iff `pageNumber + 1 < pages`, and otherwise stays; afterwards `fetchNext` iff `pageNumber < pages` |
| ViewModel.RunNeverReachesLastPage | PhotoCollection/ViewModels/PhotoCollectionViewModel.swift:145-149 | from page 1, the cursor climbs to `pages - 1` and stays there with `fetchNext` still set, so the last page is never requested; with fewer than two pages it stays on page 1 and stops |
| ViewModel.MakePlaceholders | PhotoCollection/ViewModels/PhotoCollectionViewModel.swift:119-123 | the loop gives exactly 21 placeholders, the i-th with the i-th UUID as id |
| ViewModel.FillWithPlaceholders | PhotoCollection/ViewModels/PhotoCollectionViewModel.swift:117-126 | adding the placeholders to an empty store gives exactly those 21 placeholder rows and keeps the index invariant |
| ViewModel.MergeValid | PhotoCollection/ViewModels/PhotoCollectionViewModel.swift:151-162 | removing the placeholders and adding a page of real records keeps the index invariant and leaves no placeholder; every merged record was a real stored record or is in the page; every id of the page is in the merged store |
| ViewModel.BatchCachedFails | PhotoCollection/ViewModels/PhotoCollectionViewModel.swift:207-238 | the batch throws exactly when one of the started cache calls throws, and with that call's error |
| ViewModel.BatchCachedMembers | PhotoCollection/ViewModels/PhotoCollectionViewModel.swift:207-238 | a completed batch is no longer than its input and holds exactly the inputs with a valid thumbnail URL whose cache call returned a URL, each marked cached with it and `.loaded` |
| ViewModel.BatchCachedRealRecords | PhotoCollection/ViewModels/PhotoCollectionViewModel.swift:219-223 | the batch of a page of real records holds only real, `.loaded` records with ids from the page |
| ViewModel.BatchCachedPrefixFails | PhotoCollection/ViewModels/PhotoCollectionViewModel.swift:230-234 | once a prefix of the batch throws, the whole batch throws the same error |
| ViewModel.CacheImages | PhotoCollection/ViewModels/PhotoCollectionViewModel.swift:207-238 | the accumulation loop computes `BatchCached` |
| ViewModel.PhotoCollectionViewModel.constructor | PhotoCollection/ViewModels/PhotoCollectionViewModel.swift:45-80 | page 1, fetching on, `.ready`, nothing published, empty store, index and registry; no placeholder UUID used and no task started yet |
| ViewModel.PhotoCollectionViewModel.AddPhotos | PhotoCollection/ViewModels/PhotoCollectionViewModel.swift:201-202 | the store upserts the records and keeps its index invariant |
| ViewModel.PhotoCollectionViewModel.Publish | PhotoCollection/ViewModels/PhotoCollectionViewModel.swift:197-198 | the snapshot taken after the mutation is published, nothing else changes, and the view-model invariant is kept |
| ViewModel.PhotoCollectionViewModel.RegisterCacheTask | PhotoCollection/ViewModels/PhotoCollectionViewModel.swift:164-173 | a new, uncancelled task for the record is registered only if `task(for:)` was nil; otherwise the registry is unchanged |
| ViewModel.PhotoCollectionViewModel.RegisterNext | PhotoCollection/ViewModels/PhotoCollectionViewModel.swift:163-174 | one pass of the registration loop extends the registered ids by one record's id and keeps earlier entries |
| ViewModel.PhotoCollectionViewModel.RegisterCacheTasks | PhotoCollection/ViewModels/PhotoCollectionViewModel.swift:163-174 | afterwards the registered ids are the old ones plus the page's ids; existing entries are kept; each new entry is a fresh, uncancelled task for the first page record with that id; every task started caches a record of the page |
| ViewModel.PhotoCollectionViewModel.RemovePlaceholders | PhotoCollection/ViewModels/PhotoCollectionViewModel.swift:151 | removes every placeholder and keeps the index invariant |
| ViewModel.PhotoCollectionViewModel.AddRealPhotos | PhotoCollection/ViewModels/PhotoCollectionViewModel.swift:201-205 | upserts a page into a store without placeholders and publishes the post-mutation array |
| ViewModel.PhotoCollectionViewModel.MergeBatch | PhotoCollection/ViewModels/PhotoCollectionViewModel.swift:154-160 | on a throw, the error is published and nothing is merged; otherwise the batch result is upserted and published |
| ViewModel.PhotoCollectionViewModel.HandleResponse | PhotoCollection/ViewModels/PhotoCollectionViewModel.swift:142-176 | an empty page changes nothing; otherwise the cursor advances as `AdvanceCursor` says, placeholders are removed, and the page is merged, either lazily with tasks registered per new id or after the batch cache, whose throw is published instead; no placeholder UUID is added, and new tasks are started only in the lazy mode, for page ids |
| ViewModel.PhotoCollectionViewModel.FillPlaceholders | PhotoCollection/ViewModels/PhotoCollectionViewModel.swift:117-126 | an empty store gets the 21 placeholders, which are published; otherwise nothing changes |
| ViewModel.PhotoCollectionViewModel.FetchPage | PhotoCollection/ViewModels/PhotoCollectionViewModel.swift:128-139 | a throw returns to `.ready` and is published once; nil leaves `.loading`; a response is handled and then `.ready` |
| ViewModel.PhotoCollectionViewModel.GetPhotos | PhotoCollection/ViewModels/PhotoCollectionViewModel.swift:111-140 | nothing happens unless there is a query, `fetchNext` holds and the status is `.ready`; then the placeholders are added to an empty store, the page at `pageNumber` is fetched, and the status, logs, store, cursor and registry end as each fetch outcome determines; the view-model invariant is kept; the only new placeholder UUIDs are this call's, and every new task caches a record of the fetched page, so calls compose |
| ViewModel.ScrollFirstPage | PhotoCollection/ViewModels/PhotoCollectionViewModel.swift:111-140 | after the first `getPhotos()` of a new view model, the placeholder UUIDs are the first batch's, no task's id is a UUID of the next batch, and the cursor is on page 1 or 2; a non-empty first page of a query with more than three pages moves it to page 2 and, in the lazy mode, leaves that page merged over the placeholders with its ids registered |
| ViewModel.ScrollTwoPages | PhotoCollection/ViewModels/PhotoCollectionViewModel.swift:111-176 | two `getPhotos()` calls in a row on a new view model: when both pages are non-empty and more than three pages are reported, the cursor ends on page 3 with fetching on and `.ready`; in the lazy mode the store is the two pages merged in order and every id of either page has a task |
| ViewModel.PhotoCollectionViewModel.RunCacheTask | PhotoCollection/ViewModels/PhotoCollectionViewModel.swift:165-199 | only the record at `getIndex(id)` is rewritten, as the captured record cached and `.loaded`, and it is published; nothing is rewritten when the id is not indexed, the URL is missing or invalid, or the cache returns nil or throws; then the task is cancelled and unregistered |
| ViewModel.PhotoCollectionViewModel.Reset | PhotoCollection/ViewModels/PhotoCollectionViewModel.swift:240-245 | the query is cleared, the store emptied, `[]` published and the status `.ready`; the cursor, the registry and the ghost bookkeeping are unchanged |
| ViewModel.PhotoCollectionViewModel.Search | PhotoCollection/ViewModels/PhotoCollectionViewModel.swift:97-102 | after a reset, the query becomes the search text |
| ViewModel.PhotoCollectionViewModel.Teardown | PhotoCollection/ViewModels/PhotoCollectionViewModel.swift:82-87 | every registered caching task is cancelled and the registry emptied; the view-model invariant is kept |
| Navigation.ViewController.constructor | PhotoCollection/ViewControllers/BaseNavigationController.swift:18-20 | a controller is known by its class name |
| Navigation.ClassNames | PhotoCollection/ViewControllers/BaseNavigationController.swift:19 | the names of the stack, one per controller, in order |
| Navigation.ContainsClass | PhotoCollection/ViewControllers/BaseNavigationController.swift:18-20 | true iff some controller on the stack has the same class name |
| Navigation.PushKeepsClassNamesDistinct | PhotoCollection/ViewControllers/BaseNavigationController.swift:18-26 | a push that passes the guard keeps the class names distinct |
| Navigation.BaseNavigationController.constructor | PhotoCollection/ViewControllers/BaseNavigationController.swift:11 | an empty stack with no transition in progress |
| Navigation.BaseNavigationController.PushViewController | PhotoCollection/ViewControllers/BaseNavigationController.swift:22-27 | the push takes effect iff no transition is in progress and no controller of the same class is on the stack, and then appends and sets the flag; an ignored push changes neither the stack nor the flag; distinct names stay distinct |
| Navigation.BaseNavigationController.DidShow | PhotoCollection/ViewControllers/BaseNavigationController.swift:31-33 | clears the flag and changes nothing else |
| Navigation.BaseNavigationController.PopToRoot | PhotoCollection/Coordinators/MainCoordinator.swift:88 | only the bottom controller stays; the flag is unchanged |
| Navigation.PushTwice | PhotoCollection/ViewControllers/BaseNavigationController.swift:22-33 | after a push that took effect, a second push without a `didShow` is ignored whatever it pushes |
| Coordinators.PageFromIndex | PhotoCollection/Coordinators/MainCoordinator.swift:15-26 | there is a tab exactly for indices 0, 1 and 2 |
| Coordinators.TabOrderNumber | PhotoCollection/Coordinators/MainCoordinator.swift:39-48 | order numbers lie in 0..2 |
| Coordinators.PageIndexRoundTrip | PhotoCollection/Coordinators/MainCoordinator.swift:15-48 | `TabBarPage(index: p.tabOrderNumber) == p`, and `TabBarPage(index: i)!.tabOrderNumber == i` for i in 0..2 |
| Coordinators.OrderNumbersAndTitlesDistinct | PhotoCollection/Coordinators/MainCoordinator.swift:28-48 | distinct tabs have distinct order numbers and distinct titles |
| Coordinators.TabCoordinator.constructor | PhotoCollection/Coordinators/TabCoordinator.swift:22-26 | a new tab coordinator is neither started nor finished |
| Coordinators.TabCoordinator.Start | PhotoCollection/Coordinators/TabCoordinator.swift:44-52 | marks the coordinator started |
| Coordinators.TabCoordinator.Finish | PhotoCollection/Coordinators/TabCoordinator.swift:54-56 | marks the coordinator finished |
| Coordinators.MainCoordinator.constructor | PhotoCollection/Coordinators/MainCoordinator.swift:70-73 | no children, and the given navigation controller |
| Coordinators.MainCoordinator.ShowMainFlow | PhotoCollection/Coordinators/MainCoordinator.swift:79-83 | appends exactly one new, started child and keeps the earlier ones |
| Coordinators.MainCoordinator.Finish | PhotoCollection/Coordinators/MainCoordinator.swift:85-89 | every child is finished, the list is emptied, and the stack is popped to its root |

## Left out

- Concurrency is not modelled. The model leaves out:
  - actor isolation and interleavings;
  - when a `Task` runs, and how cancelling one stops it;
  - `[weak self]`;
  - the 400 ms debounce of the search publisher.

  Every call runs to completion before the next starts. A caching task's body is `RunCacheTask`,
  run at any later point.
- ViewModel.PhotoCollectionViewModel.RunCacheTask: reads the index and writes the record in one
  step. The race between the two across an `await` is not modelled. A cancelled task's body can
  still be run; cancellation only sets the flag.
- ViewModel.CacheImages: reads the task group's results in input order, not completion order. So
  the first error in input order is the one thrown; in the source it is whichever finishes first.
- ViewModel.PhotoCollectionViewModel.Search: models the subscriber's effect after the debounce,
  `reset` then the new query. It leaves out cancelling the previous `resetTask`.
- ViewModel.PhotoCollectionViewModel.Teardown: models only the registry's `removeAll` in `deinit`,
  as the cleanup the code intends. In the source it runs in a `Task` that captures `self` weakly
  while `self` is being deinitialized, so `self?` is most likely nil and `removeAll` is probably
  never reached.
  The subscriptions are not modelled.
- Storage.PhotoStorage.UpdatePhoto: requires `0 <= index` and `index != photos.count`.
  - The guard `index <= photos.count` lets `index == count` through to a subscript that traps.
  - A negative index traps too.
  - An index beyond the end is a no-op, as in the source.
- Storage.PhotoStorage.AddPhotos: requires every indexed position to lie inside the array. Without
  that, the inner `updatePhoto` could trap. The store's invariant implies it.
- Storage.Upsert: ignores an indexed position outside the array. Of those positions,
  `updatePhoto` traps only at a negative one or at one equal to `photos.count`. Past the end it
  returns without change, as the model does. `AddPhotos` excludes all of them.
- ViewModel.PhotoCollectionViewModel.GetPhotos: requires two things of its collaborators.
  - The UUIDs given to placeholders are distinct, and differ from the ids of real records and tasks.
  - The fetched records are not placeholders.

  A decoded page never holds a placeholder (`Models.DecodedResponseIsUncached`). UUID freshness is
  an assumption about `UUID()`.
- ViewModel.PhotoCollectionViewModel.HandleResponse: requires that the page holds no placeholder
  and no id given to a placeholder, for the same reason.
- I/O is abstract:
  - `URLSession`, `FileManager`, `JSONDecoder` and `URLComponents` are parameters: a transport
    outcome, a file map with a write outcome, a decode function and a compose function.
  - The file's creation-date attribute is not modelled, only whether setting it failed.
- SHA-256 (FIPS 180-4) is a parameter from URL to 32 bytes. So is the UTF-8 encoding of the URL's
  absolute string. The hex rendering is modelled concretely.
- `URL(string:)` is the predicate `isValidURL`.
- Combine publishers are logs:
  - `photosLog` and `errorLog` record what `photosPublisher` and `errorPublisher` sent;
  - `loadingStatus` holds only its current value.
- Service.FetchPhotos: returns the value `getData` decoded. The source instead returns
  `wrapperModel.photos` after `constructImageURLs(baseURL: imageBaseURL.absoluteString)`
  (PhotoService.swift:62-63). `PhotosResponseWrapperModel` and `constructImageURLs` are not part
  of this model, so in the model `imageBaseURL` is only checked for presence, never used.
- `PhotoCollectionViewController` calls `setQuery(text:)` and `resetPageNumber()`, which the view
  model does not define, so neither is modelled.
- The UIKit parts are left out, as they are presentation:
  - `tabImage`;
  - the tab bar controller and controllers that `TabCoordinator.start` builds;
  - `setNavigationBarHidden`;
  - `MainCoordinator.start`, which only calls `showMainFlow`.
- Coordinators.MainCoordinator.ShowMainFlow: does not model that the child's `start` replaces the
  navigation stack with `[tabBarController]` (TabCoordinator.swift line 94). The stack stays as
  it was, so the `PopToRoot` in `Coordinators.MainCoordinator.Finish` acts on a different stack
  than in the source.
- `TabCoordinator` is seen only from its parent, as started and finished flags. Its tab selection
  is left out.
- Views, layout, the plist key loading, the API endpoint constant and the unused `PhotoResponse`
  struct are left out.
- Integers are unbounded. Swift's `Int` overflow traps, for example in `pageNumber + 1`, are not
  modelled.
