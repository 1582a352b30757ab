/** The error types the core throws, and Swift's existential `Error` that carries them. */
module Errors {

  /** `NetworkError` of NetworkingManager.swift. */
  datatype NetworkError = BadResponse | DataParsingError | InvalidURL | NoData | ServerError | Unknown

  /** `ImageCachingError` of ImageCachingManager.swift. */
  datatype ImageCachingError =
    | CacheDirectoryURLUnavailable
    | ImageNotFound
    | ImageCachingFailed
    | DownloadImageFailed

  /** Any thrown value: one of the two enumerations above, a `URLError` from the URL loading
      system (identified by its code), or an error of some other type. */
  datatype Error =
    | Network(networkError: NetworkError)
    | ImageCaching(cachingError: ImageCachingError)
    | URLError(code: int)
    | OtherError(description: string)
}
