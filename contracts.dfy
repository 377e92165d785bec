/** The option records of `src/utils/contracts.ts`. Every field of both
    interfaces is optional, so each is an `Option`; the `@default` values of
    their doc comments are the constants below. */
module Contracts {
  import opened Wrappers

  /** Options to control cache upload. */
  datatype UploadOptions = UploadOptions(
    /** Number of parallel cache uploads. */
    uploadConcurrency: Option<int>,
    /** Maximum chunk size in bytes for cache upload. */
    uploadChunkSize: Option<int>)

  /** Options to control cache download. `lookupOnly` has no documented default. */
  datatype DownloadOptions = DownloadOptions(
    /** Whether to use the Azure Blob SDK for downloads. */
    useAzureSdk: Option<bool>,
    /** Number of parallel downloads (Azure SDK only). */
    downloadConcurrency: Option<int>,
    /** Maximum time for each download request in milliseconds (Azure SDK only). */
    timeoutInMs: Option<int>,
    lookupOnly: Option<bool>)

  /** One megabyte, as the `32MB` of the documented chunk size means it. */
  const MB: int := 1024 * 1024

  /** `@default 4` */
  const UploadConcurrencyDefault: int := 4
  /** `@default 32MB` */
  const UploadChunkSizeDefault: int := 32 * MB
  /** `@default true` */
  const UseAzureSdkDefault: bool := true
  /** `@default 8` */
  const DownloadConcurrencyDefault: int := 8
  /** `@default 30000` */
  const TimeoutInMsDefault: int := 30000

  /** Upload options with every field set to its documented default. */
  const DocumentedUploadDefaults: UploadOptions :=
    UploadOptions(Some(UploadConcurrencyDefault), Some(UploadChunkSizeDefault))

  /** Download options with every documented default filled in; `lookupOnly`
      has none and stays unset. */
  const DocumentedDownloadDefaults: DownloadOptions :=
    DownloadOptions(Some(UseAzureSdkDefault), Some(DownloadConcurrencyDefault), Some(TimeoutInMsDefault), None)
}
