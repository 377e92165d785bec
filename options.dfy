/** The options resolver of `src/utils/options.ts`: default-filled upload and
    download options with type-guarded overrides, and the S3 client
    configuration with its proxy-aware request handler. */
module Options {
  import opened Wrappers
  import opened Contracts

  // ---------------------------------------------------------------------
  // Ambient inputs
  // ---------------------------------------------------------------------

  /** The action inputs the core reads by name. */
  datatype InputName =
    | Key | Path | UploadChunkSize
    | AwsAccessKeyId | AwsSecretAccessKey | AwsRegion | AwsBucket

  /** The inputs of the running action, as `core.getInput` returns them. */
  type Inputs = map<InputName, string>

  /** `core.getInput(name)`: the given value, or the empty string for an
      input that was not set. */
  function GetInput(inputs: Inputs, name: InputName): string {
    if name in inputs then inputs[name] else ""
  }

  // ---------------------------------------------------------------------
  // Option resolution
  // ---------------------------------------------------------------------

  /** A field of a caller-supplied options object as it is seen at run time:
      its declared type does not stop a caller from passing anything, so the
      resolver tells the cases apart with `typeof`. */
  datatype Dyn = Absent | Number(n: int) | Bool(b: bool) | Other

  /** The `copy` argument of `getUploadOptions`, field by field. */
  datatype UploadOptionsInput = UploadOptionsInput(uploadConcurrency: Dyn, uploadChunkSize: Dyn)

  /** The `copy` argument of `getDownloadOptions`, field by field. */
  datatype DownloadOptionsInput = DownloadOptionsInput(
    useAzureSdk: Dyn, downloadConcurrency: Dyn, timeoutInMs: Dyn, lookupOnly: Dyn)

  /** A well-typed options record as a caller passes it. */
  function LiftNumber(o: Option<int>): Dyn {
    match o
    case Some(n) => Number(n)
    case None => Absent
  }

  function LiftBool(o: Option<bool>): Dyn {
    match o
    case Some(b) => Bool(b)
    case None => Absent
  }

  function LiftUpload(o: UploadOptions): UploadOptionsInput {
    UploadOptionsInput(LiftNumber(o.uploadConcurrency), LiftNumber(o.uploadChunkSize))
  }

  function LiftDownload(o: DownloadOptions): DownloadOptionsInput {
    DownloadOptionsInput(LiftBool(o.useAzureSdk), LiftNumber(o.downloadConcurrency),
                         LiftNumber(o.timeoutInMs), LiftBool(o.lookupOnly))
  }

  /** The field's value when `typeof` says it is a number, else the default. */
  function NumberOr(d: Dyn, default: int): int {
    if d.Number? then d.n else default
  }

  /** The field's value when `typeof` says it is a boolean, else the default. */
  function BoolOr(d: Dyn, default: bool): bool {
    if d.Bool? then d.b else default
  }

  /** The upload options the resolver is meant to produce: the documented
      defaults, each overridden by a caller's field of type number. */
  function ResolvedUpload(copy: Option<UploadOptionsInput>): (r: UploadOptions)
    ensures r.uploadConcurrency.Some? && r.uploadChunkSize.Some?
  {
    match copy
    case None => DocumentedUploadDefaults
    case Some(c) =>
      UploadOptions(Some(NumberOr(c.uploadConcurrency, UploadConcurrencyDefault)),
                    Some(NumberOr(c.uploadChunkSize, UploadChunkSizeDefault)))
  }

  /** The download options the resolver is meant to produce: the documented
      defaults, each overridden by a caller's field of the expected type;
      `lookupOnly` is never carried over. */
  function ResolvedDownload(copy: Option<DownloadOptionsInput>): (r: DownloadOptions)
    ensures r.useAzureSdk.Some? && r.downloadConcurrency.Some? && r.timeoutInMs.Some?
  {
    match copy
    case None => DocumentedDownloadDefaults
    case Some(c) =>
      DownloadOptions(Some(BoolOr(c.useAzureSdk, UseAzureSdkDefault)),
                      Some(NumberOr(c.downloadConcurrency, DownloadConcurrencyDefault)),
                      Some(NumberOr(c.timeoutInMs, TimeoutInMsDefault)),
                      None)
  }

  /** `getUploadOptions`: a fresh record filled with the resolver's own
      defaults, whose fields are then overwritten one at a time. */
  method GetUploadOptions(copy: Option<UploadOptionsInput>) returns (result: UploadOptions)
    ensures result == ResolvedUpload(copy)
  {
    result := UploadOptions(Some(4), Some(32 * 1024 * 1024));
    if copy.Some? {
      if copy.value.uploadConcurrency.Number? {
        result := result.(uploadConcurrency := Some(copy.value.uploadConcurrency.n));
      }
      if copy.value.uploadChunkSize.Number? {
        result := result.(uploadChunkSize := Some(copy.value.uploadChunkSize.n));
      }
    }
  }

  /** `getDownloadOptions`: as `getUploadOptions`, over the three download
      fields it knows. */
  method GetDownloadOptions(copy: Option<DownloadOptionsInput>) returns (result: DownloadOptions)
    ensures result == ResolvedDownload(copy)
  {
    result := DownloadOptions(Some(true), Some(8), Some(30000), None);
    if copy.Some? {
      if copy.value.useAzureSdk.Bool? {
        result := result.(useAzureSdk := Some(copy.value.useAzureSdk.b));
      }
      if copy.value.downloadConcurrency.Number? {
        result := result.(downloadConcurrency := Some(copy.value.downloadConcurrency.n));
      }
      if copy.value.timeoutInMs.Number? {
        result := result.(timeoutInMs := Some(copy.value.timeoutInMs.n));
      }
    }
  }

  lemma UploadDefaultsWhenUndefined()
    ensures ResolvedUpload(None) == UploadOptions(Some(4), Some(33554432))
    ensures ResolvedUpload(None) == UploadOptions(Some(UploadConcurrencyDefault), Some(UploadChunkSizeDefault))
  {
  }

  /** Each upload field is overridden on its own, exactly when the caller's
      field is a number, and the number is copied with no range check. */
  lemma UploadFieldOverride(c: UploadOptionsInput)
    ensures c.uploadConcurrency.Number? ==>
              ResolvedUpload(Some(c)).uploadConcurrency == Some(c.uploadConcurrency.n)
    ensures !c.uploadConcurrency.Number? ==>
              ResolvedUpload(Some(c)).uploadConcurrency == Some(UploadConcurrencyDefault)
    ensures c.uploadChunkSize.Number? ==>
              ResolvedUpload(Some(c)).uploadChunkSize == Some(c.uploadChunkSize.n)
    ensures !c.uploadChunkSize.Number? ==>
              ResolvedUpload(Some(c)).uploadChunkSize == Some(UploadChunkSizeDefault)
  {
  }

  /** A well-typed partial record yields the defaults overridden exactly at
      the fields it sets. */
  lemma UploadTypedInput(o: UploadOptions)
    ensures ResolvedUpload(Some(LiftUpload(o))) ==
            UploadOptions(Some(o.uploadConcurrency.GetOr(UploadConcurrencyDefault)),
                          Some(o.uploadChunkSize.GetOr(UploadChunkSizeDefault)))
  {
  }

  /** Resolving an already resolved record changes nothing. */
  lemma UploadIdempotent(copy: Option<UploadOptionsInput>)
    ensures ResolvedUpload(Some(LiftUpload(ResolvedUpload(copy)))) == ResolvedUpload(copy)
  {
  }

  lemma DownloadDefaultsWhenUndefined()
    ensures ResolvedDownload(None) == DownloadOptions(Some(true), Some(8), Some(30000), None)
  {
  }

  /** `useAzureSdk` is overridden only by a boolean, the two numeric fields
      only by numbers; any other value leaves the default. */
  lemma DownloadFieldOverride(c: DownloadOptionsInput)
    ensures c.useAzureSdk.Bool? ==>
              ResolvedDownload(Some(c)).useAzureSdk == Some(c.useAzureSdk.b)
    ensures !c.useAzureSdk.Bool? ==>
              ResolvedDownload(Some(c)).useAzureSdk == Some(UseAzureSdkDefault)
    ensures c.downloadConcurrency.Number? ==>
              ResolvedDownload(Some(c)).downloadConcurrency == Some(c.downloadConcurrency.n)
    ensures !c.downloadConcurrency.Number? ==>
              ResolvedDownload(Some(c)).downloadConcurrency == Some(DownloadConcurrencyDefault)
    ensures c.timeoutInMs.Number? ==>
              ResolvedDownload(Some(c)).timeoutInMs == Some(c.timeoutInMs.n)
    ensures !c.timeoutInMs.Number? ==>
              ResolvedDownload(Some(c)).timeoutInMs == Some(TimeoutInMsDefault)
  {
  }

  /** The resolved download options never carry `lookupOnly`, whatever the
      caller set. */
  lemma DownloadDropsLookupOnly(copy: Option<DownloadOptionsInput>)
    ensures ResolvedDownload(copy).lookupOnly == None
  {
  }

  lemma DownloadTypedInput(o: DownloadOptions)
    ensures ResolvedDownload(Some(LiftDownload(o))) ==
            DownloadOptions(Some(o.useAzureSdk.GetOr(UseAzureSdkDefault)),
                            Some(o.downloadConcurrency.GetOr(DownloadConcurrencyDefault)),
                            Some(o.timeoutInMs.GetOr(TimeoutInMsDefault)),
                            None)
  {
  }

  lemma DownloadIdempotent(copy: Option<DownloadOptionsInput>)
    ensures ResolvedDownload(Some(LiftDownload(ResolvedDownload(copy)))) == ResolvedDownload(copy)
  {
  }

  // ---------------------------------------------------------------------
  // S3 client configuration
  // ---------------------------------------------------------------------

  datatype Credentials = Credentials(accessKeyId: string, secretAccessKey: string)

  /** The https agent built by `ProxyAgent(proxy)`; its internals are not
      modelled, only the proxy it was built for. */
  datatype ProxyAgent = ProxyAgent(proxyUrl: string)

  /** `new NodeHttpHandler({ httpsAgent })`, an opaque handler value. */
  datatype RequestHandler = NodeHttpHandler(httpsAgent: ProxyAgent)

  datatype S3ClientConfig = S3ClientConfig(
    credentials: Credentials,
    region: string,
    requestHandler: Option<RequestHandler>)

  /** The endpoint `getConfig` asks the proxy lookup about. */
  const ProxyProbeUrl: string := "https://amazonaws.com"

  /** `getConfig`. `getProxyUrl` is the environment's proxy lookup, which
      yields the empty string when no proxy applies. */
  method GetConfig(inputs: Inputs, getProxyUrl: string -> string) returns (config: S3ClientConfig)
    ensures config.credentials ==
            Credentials(GetInput(inputs, AwsAccessKeyId), GetInput(inputs, AwsSecretAccessKey))
    ensures config.region == GetInput(inputs, AwsRegion)
    ensures config.requestHandler.Some? <==> getProxyUrl(ProxyProbeUrl) != ""
    ensures config.requestHandler.Some? ==>
              config.requestHandler.value == NodeHttpHandler(ProxyAgent(getProxyUrl(ProxyProbeUrl)))
  {
    var proxy := getProxyUrl("https://amazonaws.com");
    config := S3ClientConfig(
      Credentials(GetInput(inputs, AwsAccessKeyId), GetInput(inputs, AwsSecretAccessKey)),
      GetInput(inputs, AwsRegion),
      None);
    if proxy != "" {
      config := config.(requestHandler := Some(NodeHttpHandler(ProxyAgent(proxy))));
    }
  }
}
