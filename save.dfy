/** The save orchestrator of `src/saveImpl.ts`: an ordered chain of checks
    ending in one delegated `saveCache` call, all inside a catch-all that
    turns any thrown error into a warning. */
module Save {
  import opened Wrappers
  import opened Contracts
  import opened Options

  datatype Severity = Info | Warning

  /** One line written to the action log. */
  datatype LogLine = LogLine(severity: Severity, message: string)

  /** The value the promise resolves to: `undefined` from an early `return;`,
      or the final `cacheId`. */
  datatype SaveOutcome = Undefined | CacheId(id: int)

  /** The arguments of one `saveCache` call. */
  datatype SaveCacheCall = SaveCacheCall(
    paths: seq<string>,
    primaryKey: string,
    options: UploadOptions,
    s3Config: S3ClientConfig,
    s3Bucket: string)

  /** Everything `saveImpl` reads from its surroundings. The helpers whose
      code is not part of this model appear only through their results
      (`isCacheFeatureAvailable`, `isValidEvent`, `getInputAsArray`,
      `getInputAsInt`) or as uninterpreted functions (`isExactKeyMatch`,
      `saveCache`, whose `Failure` is a thrown error). */
  datatype SaveEnv = SaveEnv(
    cacheFeatureAvailable: bool,
    validEvent: bool,
    /** The event name variable, possibly unset. */
    eventName: Option<string>,
    /** The primary key a restore step stored in state; empty when none. */
    statePrimaryKey: string,
    /** The matched key a restore step stored in state, possibly unset. */
    cacheState: Option<string>,
    inputs: Inputs,
    /** `getInputAsArray(Inputs.Path, { required: true })`. */
    pathInput: Result<seq<string>, string>,
    /** `getInputAsInt(Inputs.UploadChunkSize)`. */
    uploadChunkSizeInput: Option<int>,
    isExactKeyMatch: (string, Option<string>) -> bool,
    saveCache: SaveCacheCall -> Result<int, string>)

  /** How a JavaScript template literal renders a possibly unset string. */
  function TemplateText(s: Option<string>): string {
    match s
    case Some(v) => v
    case None => "undefined"
  }

  function EventValidationMessage(eventName: Option<string>): string {
    "Event Validation Error: The event type " + TemplateText(eventName)
      + " is not supported because it's not tied to a branch or tag ref."
  }

  const KeyNotSpecifiedMessage: string := "Key is not specified."

  function CacheHitMessage(primaryKey: string): string {
    "Cache hit occurred on the primary key " + primaryKey + ", not saving cache."
  }

  function CacheSavedMessage(primaryKey: string): string {
    "Cache saved with key: " + primaryKey
  }

  /** The key to save under: the one stored in state when it is non-empty,
      else the key input. */
  function PrimaryKey(env: SaveEnv): (key: string)
    ensures env.statePrimaryKey != "" ==> key == env.statePrimaryKey
    ensures env.statePrimaryKey == "" ==> key == GetInput(env.inputs, Key)
    ensures key == "" <==> env.statePrimaryKey == "" && GetInput(env.inputs, Key) == ""
  {
    if env.statePrimaryKey != "" then env.statePrimaryKey else GetInput(env.inputs, Key)
  }

  /** Every early-return check passes, so the path input is read. */
  predicate ChecksPass(env: SaveEnv) {
    && env.cacheFeatureAvailable
    && env.validEvent
    && PrimaryKey(env) != ""
    && !env.isExactKeyMatch(PrimaryKey(env), env.cacheState)
  }

  /** `saveImpl`. Returns what the promise resolves to, the lines logged at
      info and warning level, and the `saveCache` calls made. */
  method SaveImpl(env: SaveEnv) returns (outcome: SaveOutcome, log: seq<LogLine>, calls: seq<SaveCacheCall>)
    // At most one backend call and one log line, whatever happens.
    ensures |calls| <= 1 && |log| <= 1
    // Feature unavailable: silent skip.
    ensures !env.cacheFeatureAvailable ==>
              outcome == Undefined && log == [] && calls == []
    // Invalid event: one warning naming the event.
    ensures env.cacheFeatureAvailable && !env.validEvent ==>
              && outcome == Undefined
              && log == [LogLine(Warning, EventValidationMessage(env.eventName))]
              && calls == []
    // No key from state or input.
    ensures env.cacheFeatureAvailable && env.validEvent && PrimaryKey(env) == "" ==>
              outcome == Undefined && log == [LogLine(Warning, KeyNotSpecifiedMessage)] && calls == []
    // Exact match with the restored key: an info line, not a warning.
    ensures && env.cacheFeatureAvailable && env.validEvent && PrimaryKey(env) != ""
            && env.isExactKeyMatch(PrimaryKey(env), env.cacheState) ==>
              && outcome == Undefined
              && log == [LogLine(Info, CacheHitMessage(PrimaryKey(env)))]
              && calls == []
    // Only the catch path and the normal path reach `return cacheId`.
    ensures outcome.CacheId? <==> ChecksPass(env)
    // Reading the required path list throws: caught, -1.
    ensures ChecksPass(env) && env.pathInput.Failure? ==>
              outcome == CacheId(-1) && log == [LogLine(Warning, env.pathInput.error)] && calls == []
    // The backend is called exactly when every earlier step passed, with these arguments.
    ensures |calls| == 1 <==> ChecksPass(env) && env.pathInput.Success?
    ensures |calls| == 1 ==>
              && calls[0].paths == env.pathInput.value
              && calls[0].primaryKey == PrimaryKey(env)
              && calls[0].options == UploadOptions(None, env.uploadChunkSizeInput)
              && calls[0].s3Config == S3ClientConfig(
                   Credentials(GetInput(env.inputs, AwsAccessKeyId), GetInput(env.inputs, AwsSecretAccessKey)),
                   GetInput(env.inputs, AwsRegion),
                   None)
              && calls[0].s3Bucket == GetInput(env.inputs, AwsBucket)
    // The backend throws: caught, one warning with its message, -1.
    ensures |calls| == 1 && env.saveCache(calls[0]).Failure? ==>
              outcome == CacheId(-1) && log == [LogLine(Warning, env.saveCache(calls[0]).error)]
    // The backend returns an id: it is the result, announced iff it is not -1.
    ensures |calls| == 1 && env.saveCache(calls[0]).Success? ==>
              && outcome == CacheId(env.saveCache(calls[0]).value)
              && log == if env.saveCache(calls[0]).value != -1
                        then [LogLine(Info, CacheSavedMessage(PrimaryKey(env)))] else []
  {
    var cacheId := -1;
    log := [];
    calls := [];
    // Every step below runs inside the catch-all: a thrown error becomes one
    // warning, and the run goes on to return `cacheId`.
    if !env.cacheFeatureAvailable {
      return Undefined, log, calls;
    }

    if !env.validEvent {
      log := log + [LogLine(Warning, EventValidationMessage(env.eventName))];
      return Undefined, log, calls;
    }

    var primaryKey := PrimaryKey(env);

    if primaryKey == "" {
      log := log + [LogLine(Warning, KeyNotSpecifiedMessage)];
      return Undefined, log, calls;
    }

    var restoredKey := env.cacheState;

    if env.isExactKeyMatch(primaryKey, restoredKey) {
      log := log + [LogLine(Info, CacheHitMessage(primaryKey))];
      return Undefined, log, calls;
    }

    match env.pathInput {
      case Failure(error) =>
        // The required path input threw: caught, before `cacheId` is assigned.
        log := log + [LogLine(Warning, error)];
      case Success(cachePaths) =>
        var s3Config := S3ClientConfig(
          Credentials(GetInput(env.inputs, AwsAccessKeyId), GetInput(env.inputs, AwsSecretAccessKey)),
          GetInput(env.inputs, AwsRegion),
          None);
        var s3Bucket := GetInput(env.inputs, AwsBucket);
        var call := SaveCacheCall(cachePaths, primaryKey, UploadOptions(None, env.uploadChunkSizeInput), s3Config, s3Bucket);
        calls := calls + [call];
        match env.saveCache(call)
        case Failure(error) =>
          // The backend threw: caught, `cacheId` keeps its initial -1.
          log := log + [LogLine(Warning, error)];
        case Success(id) =>
          cacheId := id;
          if cacheId != -1 {
            log := log + [LogLine(Info, CacheSavedMessage(primaryKey))];
          }
    }
    outcome := CacheId(cacheId);
  }
}
