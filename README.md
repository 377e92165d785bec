# Cache save, option resolution and download checks of a CI cache client

This project models, in Dafny, the sequential decision logic at the core of a
CI cache client that stores archives in S3 or behind an HTTP cache service:

- **Save orchestrator** (`src/saveImpl.ts`): the ordered checks feature →
  event → primary key → exact-key match → required paths → one `saveCache`
  call, inside a catch-all that turns any thrown error into a warning. It is
  the method `Save.SaveImpl` over an environment record `Save.SaveEnv`, which
  returns the resolved value (`undefined` or the `cacheId`), the info and
  warning lines logged, and the `saveCache` calls made.
- **Options resolver** (`src/utils/options.ts`): `getUploadOptions` and
  `getDownloadOptions` build a record of defaults and overwrite each field
  only when the caller's value has the expected `typeof`. Each is a method
  (`Options.GetUploadOptions`, `Options.GetDownloadOptions`) proved equal to
  a specification function (`Options.ResolvedUpload`,
  `Options.ResolvedDownload`) whose properties are lemmas. A caller's field
  is an `Options.Dyn`: absent, a number, a boolean or anything else.
  `getConfig` is `Options.GetConfig`: it attaches a proxy request handler
  exactly when the proxy lookup yields a non-empty URL.
- **Option records** (`src/utils/contracts.ts`): `Contracts.UploadOptions`
  and `Contracts.DownloadOptions`, every field an `Option`, and the
  documented `@default` values as constants. The resolver methods use their
  own literals (4, 32·1024·1024, true, 8, 30000), and their postconditions
  equate the result with the documented defaults.
- **Download checks** (`src/utils/downloadUtils.ts`): both variants are
  methods over a file system given as a map from path to bytes. Each returns
  the new map, the trace of effects in order (create file, GET or S3 send,
  pipe, read size) and the outcome. The HTTP variant creates the file before
  the GET. It checks the size only after a complete body has been piped,
  and only when a `Content-Length` header is truthy. The S3 variant fails on
  a missing `Body` before creating any file.
  `parseInt` and number-to-string are modelled concretely after section
  19.2.5 and section 6.1.6.1.20 of ECMA-262 (`JsNumber`). With them, a
  header holding the exact decimal size provably passes, any other size
  fails with a message naming both, and a header that parses to NaN always
  fails.

Inputs, state, the event name and the results of the foreign helpers are
fields of `Save.SaveEnv` or parameters. `isExactKeyMatch` and `saveCache`
are uninterpreted function values; the proxy lookup is a function
parameter. The retried GET and the S3 `send` appear only as their results.

Points where the model follows the code's behaviour:

- a skipped save resolves to `undefined`, not to `-1`; only the catch path and the normal path return `cacheId`;
- a missing path list is caught and becomes a warning like every other error (`src/saveImpl.ts:52-54`, `77-79`);
- `saveImpl` builds its S3 configuration inline from the credential and region inputs, with no proxy handler, and passes only `uploadChunkSize` (`src/saveImpl.ts:56-72`);
- the download option is named `useAzureSdk`, and `lookupOnly` gets no default and is never copied into the result (`src/utils/options.ts:62-88`).

## Model

| member | source | states |
|---|---|---|
| `Options.GetUploadOptions` | src/utils/options.ts:35-55 | The result is the documented defaults (4 and 32MB from `contracts.ts:43,49`), overridden field by field by the caller's numbers; the input is a value and is not changed. |
| `Options.ResolvedUpload` | src/utils/options.ts:35-49 | Both upload fields of the result are always set. |
| `Options.UploadDefaultsWhenUndefined` | src/utils/options.ts:36-39 | With no argument the result is `{uploadConcurrency: 4, uploadChunkSize: 33554432}`, equal to the documented defaults. |
| `Options.UploadFieldOverride` | src/utils/options.ts:41-49 | Each upload field is overridden independently, exactly when the caller's field is a number, and the number is copied unchanged (0 and negatives included); otherwise the default stays. |
| `Options.UploadTypedInput` | src/utils/options.ts:35-49 | A well-typed partial record gives the defaults overridden exactly at the fields it sets. |
| `Options.UploadIdempotent` | src/utils/options.ts:35-55 | Resolving an already resolved record gives it back unchanged. |
| `Options.GetDownloadOptions` | src/utils/options.ts:62-88 | The result is the documented defaults (true, 8, 30000 from `contracts.ts:63,71,79`) with type-matching overrides, and no `lookupOnly`. |
| `Options.ResolvedDownload` | src/utils/options.ts:62-81 | `useAzureSdk`, `downloadConcurrency` and `timeoutInMs` of the result are always set. |
| `Options.DownloadDefaultsWhenUndefined` | src/utils/options.ts:63-67 | With no argument the result is `{useAzureSdk: true, downloadConcurrency: 8, timeoutInMs: 30000}` with `lookupOnly` unset. |
| `Options.DownloadFieldOverride` | src/utils/options.ts:69-81 | `useAzureSdk` is overridden only by a boolean, the other two only by numbers; wrong-typed values leave the default. |
| `Options.DownloadDropsLookupOnly` | src/utils/options.ts:62-88 | The result never carries `lookupOnly`, whatever the input holds. |
| `Options.DownloadTypedInput` | src/utils/options.ts:62-81 | A well-typed partial record gives the defaults overridden exactly at the three fields the resolver knows. |
| `Options.DownloadIdempotent` | src/utils/options.ts:62-88 | Resolving an already resolved record gives it back unchanged. |
| `Options.GetConfig` | src/utils/options.ts:10-28 | Credentials and region always come from the inputs; a request handler for the proxy is attached iff the lookup for `https://amazonaws.com` yields a non-empty URL; the result is fully determined by the inputs and the lookup, so repeated calls agree. |
| `JsNumber.TrimStart` | src/utils/downloadUtils.ts:60 | The result is a suffix of the input whose removed prefix is all white space and which does not itself start with white space. |
| `JsNumber.DigitPrefixLength` | src/utils/downloadUtils.ts:60 | The result is the length of the longest prefix made of digits of the radix. |
| `JsNumber.DecimalDigits` | src/utils/downloadUtils.ts:65 | The rendering of a size is a non-empty string of decimal digits with no leading zero. |
| `JsNumber.DigitsValueOfDecimal` | src/utils/downloadUtils.ts:60-65 | The value of the decimal rendering of `n` is `n`. |
| `JsNumber.ParseIntOfDecimal` | src/utils/downloadUtils.ts:60 | `parseInt` of the decimal rendering of `n` is `n`. |
| `JsNumber.ParseIntIgnoresSuffix` | src/utils/downloadUtils.ts:60 | `parseInt` ignores text after the digits, unless that text makes a lone `0` into a `0x` prefix. |
| `JsNumber.ParseIntNaN` | src/utils/downloadUtils.ts:60 | A header with no digit (after white space) where the number starts parses to NaN. |
| `Download.ValidateAcceptsExactLength` | src/utils/downloadUtils.ts:59-63 | A `Content-Length` equal to the file size passes. |
| `Download.ValidateRejectsOtherLength` | src/utils/downloadUtils.ts:63-67 | Any other size raises "Incomplete download. Expected file size: E, actual file size: A" with both sizes. |
| `Download.ValidateRejectsNaN` | src/utils/downloadUtils.ts:60-67 | A non-empty header that parses to NaN always raises the mismatch error, naming `NaN`. |
| `Download.ValidateToleratesMissingHeader` | src/utils/downloadUtils.ts:59-70 | A missing or empty header never raises; only the debug note of line 69 follows. |
| `Download.ValidatePassesIff` | src/utils/downloadUtils.ts:59-67 | For a non-empty header the check passes exactly when the parsed value equals the file size. |
| `Download.ValidateExampleExact` | src/utils/downloadUtils.ts:59-63 | `Content-Length: 100` with a 100-byte file passes. |
| `Download.ValidateExampleShort` | src/utils/downloadUtils.ts:63-67 | `Content-Length: 100` with a 99-byte file raises the error naming 100 and 99. |
| `Download.PipeResponseToStream` | src/utils/downloadUtils.ts:20-26 | A complete body becomes the file's contents; an aborted stream fails with its error and leaves the bytes that arrived. |
| `Download.DownloadCacheHttpClient` | src/utils/downloadUtils.ts:34-71 | The file is created before the GET and is the only path changed. A failed GET leaves it empty; an aborted stream fails with the received bytes in the file. A complete body becomes the file, and only then, for a truthy header, is the size read and checked. |
| `Download.DownloadCacheStorageS3` | src/utils/downloadUtils.ts:81-106 | The request is `{Bucket: s3BucketName, Key: key}`; a send error or a missing `Body` fails with the file system unchanged and no file created; otherwise the file holds the body bytes and no length check is made. |
| `Save.PrimaryKey` | src/saveImpl.ts:32-39 | The primary key is the state key when non-empty, else the key input; it is empty iff both are. |
| `Save.SaveImpl` | src/saveImpl.ts:14-81 | The ordered checks: feature off gives `undefined` with no log; invalid event one warning naming it; no key "Key is not specified."; exact match one info line. Each skip returns `undefined` with no backend call. Otherwise `saveCache` is called exactly once with the key, paths, chunk size, credentials, region and bucket, unless the path input throws. A throw becomes one warning and the result -1. A returned id is the result, and "Cache saved with key" is logged iff it is not -1. |

## Left out

- The retry wrapper `retryHttpClientResponse`, the HTTP client and the S3 SDK `send`: their code is not part of this model, so the methods take their results (a response or an error message) as parameters.
- The socket idle timeout (`src/utils/downloadUtils.ts:46-51`) is wall-clock, asynchronous behaviour; only its effect is kept, a body `Aborted` after some bytes, which makes the pipe fail.
- `stream.pipeline`: piping is "the file holds the body", or the error of an aborted stream. Errors opening the write stream are not modelled.
- The process-wide `uncaughtException` handler (`src/saveImpl.ts:12`): it is a global asynchronous escape hatch, outside the sequential logic.
- `isCacheFeatureAvailable`, `isValidEvent`, `isExactKeyMatch`, `getInputAsArray`, `getInputAsInt`, `saveCache` and the state provider: their code is not part of this model. They are booleans, results or uninterpreted functions of `Save.SaveEnv`, and any lines they log themselves are not modelled.
- `utils.logWarning` is taken as a warning-level line; how it renders the line is not part of this model. `core.debug` lines are dropped, and `core.info` and warnings are an appended sequence.
- `core.getInput` is a lookup in a given map (an unset input reads as the empty string), and input names are symbolic; their string values live in a constants file that is not part of this model.
- `ProxyAgent` and `NodeHttpHandler` internals: the handler is an opaque value recording the proxy URL.
- The request and response interfaces of `src/utils/contracts.ts` that no modelled code uses (`ArtifactCacheEntry`, `ReserveCacheRequest`, `ReserveCacheResponse`, `CommitCacheRequest`, `ITypedResponseWithError`, `InternalCacheOptions`).
- JavaScript numbers are integers or NaN here: the fractional values, infinities and NaN that `typeof x === "number"` also admits in the option fields are not modelled, nor is rounding of `parseInt` results above 2^53 or exponent notation in number-to-string.
- The unicode white space that `parseInt` skips is matched by an explicit code point list (the space separators, line terminators and the byte order mark), not by the Unicode database itself.
- A thrown value that is not an `Error` (so has no `message`) is not modelled: every error carries its message as a string.
