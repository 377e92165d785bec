/** The two download variants of `src/utils/downloadUtils.ts`, over a file
    system modelled as a map from path to contents. The foreign calls (the
    retried HTTP GET, the S3 `send`) are given as their results; each method
    also returns the trace of effects it performed, in order. */
module Download {
  import opened Wrappers
  import opened JsNumber
  import opened Options

  newtype byte = x: int | 0 <= x < 256

  /** The local file system: path to file contents. */
  type FileMap = map<string, seq<byte>>

  /** A response body as the pipe into the file consumes it: either the
      whole stream, or the bytes received before the stream was destroyed
      (for example by the socket idle timeout) with the error the pipe
      reports. */
  datatype Body = Complete(bytes: seq<byte>) | Aborted(received: seq<byte>, error: string)

  /** The response the retry wrapper returns: its `content-length` header,
      if any, and its body. */
  datatype HttpResponse = HttpResponse(contentLength: Option<string>, body: Body)

  /** The parameters of a `GetObjectCommand`. */
  datatype GetObjectRequest = GetObjectRequest(Bucket: string, Key: string)

  /** The S3 `GetObject` output; `Body` may be missing. */
  datatype GetObjectOutput = GetObjectOutput(Body: Option<Body>)

  /** What a download does to the outside world, in order. */
  datatype Effect =
    | CreateFile(path: string)        // fs.createWriteStream: creates or truncates the file
    | HttpGet(url: string)            // the GET, behind the retry wrapper
    | S3Send(config: S3ClientConfig, request: GetObjectRequest)
    | Pipe(path: string)              // the body streamed into the file
    | ReadFileSize(path: string)      // the size of the written file

  /** JavaScript truthiness of the header value: present and non-empty. */
  predicate IsTruthy(header: Option<string>) {
    header.Some? && header.value != ""
  }

  const ExpectedSizeText: string := "Incomplete download. Expected file size: "
  const ActualSizeText: string := ", actual file size: "

  function IncompleteDownloadMessage(expected: Num, actual: nat): string {
    ExpectedSizeText + NumberToString(expected) + ActualSizeText + NumberToString(Int(actual))
  }

  const MissingBodyMessage: string := "Incomplete download. response.Body is undefined from S3."

  /** The size check run on the written file: a truthy `Content-Length`
      whose parsed value is not strictly equal to the file size is an error;
      a missing or empty header is accepted. */
  function ValidateDownloadSize(contentLength: Option<string>, actualLength: nat): Outcome<string> {
    if IsTruthy(contentLength) then CompareSizes(ParseInt(contentLength.value), actualLength) else Pass
  }

  /** The comparison itself: JavaScript's strict inequality, under which NaN
      differs from every size. */
  function CompareSizes(expectedLength: Num, actualLength: nat): Outcome<string> {
    if expectedLength != Int(actualLength) then
      Fail(IncompleteDownloadMessage(expectedLength, actualLength))
    else
      Pass
  }

  /** A header stating the exact file size passes. */
  lemma ValidateAcceptsExactLength(actual: nat)
    ensures ValidateDownloadSize(Some(DecimalDigits(actual)), actual) == Pass
  {
    ParseIntOfDecimal(actual);
  }

  /** A header stating any other size fails with a message naming both. */
  lemma ValidateRejectsOtherLength(expected: nat, actual: nat)
    requires expected != actual
    ensures ValidateDownloadSize(Some(DecimalDigits(expected)), actual)
            == Fail(ExpectedSizeText + DecimalDigits(expected) + ActualSizeText + DecimalDigits(actual))
  {
    ParseIntOfDecimal(expected);
    assert NumberToString(Int(expected)) == DecimalDigits(expected);
    assert NumberToString(Int(actual)) == DecimalDigits(actual);
    assert CompareSizes(Int(expected), actual) == Fail(IncompleteDownloadMessage(Int(expected), actual));
  }

  /** A header that does not parse to a number always fails: NaN equals no
      file size. */
  lemma ValidateRejectsNaN(header: string, actual: nat)
    requires header != "" && ParseInt(header) == NaN
    ensures ValidateDownloadSize(Some(header), actual)
            == Fail(ExpectedSizeText + "NaN" + ActualSizeText + DecimalDigits(actual))
  {
  }

  /** A missing or empty header is tolerated whatever the file size. */
  lemma ValidateToleratesMissingHeader(actual: nat)
    ensures ValidateDownloadSize(None, actual) == Pass
    ensures ValidateDownloadSize(Some(""), actual) == Pass
  {
  }

  /** For a truthy header the check passes exactly when the parsed value is
      the file size. */
  lemma ValidatePassesIff(header: string, actual: nat)
    requires header != ""
    ensures ValidateDownloadSize(Some(header), actual).Pass? <==> ParseInt(header) == Int(actual)
  {
  }

  /** `Content-Length: 100` accepts a 100-byte file. */
  lemma ValidateExampleExact()
    ensures ValidateDownloadSize(Some("100"), 100) == Pass
  {
    DecimalHundred();
    ValidateAcceptsExactLength(100);
  }

  /** `Content-Length: 100` rejects a 99-byte file, naming both sizes. */
  lemma ValidateExampleShort()
    ensures ValidateDownloadSize(Some("100"), 99)
            == Fail(ExpectedSizeText + "100" + ActualSizeText + "99")
  {
    DecimalHundred();
    assert DecimalDigits(99) == "99" by {
      assert DigitChar(9) == '9';
      assert DecimalDigits(9) == "9";
    }
    ValidateRejectsOtherLength(100, 99);
  }

  lemma DecimalHundred()
    ensures DecimalDigits(100) == "100"
  {
  }

  /** Writing a file twice leaves only the second contents. */
  lemma OverwriteFile(fs: FileMap, path: string, first: seq<byte>, second: seq<byte>)
    ensures fs[path := first][path := second] == fs[path := second]
  {
  }

  /** `pipeResponseToStream`: the body is streamed into the file, or the
      pipe fails with the error of the aborted stream, leaving what arrived. */
  method PipeResponseToStream(fs: FileMap, path: string, body: Body)
    returns (fs': FileMap, error: Option<string>)
    ensures body.Complete? ==> fs' == fs[path := body.bytes] && error == None
    ensures body.Aborted? ==> fs' == fs[path := body.received] && error == Some(body.error)
  {
    match body {
      case Complete(bytes) =>
        fs' := fs[path := bytes];
        error := None;
      case Aborted(received, e) =>
        fs' := fs[path := received];
        error := Some(e);
    }
  }

  /** `downloadCacheHttpClient`. The file is created before the GET goes
      out, so every outcome leaves it in place: empty if the GET failed,
      holding what arrived if the stream was aborted. The size is checked
      only once the whole body is in the file. */
  method DownloadCacheHttpClient(
    fs: FileMap, archiveLocation: string, archivePath: string,
    getResult: Result<HttpResponse, string>)
    returns (fs': FileMap, effects: seq<Effect>, result: Outcome<string>)
    ensures |effects| >= 2 && effects[..2] == [CreateFile(archivePath), HttpGet(archiveLocation)]
    ensures getResult.Failure? ==>
              && fs' == fs[archivePath := []]
              && effects == [CreateFile(archivePath), HttpGet(archiveLocation)]
              && result == Fail(getResult.error)
    ensures getResult.Success? && getResult.value.body.Aborted? ==>
              && fs' == fs[archivePath := getResult.value.body.received]
              && effects == [CreateFile(archivePath), HttpGet(archiveLocation), Pipe(archivePath)]
              && result == Fail(getResult.value.body.error)
    ensures getResult.Success? && getResult.value.body.Complete? ==>
              var response := getResult.value;
              && fs' == fs[archivePath := response.body.bytes]
              && effects == [CreateFile(archivePath), HttpGet(archiveLocation), Pipe(archivePath)]
                            + (if IsTruthy(response.contentLength) then [ReadFileSize(archivePath)] else [])
              && result == ValidateDownloadSize(response.contentLength, |response.body.bytes|)
  {
    var written := fs[archivePath := []];
    effects := [CreateFile(archivePath), HttpGet(archiveLocation)];
    if getResult.Failure? {
      return written, effects, Fail(getResult.error);
    }
    var downloadResponse := getResult.value;

    var pipeError;
    effects := effects + [Pipe(archivePath)];
    written, pipeError := PipeResponseToStream(written, archivePath, downloadResponse.body);
    match downloadResponse.body {
      case Complete(bytes) => OverwriteFile(fs, archivePath, [], bytes);
      case Aborted(received, _) => OverwriteFile(fs, archivePath, [], received);
    }
    if pipeError.Some? {
      return written, effects, Fail(pipeError.value);
    }

    // The body is complete: only now is the file's size compared with the header.
    var contentLengthHeader := downloadResponse.contentLength;
    if contentLengthHeader.Some? && contentLengthHeader.value != "" {
      var expectedLength := ParseInt(contentLengthHeader.value);
      effects := effects + [ReadFileSize(archivePath)];
      var actualLength := |written[archivePath]|;
      result := CompareSizes(expectedLength, actualLength);
    } else {
      result := Pass;
    }
    fs' := written;
  }

  /** `downloadCacheStorageS3`. A response without a body fails before any
      file is created; otherwise the file holds the body, with no length
      check. */
  method DownloadCacheStorageS3(
    fs: FileMap, key: string, archivePath: string, s3Options: S3ClientConfig, s3BucketName: string,
    sendResult: Result<GetObjectOutput, string>)
    returns (fs': FileMap, effects: seq<Effect>, result: Outcome<string>)
    ensures |effects| >= 1 && effects[0] == S3Send(s3Options, GetObjectRequest(s3BucketName, key))
    ensures sendResult.Failure? ==>
              && fs' == fs
              && effects == [S3Send(s3Options, GetObjectRequest(s3BucketName, key))]
              && result == Fail(sendResult.error)
    ensures sendResult.Success? && sendResult.value.Body.None? ==>
              && fs' == fs
              && effects == [S3Send(s3Options, GetObjectRequest(s3BucketName, key))]
              && result == Fail(MissingBodyMessage)
    ensures sendResult.Success? && sendResult.value.Body.Some? ==>
              var body := sendResult.value.Body.value;
              && effects == [effects[0], CreateFile(archivePath), Pipe(archivePath)]
              && (body.Complete? ==> fs' == fs[archivePath := body.bytes] && result == Pass)
              && (body.Aborted? ==> fs' == fs[archivePath := body.received] && result == Fail(body.error))
  {
    var param := GetObjectRequest(s3BucketName, key);
    effects := [S3Send(s3Options, param)];
    fs' := fs;
    if sendResult.Failure? {
      result := Fail(sendResult.error);
      return;
    }
    var response := sendResult.value;
    if response.Body.None? {
      result := Fail(MissingBodyMessage);
      return;
    }

    fs' := fs'[archivePath := []];
    effects := effects + [CreateFile(archivePath)];

    effects := effects + [Pipe(archivePath)];
    match response.Body.value
    case Complete(bytes) =>
      fs' := fs'[archivePath := bytes];
      result := Pass;
    case Aborted(received, error) =>
      fs' := fs'[archivePath := received];
      result := Fail(error);
  }
}
