/**
 * The FastAPI backend in front of NASA Harmony: credential gating of the
 * shared Harmony client at start-up, the bearer-token check, the health
 * endpoints, and the `/tempo/data` handler's own logic (time normalisation,
 * the optional bounding box, and the summary of downloaded files). The
 * Harmony calls themselves (submit, wait, download) are an input.
 */
module HarmonyApi {
  import opened Wrappers
  import opened Text

  const PlaceholderUsername := "your_username_here"
  const DefaultSecretKey := "default-token"
  const DefaultVersion := "1.0.0"
  const TempoCollection := "C2930730944-LARC_CLOUD"

  /** An exception FastAPI turns into an HTTP error response. */
  datatype HttpError = HttpError(status: nat, detail: string, headers: seq<(string, string)>)

  /** A Harmony client, authenticated with the Earthdata credentials. */
  datatype Client = Client(username: string, password: string)

  /** Python's `not s` for an optional string: unset or empty. */
  predicate Blank(s: Option<string>) { s.None? || s.value == "" }

  /** The credentials are usable: both set and non-empty, and the user name is not the template's placeholder. */
  predicate CredentialsUsable(username: Option<string>, password: Option<string>)
  {
    !(Blank(username) || Blank(password) || username.value == PlaceholderUsername)
  }

  /** The process-wide `harmony_client`. */
  class Server {
    var client: Option<Client>

    constructor ()
      ensures client.None?
    {
      client := None;
    }

    /** Start-up half of `lifespan`: create the client only from usable
        credentials; `constructorFails` says whether `Client(...)` raises. */
    method Startup(username: Option<string>, password: Option<string>, constructorFails: bool)
      modifies this
      ensures client.Some? <==> CredentialsUsable(username, password) && !constructorFails
      ensures client.Some? ==> client.value == Client(username.value, password.value)
    {
      if Blank(username) || Blank(password) || username.value == PlaceholderUsername {
        client := None;
      } else if constructorFails {
        client := None;
      } else {
        client := Some(Client(username.value, password.value));
      }
    }

    /** Shutdown half of `lifespan`: the client is dropped. */
    method Shutdown()
      modifies this
      ensures client.None?
    {
      client := None;
    }
  }

  /** `get_harmony_client`: the client, or 503 when there is none. */
  function GetHarmonyClient(client: Option<Client>): (r: Result<Client, HttpError>)
    ensures client.Some? <==> r.Success?
    ensures r.Success? ==> r.value == client.value
    ensures r.Failure? ==> r.error == HttpError(503, "Harmony client not available", [])
  {
    match client
    case Some(c) => Success(c)
    case None => Failure(HttpError(503, "Harmony client not available", []))
  }

  /** `verify_token`: exactly the `SECRET_KEY` (or, when unset, `default-token`) passes;
      anything else is a 401 asking for a bearer token. An empty `SECRET_KEY`
      is used as it is: `getenv` falls back only when the variable is unset. */
  function VerifyToken(token: string, secretKey: Option<string>): (r: Result<string, HttpError>)
    ensures r.Success? <==> token == secretKey.GetOr(DefaultSecretKey)
    ensures r.Success? ==> r.value == token
    ensures r.Failure? ==> r.error == HttpError(401, "Invalid authentication token", [("WWW-Authenticate", "Bearer")])
  {
    var expected := secretKey.GetOr(DefaultSecretKey);
    if token != expected then
      Failure(HttpError(401, "Invalid authentication token", [("WWW-Authenticate", "Bearer")]))
    else Success(token)
  }

  datatype HealthResponse = HealthResponse(status: string, timestamp: string, version: string)

  /** `GET /health`: healthy exactly when a client exists. `now` is the UTC clock reading. */
  function HealthCheck(client: Option<Client>, apiVersion: Option<string>, now: string): (h: HealthResponse)
    ensures h.status == "healthy" <==> client.Some?
    ensures h.status == "healthy" || h.status == "unhealthy"
    ensures h.timestamp == now && h.version == apiVersion.GetOr(DefaultVersion)
  {
    HealthResponse(if client.Some? then "healthy" else "unhealthy", now, apiVersion.GetOr(DefaultVersion))
  }

  /** `GET /`: always healthy, with or without a client. */
  function Root(apiVersion: Option<string>, now: string): (h: HealthResponse)
    ensures h.status == "healthy"
    ensures h.timestamp == now && h.version == apiVersion.GetOr(DefaultVersion)
  {
    HealthResponse("healthy", now, apiVersion.GetOr(DefaultVersion))
  }

  /** The root endpoint and the health endpoint agree exactly when the client exists. */
  lemma RootAndHealthAgree(client: Option<Client>, apiVersion: Option<string>, now: string)
    ensures HealthCheck(client, apiVersion, now) == Root(apiVersion, now) <==> client.Some?
  {
  }

  // ---------------------------------------------------------------------------
  // POST /tempo/data

  datatype BBox = BBox(west: real, south: real, east: real, north: real)

  /** The spatial filter: set only for a box of exactly four numbers, read west, south, east, north. */
  function SpatialFilter(bbox: Option<seq<real>>): (r: Option<BBox>)
    ensures r.Some? <==> bbox.Some? && |bbox.value| == 4
    ensures r.Some? ==> r.value == BBox(bbox.value[0], bbox.value[1], bbox.value[2], bbox.value[3])
  {
    if bbox.Some? && |bbox.value| == 4 then
      Some(BBox(bbox.value[0], bbox.value[1], bbox.value[2], bbox.value[3]))
    else None
  }

  /** `s.replace('Z', '+00:00')`: every `Z` becomes an explicit UTC offset before parsing. */
  function NormalizeUtc(s: string): (r: string)
    ensures 'Z' !in r
    ensures |r| == |s| + 5 * Count(s, 'Z')
  {
    ReplaceCharLength(s, 'Z', "+00:00");
    ReplaceChar(s, 'Z', "+00:00")
  }

  /** Each `Z` becomes `+00:00` where it stood and every other character is kept:
      normalising a concatenation normalises each part. */
  lemma NormalizeUtcInPlace(a: string, b: string, x: char)
    ensures NormalizeUtc(a + b) == NormalizeUtc(a) + NormalizeUtc(b)
    ensures NormalizeUtc([x]) == if x == 'Z' then "+00:00" else [x]
  {
    ReplaceCharAppend(a, b, 'Z', "+00:00");
    ReplaceCharSingle(x, 'Z', "+00:00");
  }

  /** A timestamp ending in its one `Z` ends in `+00:00` instead. */
  lemma TrailingZIsUtcOffset(t: string)
    requires 'Z' !in t
    ensures NormalizeUtc(t + "Z") == t + "+00:00"
  {
    NormalizeUtcInPlace(t, "Z", 'Z');
    NormalizeUtcKeeps(t);
  }

  /** A timestamp without `Z` is parsed as written. */
  lemma NormalizeUtcKeeps(s: string)
    requires 'Z' !in s
    ensures NormalizeUtc(s) == s
  {
    CountZero(s, 'Z');
    if |s| > 0 {
      NormalizeUtcKeeps(s[1..]);
    }
  }

  datatype TempoDataRequest = TempoDataRequest(startTime: string, endTime: string,
                                               bbox: Option<seq<real>>, variables: Option<seq<string>>)

  /** The Harmony request the handler submits. `start`/`stop` are the parsed instants. */
  datatype HarmonyRequest = HarmonyRequest(collection: string, start: int, stop: int, spatial: Option<BBox>)

  /** What the filesystem says of one downloaded path: present with a size,
      absent, or present but its size cannot be read (the handler skips it). */
  datatype FileState = Present(size: nat) | Absent | Unreadable(reason: string)
  datatype DownloadedFile = DownloadedFile(path: string, state: FileState)

  datatype FileInfo = FileInfo(filePath: string, fileSize: nat, fileName: string, status: string,
                               requestedVariables: Option<seq<string>>)

  /** The outcome of submitting, waiting for and downloading a job: its id and
      files, or the message of the exception raised on the way. */
  type HarmonyOutcome = Result<(string, seq<DownloadedFile>), string>

  datatype TempoData = TempoData(jobId: string, filesProcessed: nat, files: seq<FileInfo>)
  datatype TempoDataResponse = TempoDataResponse(success: bool, data: Option<TempoData>, message: string)

  /** `os.path.basename`: what follows the last `/`. */
  function Basename(path: string): (r: string)
    ensures |r| <= |path| && '/' !in r
  {
    if |path| == 0 then ""
    else if path[|path| - 1] == '/' then ""
    else Basename(path[..|path| - 1]) + [path[|path| - 1]]
  }

  /** The base name is the longest tail of the path without a `/`: it is a
      suffix of the path, has no `/`, and is preceded by a `/` unless it is the whole path. */
  lemma {:induction false} BasenameIsLastSegment(path: string)
    ensures var r := Basename(path);
      |r| <= |path| && r == path[|path| - |r|..] && '/' !in r &&
      (|r| < |path| ==> path[|path| - |r| - 1] == '/')
  {
    if |path| > 0 && path[|path| - 1] != '/' {
      var n := |path|;
      var init := path[..n - 1];
      BasenameIsLastSegment(init);
      var r', r := Basename(init), Basename(path);
      assert r == r' + [path[n - 1]];
      assert path[n - |r|..] == init[|init| - |r'|..] + [path[n - 1]];
      if |r| < n {
        assert path[n - |r| - 1] == init[|init| - |r'| - 1];
      }
    }
  }

  /** The summary of one file, or nothing when reading it raised. `variables`
      are attached only when the request named some (a non-empty list). */
  function Describe(f: DownloadedFile, variables: Option<seq<string>>): (r: Option<FileInfo>)
    ensures r.Some? <==> !f.state.Unreadable?
    ensures r.Some? ==> r.value.filePath == f.path && r.value.fileName == Basename(f.path) && r.value.status == "downloaded"
    ensures r.Some? ==> r.value.fileSize == (if f.state.Present? then f.state.size else 0)
    ensures r.Some? ==> (r.value.requestedVariables.Some? <==> variables.Some? && |variables.value| > 0)
    ensures r.Some? && r.value.requestedVariables.Some? ==> r.value.requestedVariables == variables
  {
    var attached := if variables.Some? && |variables.value| > 0 then variables else None;
    match f.state
    case Unreadable(_) => None
    case Present(size) => Some(FileInfo(f.path, size, Basename(f.path), "downloaded", attached))
    case Absent => Some(FileInfo(f.path, 0, Basename(f.path), "downloaded", attached))
  }

  /** The summaries of the files that could be read, in download order. */
  function Summaries(files: seq<DownloadedFile>, variables: Option<seq<string>>): (r: seq<FileInfo>)
    ensures |r| <= |files|
    ensures (forall i :: 0 <= i < |files| ==> !files[i].state.Unreadable?) ==> |r| == |files|
  {
    if |files| == 0 then []
    else
      var rest := Summaries(files[1..], variables);
      assert forall i :: 1 <= i < |files| ==> files[1..][i - 1] == files[i];
      match Describe(files[0], variables)
      case None => rest
      case Some(info) => [info] + rest
  }

  /** Every summary the handler keeps is the summary of one downloaded file
      that could be read: the `k`-th summary describes file `i`. */
  lemma {:induction false} SummaryOrigin(files: seq<DownloadedFile>, variables: Option<seq<string>>, k: nat)
    returns (i: nat)
    requires k < |Summaries(files, variables)|
    ensures i < |files| && Describe(files[i], variables) == Some(Summaries(files, variables)[k])
  {
    var all := Summaries(files, variables);
    var rest := Summaries(files[1..], variables);
    match Describe(files[0], variables)
    case None =>
      assert all == rest;
      var j := SummaryOrigin(files[1..], variables, k);
      i := j + 1;
      assert files[1..][j] == files[i];
    case Some(info) =>
      assert all == [info] + rest;
      if k == 0 {
        i := 0;
      } else {
        var j := SummaryOrigin(files[1..], variables, k - 1);
        i := j + 1;
        assert files[1..][j] == files[i];
      }
  }

  /** The summaries one file contributes: its own, or none when reading it raised. */
  function Kept(f: DownloadedFile, variables: Option<seq<string>>): seq<FileInfo>
  {
    match Describe(f, variables)
    case None => []
    case Some(info) => [info]
  }

  /** Summarising one more file at the end appends what that file contributes. */
  lemma {:induction false} SummariesSnoc(files: seq<DownloadedFile>, f: DownloadedFile, variables: Option<seq<string>>)
    ensures Summaries(files + [f], variables) == Summaries(files, variables) + Kept(f, variables)
  {
    if |files| > 0 {
      assert (files + [f])[1..] == files[1..] + [f];
      SummariesSnoc(files[1..], f, variables);
    }
  }

  /** The loop over the downloaded files, in download order: each one is
      summarised and appended, and one whose size cannot be read is skipped. */
  method ProcessFiles(files: seq<DownloadedFile>, variables: Option<seq<string>>) returns (processed: seq<FileInfo>)
    ensures processed == Summaries(files, variables)
  {
    processed := [];
    for i := 0 to |files|
      invariant processed == Summaries(files[..i], variables)
    {
      SummariesSnoc(files[..i], files[i], variables);
      assert files[..i + 1] == files[..i] + [files[i]];
      match Describe(files[i], variables) {
        case None =>
        case Some(info) => processed := processed + [info];
      }
    }
    assert files[..|files|] == files;
  }

  const ErrorPrefix := "Error fetching TEMPO data: "

  /**
   * The body of `get_tempo_data`, once the client and token dependencies have
   * passed: parse both times (after `Z` normalisation) with `parseIso`, build
   * the request for the TEMPO collection with the optional box, hand it to
   * Harmony (`outcome` is what that yields), and summarise the files. Any
   * exception gives `success: false` with the prefixed message.
   */
  method GetTempoData(request: TempoDataRequest, parseIso: string -> Result<int, string>, outcome: HarmonyOutcome)
    returns (response: TempoDataResponse, submitted: Option<HarmonyRequest>)
    ensures parseIso(NormalizeUtc(request.startTime)).Failure? ==>
              submitted == None && response == TempoDataResponse(false, None, ErrorPrefix + parseIso(NormalizeUtc(request.startTime)).error)
    ensures submitted.Some? <==> parseIso(NormalizeUtc(request.startTime)).Success? && parseIso(NormalizeUtc(request.endTime)).Success?
    ensures submitted.Some? ==> submitted.value == HarmonyRequest(TempoCollection, parseIso(NormalizeUtc(request.startTime)).value,
                                                                  parseIso(NormalizeUtc(request.endTime)).value, SpatialFilter(request.bbox))
    ensures response.success <==> submitted.Some? && outcome.Success?
    ensures response.success ==>
              var files := Summaries(outcome.value.1, request.variables);
              response.data == Some(TempoData(outcome.value.0, |files|, files))
              && response.message == "Successfully processed " + NatToString(|files|) + " files"
    ensures parseIso(NormalizeUtc(request.startTime)).Success? && parseIso(NormalizeUtc(request.endTime)).Failure? ==>
              response == TempoDataResponse(false, None, ErrorPrefix + parseIso(NormalizeUtc(request.endTime)).error)
    ensures submitted.Some? && outcome.Failure? ==> response == TempoDataResponse(false, None, ErrorPrefix + outcome.error)
    ensures !response.success ==> response.data == None && |response.message| >= |ErrorPrefix|
                                  && response.message[..|ErrorPrefix|] == ErrorPrefix
  {
    var start := parseIso(NormalizeUtc(request.startTime));
    if start.Failure? {
      return TempoDataResponse(false, None, ErrorPrefix + start.error), None;
    }
    var stop := parseIso(NormalizeUtc(request.endTime));
    if stop.Failure? {
      return TempoDataResponse(false, None, ErrorPrefix + stop.error), None;
    }
    var harmonyRequest := HarmonyRequest(TempoCollection, start.value, stop.value, SpatialFilter(request.bbox));
    submitted := Some(harmonyRequest);
    match outcome
    case Failure(reason) =>
      response := TempoDataResponse(false, None, ErrorPrefix + reason);
    case Success((jobId, files)) =>
      var processed := ProcessFiles(files, request.variables);
      response := TempoDataResponse(true, Some(TempoData(jobId, |processed|, processed)),
                                    "Successfully processed " + NatToString(|processed|) + " files");
  }
}
