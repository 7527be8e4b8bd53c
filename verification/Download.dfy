/**
 * Export jobs and their signed download links: an export stores its bytes in a data
 * URI, a token names the job and an expiry, and resolving a token reads the bytes back.
 */
module Download {
  import opened Prelude
  import opened Base64
  import opened Text
  import Csv

  const MIN_TTL_MS := 5 * 60 * 1000
  const MAX_TTL_MS := 24 * 60 * 60 * 1000

  datatype Format = CsvFormat | JsonFormat

  datatype JobStatus = Pending | Running | Completed | Failed | Expired

  datatype Job = Job(
    projectId: string, format: Format, status: JobStatus, rowCount: nat,
    downloadUrl: Option<string>, expiresAt: Option<int>, errorMessage: Option<string>)

  type Jobs = map<string, Job>

  datatype Payload = Payload(jobId: string, projectId: string, expiresAt: int)

  datatype File = File(content: seq<Byte>, mimeType: string, filename: string)

  datatype Refusal =
    | TokenFormat | TokenSignature | TokenPayload | TokenExpired | WrongJob
    | NotFound | NotCompleted | NoStoredData | MalformedData

  /** JSON text of a payload and back, and HMAC-SHA256 under the configured secret. */
  datatype Primitives = Primitives(
    json: Payload -> seq<Byte>, parse: seq<Byte> -> Option<Payload>, hmac: string -> seq<Byte>)

  /** The one equation needed: `JSON.parse` inverts `JSON.stringify` on payloads. */
  ghost predicate Lawful(p: Primitives) {
    forall x :: p.parse(p.json(x)) == Some(x)
  }

  // ----- Tokens -----

  function Clamp(ttl: int): int {
    Min(MAX_TTL_MS, Max(MIN_TTL_MS, ttl))
  }

  function GenerateToken(p: Primitives, jobId: string, projectId: string, ttl: int, now: int): (string, int) {
    var expiresAt := now + Clamp(ttl);
    var payload := Encode(UrlSafe, p.json(Payload(jobId, projectId, expiresAt)));
    (payload + "." + Encode(UrlSafe, p.hmac(payload)), expiresAt)
  }

  function Split(s: string, c: char): (parts: seq<string>)
    ensures |parts| > 0
  {
    var i := IndexOf(s, c);
    if i == |s| then [s] else [s[..i]] + Split(s[i + 1..], c)
  }

  function VerifyToken(p: Primitives, token: string, now: int): Result<Payload, Refusal> {
    var parts := Split(token, '.');
    if |parts| != 2 then Err(TokenFormat)
    else if Decode(parts[1]) != Decode(Encode(UrlSafe, p.hmac(parts[0]))) then Err(TokenSignature)
    else
      match p.parse(Decode(parts[0]))
      case None => Err(TokenPayload)
      case Some(payload) => if payload.expiresAt < now then Err(TokenExpired) else Ok(payload)
  }

  // ----- Stored content -----

  function MimeType(f: Format): string {
    if f == CsvFormat then "text/csv" else "application/json"
  }

  function DataUri(mimeType: string, content: seq<Byte>): string {
    "data:" + mimeType + ";base64," + Encode(Standard, content)
  }

  /** The match of `^data:([^;]+);base64,(.+)$`: its first group ends at the first semicolon. */
  function ParseDataUri(s: string): Option<(string, string)> {
    if |s| < 5 || s[..5] != "data:" then None
    else
      var body := s[5..];
      var i := IndexOf(body, ';');
      if i == 0 || |body| <= i + 8 || body[i..i + 8] != ";base64," then None
      else Some((body[..i], body[i + 8..]))
  }

  function Filename(jobId: string, f: Format): string {
    "export-" + jobId + (if f == JsonFormat then ".json" else ".csv")
  }

  // ----- Issuing and resolving links -----

  function IssueDownloadLink(p: Primitives, jobs: Jobs, jobId: string, projectId: string, ttl: int, now: int)
    : Result<(string, int), Refusal>
  {
    if jobId !in jobs || jobs[jobId].projectId != projectId then Err(NotFound)
    else if jobs[jobId].status != Completed then Err(NotCompleted)
    else if jobs[jobId].downloadUrl in {None, Some("")} then Err(NoStoredData)
    else Ok(GenerateToken(p, jobId, projectId, ttl, now))
  }

  function ResolveDownload(p: Primitives, jobs: Jobs, jobId: string, token: string, now: int): Result<File, Refusal> {
    match VerifyToken(p, token, now)
    case Err(e) => Err(e)
    case Ok(payload) =>
      if payload.jobId != jobId then Err(WrongJob)
      else if jobId !in jobs || jobs[jobId].projectId != payload.projectId then Err(NotFound)
      else if jobs[jobId].status != Completed || jobs[jobId].downloadUrl in {None, Some("")} then Err(NotCompleted)
      else
        match ParseDataUri(jobs[jobId].downloadUrl.value)
        case None => Err(MalformedData)
        case Some((mimeType, text)) => Ok(File(Decode(text), mimeType, Filename(jobId, jobs[jobId].format)))
  }

  // ----- Running an export -----

  /** What the background run obtains: the rows with their JSON text, or an error message. */
  datatype Fetch = Fetched(rows: seq<Csv.Row>, json: string) | FetchFails(message: string)

  function Content(f: Format, rows: seq<Csv.Row>, json: string): seq<Byte> {
    Utf8(if f == CsvFormat then Csv.CsvText(Csv.HEADERS, rows) else json)
  }

  function AfterExport(job: Job, fetch: Fetch, now: int): Job {
    match fetch
    case Fetched(rows, json) =>
      job.(status := Completed, rowCount := |rows|,
           downloadUrl := Some(DataUri(MimeType(job.format), Content(job.format, rows, json))),
           expiresAt := Some(now + MAX_TTL_MS))
    case FetchFails(message) =>
      job.(status := Failed, errorMessage := Some(message[..Min(500, |message|)]))
  }

  method Serialize(f: Format, rows: seq<Csv.Row>, json: string) returns (content: seq<Byte>)
    ensures content == Content(f, rows, json)
  {
    var text := json;
    if f == CsvFormat {
      text := Csv.SerializeCsv(rows);
    }
    content := Utf8(text);
  }

  class ExportService {
    var jobs: Jobs

    constructor ()
      ensures jobs == map[]
    {
      jobs := map[];
    }

    /** `ok` is false when the row to mark RUNNING does not exist. */
    method RunExport(jobId: string, fetch: Fetch, now: int) returns (ok: bool)
      modifies this
      ensures ok == (jobId in old(jobs))
      ensures jobs == if ok then old(jobs)[jobId := AfterExport(old(jobs)[jobId], fetch, now)] else old(jobs)
    {
      if jobId !in jobs {
        return false;
      }
      jobs := jobs[jobId := jobs[jobId].(status := Running)];
      match fetch {
        case Fetched(rows, json) =>
          var content := Serialize(jobs[jobId].format, rows, json);
          var uri := DataUri(MimeType(jobs[jobId].format), content);
          jobs := jobs[jobId := jobs[jobId].(status := Completed, rowCount := |rows|, downloadUrl := Some(uri),
                                             expiresAt := Some(now + MAX_TTL_MS))];
        case FetchFails(message) =>
          jobs := jobs[jobId := jobs[jobId].(status := Failed, errorMessage := Some(message[..Min(500, |message|)]))];
      }
      return true;
    }
  }

  /** UTF-8 (RFC 3629) of a text. */
  function Utf8(s: string): seq<Byte> {
    if s == "" then [] else Utf8Char(s[0] as int) + Utf8(s[1..])
  }

  function Utf8Char(n: int): (b: seq<Byte>)
    requires 0 <= n < 0x11_0000
    ensures |b| > 0
  {
    if n < 0x80 then [n]
    else if n < 0x800 then [0xC0 + n / 64, 0x80 + n % 64]
    else if n < 0x1_0000 then [0xE0 + n / 4096, 0x80 + n / 64 % 64, 0x80 + n % 64]
    else [0xF0 + n / 262144, 0x80 + n / 4096 % 64, 0x80 + n / 64 % 64, 0x80 + n % 64]
  }

  /** The first code point of UTF-8 bytes and how many bytes it takes. */
  function CodePoint(b: seq<Byte>): (r: (int, nat))
    requires b != []
    ensures 1 <= r.1 <= |b|
  {
    var lead: int := b[0];
    if lead < 0x80 then (lead, 1)
    else if 0xC0 <= lead < 0xE0 && |b| >= 2 then ((lead - 0xC0) * 64 + Low(b[1]), 2)
    else if 0xE0 <= lead < 0xF0 && |b| >= 3 then ((lead - 0xE0) * 4096 + Low(b[1]) * 64 + Low(b[2]), 3)
    else if 0xF0 <= lead && |b| >= 4 then
      ((lead - 0xF0) * 262144 + Low(b[1]) * 4096 + Low(b[2]) * 64 + Low(b[3]), 4)
    else (0xFFFD, 1)
  }

  /** The six bits of a continuation byte. */
  function Low(b: Byte): int {
    b - 0x80
  }

  /** A number that is no code point reads as the replacement character. */
  function ToChar(n: int): char {
    if 0 <= n < 0xD800 || 0xE000 <= n < 0x11_0000 then n as char else '\U{FFFD}'
  }

  function FromUtf8(b: seq<Byte>): string {
    if b == [] then "" else
      var (n, k) := CodePoint(b);
      [ToChar(n)] + FromUtf8(b[k..])
  }

  // ----- Round trips -----

  lemma SixBits(n: nat)
    ensures n == n / 64 * 64 + n % 64
    ensures n == n / 4096 * 4096 + n / 64 % 64 * 64 + n % 64
    ensures n == n / 262144 * 262144 + n / 4096 % 64 * 4096 + n / 64 % 64 * 64 + n % 64
  {
    var m := n / 64;
    var k := m / 64;
    assert m == k * 64 + m % 64 && k == n / 4096;
    assert k == k / 64 * 64 + k % 64 && k / 64 == n / 262144;
  }

  lemma FirstCodePoint(n: int, rest: seq<Byte>)
    requires 0 <= n < 0x11_0000
    ensures CodePoint(Utf8Char(n) + rest) == (n, |Utf8Char(n)|)
    ensures (Utf8Char(n) + rest)[|Utf8Char(n)|..] == rest
  {
    var u := Utf8Char(n);
    var b := u + rest;
    SixBits(n);
    assert forall i :: 0 <= i < |u| ==> b[i] == u[i];
  }

  lemma {:induction false} TextRoundTrip(s: string)
    ensures FromUtf8(Utf8(s)) == s
  {
    if s != "" {
      FirstCodePoint(s[0] as int, Utf8(s[1..]));
      TextRoundTrip(s[1..]);
      assert s == [s[0]] + s[1..];
    }
  }

  lemma SplitAtDot(a: string, b: string)
    requires '.' !in a && '.' !in b
    ensures Split(a + "." + b, '.') == [a, b]
  {
    IndexOfFirst(a, '.', b);
    IndexOfAbsent(b, '.');
    var s := a + "." + b;
    assert s[..|a|] == a && s[|a| + 1..] == b;
  }

  /** A token verifies to its payload up to and including its expiry, and never after. */
  lemma TokenRoundTrip(p: Primitives, jobId: string, projectId: string, ttl: int, issuedAt: int, now: int)
    requires Lawful(p)
    ensures var (token, expiresAt) := GenerateToken(p, jobId, projectId, ttl, issuedAt);
      && issuedAt + MIN_TTL_MS <= expiresAt <= issuedAt + MAX_TTL_MS
      && (MIN_TTL_MS <= ttl <= MAX_TTL_MS ==> expiresAt == issuedAt + ttl)
      && VerifyToken(p, token, now)
         == if now <= expiresAt then Ok(Payload(jobId, projectId, expiresAt)) else Err(TokenExpired)
  {
    var payload := Payload(jobId, projectId, issuedAt + Clamp(ttl));
    var text := Encode(UrlSafe, p.json(payload));
    UrlSafeText(p.json(payload));
    UrlSafeText(p.hmac(text));
    SplitAtDot(text, Encode(UrlSafe, p.hmac(text)));
    DecodeEncode(UrlSafe, p.json(payload));
  }

  /** The stored URI parses back to its parts exactly when there is at least one byte of content. */
  lemma DataUriRoundTrip(mimeType: string, content: seq<Byte>)
    requires mimeType != "" && ';' !in mimeType
    ensures ParseDataUri(DataUri(mimeType, content))
         == if content == [] then None else Some((mimeType, Encode(Standard, content)))
  {
    var s := DataUri(mimeType, content);
    var body := s[5..];
    var text := Encode(Standard, content);
    assert s[..5] == "data:" && body == mimeType + (";base64," + text);
    assert body == mimeType + [';'] + ("base64," + text);
    IndexOfFirst(mimeType, ';', "base64," + text);
    var i := |mimeType|;
    assert body[i..i + 8] == ";base64," && body[i + 8..] == text && body[..i] == mimeType;
  }

  /**
   * For every job table, TTL request and content: the link of a completed job resolves, at any time up
   * to its expiry, to exactly the stored bytes and MIME type if and only if the content is not empty.
   */
  lemma DownloadRoundTrip(
      p: Primitives, jobs: Jobs, later: Jobs, jobId: string, otherId: string, ttl: int, issuedAt: int, now: int,
      content: seq<Byte>)
    requires Lawful(p)
    requires jobId in jobs && jobs[jobId].status == Completed
    requires jobs[jobId].downloadUrl == Some(DataUri(MimeType(jobs[jobId].format), content))
    requires jobId in later && later[jobId] == jobs[jobId]
    ensures var job := jobs[jobId];
      var link := IssueDownloadLink(p, jobs, jobId, job.projectId, ttl, issuedAt);
      && link == Ok(GenerateToken(p, jobId, job.projectId, ttl, issuedAt))
      && var (token, expiresAt) := link.value;
      && issuedAt + MIN_TTL_MS <= expiresAt <= issuedAt + MAX_TTL_MS
      && ResolveDownload(p, later, jobId, token, now) == (
           if expiresAt < now then Err(TokenExpired)
           else if content == [] then Err(MalformedData)
           else Ok(File(content, MimeType(job.format), Filename(jobId, job.format))))
      && (otherId != jobId ==> ResolveDownload(p, later, otherId, token, now).Err?)
  {
    var job := jobs[jobId];
    TokenRoundTrip(p, jobId, job.projectId, ttl, issuedAt, now);
    DataUriRoundTrip(MimeType(job.format), content);
    DecodeEncode(Standard, content);
    assert |DataUri(MimeType(job.format), content)| > 0;
  }

  lemma Utf8Empty(s: string)
    ensures Utf8(s) == [] <==> s == ""
  {
  }

  lemma NonEmptyCsv(rows: seq<Csv.Row>)
    ensures Csv.CsvText(Csv.HEADERS, rows) == "" <==> rows == []
  {
    if rows != [] {
      Csv.ExportRoundTrip(rows);
      assert Csv.Read("") == Some([]);
    }
  }

  /** So an export of no rows completes, its link is issued, and the link can never be downloaded. */
  lemma CsvExportDownloads(
      p: Primitives, job: Job, jobId: string, rows: seq<Csv.Row>, json: string,
      ttl: int, ranAt: int, issuedAt: int, now: int)
    requires Lawful(p) && job.format == CsvFormat
    ensures var jobs := map[jobId := AfterExport(job, Fetched(rows, json), ranAt)];
      var link := IssueDownloadLink(p, jobs, jobId, job.projectId, ttl, issuedAt);
      && link.Ok?
      && (now <= link.value.1 ==>
        ResolveDownload(p, jobs, jobId, link.value.0, now) == (
          if rows == [] then Err(MalformedData)
          else Ok(File(Utf8(Csv.CsvText(Csv.HEADERS, rows)), "text/csv", Filename(jobId, CsvFormat)))))
  {
    var jobs := map[jobId := AfterExport(job, Fetched(rows, json), ranAt)];
    var content := Content(CsvFormat, rows, json);
    DownloadRoundTrip(p, jobs, jobs, jobId, jobId, ttl, issuedAt, now, content);
    Utf8Empty(Csv.CsvText(Csv.HEADERS, rows));
    NonEmptyCsv(rows);
  }

  /** The whole way: the rows of a CSV export are read back, field by field, from what its link downloads. */
  lemma DownloadedRowsReadBack(
      p: Primitives, job: Job, jobId: string, rows: seq<Csv.Row>, json: string,
      ttl: int, ranAt: int, issuedAt: int, now: int)
    requires Lawful(p) && job.format == CsvFormat && rows != [] && now <= issuedAt + Clamp(ttl)
    ensures var jobs := map[jobId := AfterExport(job, Fetched(rows, json), ranAt)];
      var link := IssueDownloadLink(p, jobs, jobId, job.projectId, ttl, issuedAt);
      && link.Ok?
      && var file := ResolveDownload(p, jobs, jobId, link.value.0, now);
      && file.Ok?
      && Csv.Read(FromUtf8(file.value.content)) == Some([Csv.HEADERS] + Csv.RowTexts(Csv.HEADERS, rows))
  {
    CsvExportDownloads(p, job, jobId, rows, json, ttl, ranAt, issuedAt, now);
    TextRoundTrip(Csv.CsvText(Csv.HEADERS, rows));
    Csv.ExportRoundTrip(rows);
  }

  // ----- Which tokens are accepted, and which links are issued -----

  lemma {:induction false} SplitInTwo(s: string)
    ensures |Split(s, '.')| == 1 ==> Split(s, '.')[0] == s && '.' !in s
    ensures |Split(s, '.')| == 2 ==>
      var parts := Split(s, '.');
      s == parts[0] + "." + parts[1] && '.' !in parts[0] && '.' !in parts[1]
    decreases |s|
  {
    var i := IndexOf(s, '.');
    BeforeIndex(s);
    if i < |s| {
      SplitInTwo(s[i + 1..]);
      assert s == s[..i] + "." + s[i + 1..];
    }
  }

  lemma {:induction false} BeforeIndex(s: string)
    ensures '.' !in s[..IndexOf(s, '.')]
  {
    if s != "" && s[0] != '.' {
      BeforeIndex(s[1..]);
      assert s[..IndexOf(s, '.')] == [s[0]] + s[1..][..IndexOf(s[1..], '.')];
    }
  }

  /**
   * Any text at all is accepted exactly if it is two parts, the second decodes to the signature of the first, the first
   * decodes to a payload, and that has not expired. So whoever changes the payload needs its signature.
   */
  lemma TokenAccepted(p: Primitives, token: string, payload: Payload, now: int)
    ensures VerifyToken(p, token, now) == Ok(payload) <==>
      && now <= payload.expiresAt
      && exists a, b :: token == a + "." + b && IsSigned(p, a, b) && p.parse(Decode(a)) == Some(payload)
  {
    SplitInTwo(token);
    if VerifyToken(p, token, now) == Ok(payload) {
      var parts := Split(token, '.');
      DecodeEncode(UrlSafe, p.hmac(parts[0]));
      assert IsSigned(p, parts[0], parts[1]);
    }
    forall a, b | token == a + "." + b && IsSigned(p, a, b) && p.parse(Decode(a)) == Some(payload)
      && now <= payload.expiresAt
      ensures VerifyToken(p, token, now) == Ok(payload)
    {
      SplitAtDot(a, b);
      DecodeEncode(UrlSafe, p.hmac(a));
    }
  }

  predicate IsSigned(p: Primitives, a: string, b: string) {
    '.' !in a && '.' !in b && Decode(b) == p.hmac(a)
  }

  /** A link is issued exactly for a completed job of that project with stored data. */
  lemma IssueDecides(p: Primitives, jobs: Jobs, jobId: string, projectId: string, ttl: int, now: int)
    ensures var r := IssueDownloadLink(p, jobs, jobId, projectId, ttl, now);
      var found := jobId in jobs && jobs[jobId].projectId == projectId;
      && (r.Ok? <==> && found && jobs[jobId].status == Completed
                     && jobs[jobId].downloadUrl.Some? && jobs[jobId].downloadUrl.value != "")
      && (r == Err(NotFound) <==> !found)
      && (r == Err(NotCompleted) <==> found && jobs[jobId].status != Completed)
  {
    if jobId in jobs && jobs[jobId].downloadUrl.Some? {
      assert jobs[jobId].downloadUrl in {None, Some("")} <==> jobs[jobId].downloadUrl.value == "";
    }
  }

  /** An accepted token downloads exactly if it names the job, and the job is that project's, completed and readable. */
  lemma ResolveDecides(p: Primitives, jobs: Jobs, jobId: string, token: string, now: int, payload: Payload)
    requires VerifyToken(p, token, now) == Ok(payload)
    ensures var r := ResolveDownload(p, jobs, jobId, token, now);
      var found := jobId in jobs && jobs[jobId].projectId == payload.projectId;
      && (r.Ok? <==> && payload.jobId == jobId && found && jobs[jobId].status == Completed
                     && jobs[jobId].downloadUrl.Some? && ParseDataUri(jobs[jobId].downloadUrl.value).Some?)
      && (r == Err(WrongJob) <==> payload.jobId != jobId)
      && (r == Err(NotFound) <==> payload.jobId == jobId && !found)
  {
    assert ParseDataUri("") == None;
    if jobId in jobs && jobs[jobId].downloadUrl.Some? {
      assert jobs[jobId].downloadUrl in {None, Some("")} <==> jobs[jobId].downloadUrl.value == "";
    }
  }

  /** A JSON export downloads as its text, under its type and name. */
  lemma JsonExportDownloads(
      p: Primitives, job: Job, jobId: string, rows: seq<Csv.Row>, json: string,
      ttl: int, ranAt: int, issuedAt: int, now: int)
    requires Lawful(p) && job.format == JsonFormat && json != "" && now <= issuedAt + Clamp(ttl)
    ensures var jobs := map[jobId := AfterExport(job, Fetched(rows, json), ranAt)];
      var link := IssueDownloadLink(p, jobs, jobId, job.projectId, ttl, issuedAt);
      && link.Ok?
      && var file := ResolveDownload(p, jobs, jobId, link.value.0, now);
      && file.Ok? && file.value.mimeType == "application/json" && file.value.filename == "export-" + jobId + ".json"
      && FromUtf8(file.value.content) == json
  {
    var jobs := map[jobId := AfterExport(job, Fetched(rows, json), ranAt)];
    Utf8Empty(json);
    TextRoundTrip(json);
    DownloadRoundTrip(p, jobs, jobs, jobId, jobId, ttl, issuedAt, now, Utf8(json));
  }

  /** What a run notes about its job: the rows and a day of storage, or the first 500 characters of what went wrong. */
  lemma ExportNotes(p: Primitives, job: Job, jobId: string, fetch: Fetch, ranAt: int, ttl: int, now: int)
    ensures var job' := AfterExport(job, fetch, ranAt);
      && job'.projectId == job.projectId && job'.format == job.format
      && (fetch.Fetched? ==>
            && job'.status == Completed && job'.rowCount == |fetch.rows|
            && job'.expiresAt == Some(ranAt + 24 * 60 * 60 * 1000) && job'.errorMessage == job.errorMessage)
      && (fetch.FetchFails? ==>
            && job'.status == Failed && job'.downloadUrl == job.downloadUrl && job'.errorMessage.Some?
            && job'.errorMessage.value <= fetch.message
            && |job'.errorMessage.value| == Min(500, |fetch.message|)
            && IssueDownloadLink(p, map[jobId := job'], jobId, job.projectId, ttl, now) == Err(NotCompleted))
  {
  }

  /** UTF-8 takes one byte for ASCII, and no more bytes than the code point needs. */
  lemma Utf8Length(n: int)
    requires 0 <= n < 0x11_0000
    ensures |Utf8Char(n)| == if n < 0x80 then 1 else if n < 0x800 then 2 else if n < 0x1_0000 then 3 else 4
  {
  }

  lemma FileNames(jobId: string)
    ensures Filename(jobId, CsvFormat) == "export-" + jobId + ".csv"
    ensures Filename(jobId, JsonFormat) == "export-" + jobId + ".json"
  {
  }
}
