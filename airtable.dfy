/** The Airtable REST client: configuration from the environment, request
    builders, header construction and the classification of the response.
    The HTTP exchange, JSON encoding and http.NewRequest are parameters
    (oracles); logging is left out. */
module Airtable {
  import opened GoFmt

  // Environment variables and the default host (airtable.go:17-22).
  const KeyVariable: string := "AIRTABLE_KEY"
  const BaseVariable: string := "AIRTABLE_BASE"
  const HostVariable: string := "AIRTABLE_HOST"
  const DefaultHost: string := "https://api.airtable.com/v0/"

  // Header names and values (constants.go:3-12).
  const ContentHeader: string := "Content-Type"
  const AuthorizationHeader: string := "Authorization"
  const BearerString: string := "Bearer %v"
  const JsonUtf8: string := "application/json; charset=UTF-8"

  // net/http's http.MethodGet.
  const MethodGet: string := "GET"

  /** The process environment: variable name to value; a missing key is an
      unset variable (os.LookupEnv's isSet == false). */
  type Env = map<string, string>

  newtype byte = x: int | 0 <= x < 256
  type Bytes = seq<byte>

  datatype Option<T> = None | Some(value: T)

  datatype Result<T> = Ok(value: T) | Err(error: Error)

  /** The errors the client returns; the source's message texts are not modelled. */
  datatype Error =
    | BaseNotSet        // AIRTABLE_BASE is unset
    | KeyNotSet         // AIRTABLE_KEY is unset or empty
    | NilRequest        // SendRequest was given a nil request
    | EncodeFailed      // encoding/json could not encode the payload
    | NewRequestFailed  // http.NewRequest rejected the method or the URL
    | TransportFailed   // the HTTP round trip itself failed
    | ErrorStatus       // the server answered with a status >= 300

  /** An initialised client: the API key and the URL template
      "<host><base>/%s" whose one verb takes the table name. The source
      never changes either after InitializeClient. */
  datatype Client = Client(key: string, url: string)

  /** The opaque JSON value a caller stores as a record's fields. */
  datatype Json =
    | JNull
    | JBool(b: bool)
    | JNumber(literal: string)
    | JString(s: string)
    | JArray(items: seq<Json>)
    | JObject(members: seq<(string, Json)>)

  /** One row. fields == None is a nil interface{}; the empty string is the
      unset createdTime or id. */
  datatype Record = Record(createdTime: string, fields: Option<Json>, id: string)

  /** The request body wrapper {"records": [...]}. */
  datatype Payload = Payload(records: seq<Record>)

  datatype Header = Header(name: string, value: string)

  /** What http.NewRequest builds, with the headers buildHttpRequest adds. */
  datatype HttpRequest = HttpRequest(httpMethod: string, url: string, body: Bytes, headers: seq<Header>)

  /** The response as SendRequest sees it: the status code and the bytes
      ioutil.ReadAll returned (all of them, or what was read before an error). */
  datatype HttpResponse = HttpResponse(status: int, body: Bytes)

  /** One call of SendRequest: the HTTP request handed to the transport, if
      any was, and what the caller gets back. */
  datatype Exchange = Exchange(sent: Option<HttpRequest>, result: Result<Bytes>)

  // ---------------------------------------------------------------------
  // Configuration

  function LookupEnv(env: Env, name: string): Option<string> {
    if name in env then Some(env[name]) else None
  }

  /** AIRTABLE_HOST when it is set (even to ""), the default host otherwise. */
  function ResolveHost(env: Env): string {
    match LookupEnv(env, HostVariable)
    case Some(host) => host
    case None => DefaultHost
  }

  /** generateAirtableURL: the URL template, or an error when the base is unset.
      An empty base is accepted; only an unset one fails. */
  function GenerateAirtableURL(env: Env): (r: Result<string>)
    ensures r.Err? <==> BaseVariable !in env
    ensures r.Err? ==> r.error == BaseNotSet
    ensures r.Ok? && NoPercent(ResolveHost(env)) ==> r.value == ResolveHost(env) + env[BaseVariable] + "/%s"
    ensures r.Ok? && HostVariable !in env ==> r.value == DefaultHost + env[BaseVariable] + "/%s"
  {
    match LookupEnv(env, BaseVariable)
    case None => Err(BaseNotSet)
    case Some(base) =>
      var host := ResolveHost(env);
      assert NoPercent(host) ==> Sprintf(host + "%s", [base]) == host + base by {
        if NoPercent(host) {
          SprintfOne(host, 's', "", base);
          assert host + ['%', 's'] + "" == host + "%s";
          assert host + base + "" == host + base;
        }
      }
      assert NoPercent(DefaultHost);
      Ok(Sprintf(host + "%s", [base]) + "/%s")
  }

  /** InitializeClient: the base is checked first, then the key; on success the
      client holds the key exactly as set and the template from
      GenerateAirtableURL. */
  function InitializeClient(env: Env): (r: Result<Client>)
    ensures BaseVariable !in env ==> r == Err(BaseNotSet)
    ensures BaseVariable in env && (KeyVariable !in env || env[KeyVariable] == "") ==> r == Err(KeyNotSet)
    ensures r.Ok? <==> BaseVariable in env && KeyVariable in env && env[KeyVariable] != ""
    ensures r.Ok? ==> r.value.key == env[KeyVariable] && GenerateAirtableURL(env) == Ok(r.value.url)
    ensures r.Ok? && NoPercent(ResolveHost(env)) ==> r.value.url == ResolveHost(env) + env[BaseVariable] + "/%s"
  {
    match GenerateAirtableURL(env)
    case Err(e) => Err(e)
    case Ok(url) =>
      match LookupEnv(env, KeyVariable)
      case None => Err(KeyNotSet)
      case Some(key) => if key == "" then Err(KeyNotSet) else Ok(Client(key, url))
  }

  // ---------------------------------------------------------------------
  // Requests

  /** The URL of a table: the client's template formatted with the table name. */
  function TableUrl(c: Client, table: string): string {
    Sprintf(c.url, [table])
  }

  /** A template "<host><base>/%s" with a '%'-free host and base yields
      "<host><base>/<table>", whatever the table name holds. */
  lemma TemplateTableUrl(key: string, host: string, base: string, table: string)
    requires NoPercent(host) && NoPercent(base)
    ensures TableUrl(Client(key, host + base + "/%s"), table) == host + base + "/" + table
  {
    NoPercentConcat(host, base);
    NoPercentConcat(host + base, "/");
    SprintfOne(host + base + "/", 's', "", table);
    assert host + base + "/" + ['%', 's'] + "" == host + base + "/%s";
    assert host + base + "/" + table + "" == host + base + "/" + table;
  }

  /** For a client built from the environment with '%'-free host and base,
      a table's URL is "<host><base>/<table>". */
  lemma InitializedTableUrl(env: Env, table: string)
    requires InitializeClient(env).Ok?
    requires NoPercent(ResolveHost(env)) && NoPercent(env[BaseVariable])
    ensures TableUrl(InitializeClient(env).value, table) == ResolveHost(env) + env[BaseVariable] + "/" + table
  {
    var c := InitializeClient(env).value;
    TemplateTableUrl(c.key, ResolveHost(env), env[BaseVariable], table);
  }

  /** A '%' in the base is read as a verb when the template is formatted:
      a base "<pre>%s<post>" puts the table name inside the base and leaves
      the template's own verb without an operand. */
  lemma PercentInBaseCorruptsUrl(key: string, host: string, pre: string, post: string, table: string)
    requires NoPercent(host) && NoPercent(pre) && NoPercent(post)
    ensures TableUrl(Client(key, host + (pre + "%s" + post) + "/%s"), table)
         == host + pre + table + post + "/" + MissingS
  {
    var f := host + (pre + "%s" + post) + "/%s";
    var u := host + pre + table + post + "/" + MissingS;
    assert f == (host + pre) + "%s" + (post + "/") + "%s" + "" by {
      assert "/%s" == "/" + "%s";
    }
    assert Sprintf(f, [table]) == u by {
      NoPercentConcat(host, pre);
      NoPercentConcat(post, "/");
      SprintfOneShort(host + pre, post + "/", "", table);
      assert host + pre + table + (post + "/") + MissingS + "" == u;
    }
  }

  /** The keys encoding/json writes for a record: all three fields are
      tagged omitempty, and a nil fields interface is empty. */
  function RecordJsonKeys(rec: Record): set<string> {
    (if rec.createdTime != "" then {"createdTime"} else {})
    + (if rec.fields.Some? then {"fields"} else {})
    + (if rec.id != "" then {"id"} else {})
  }

  /** The keys encoding/json writes for a payload: "records" is omitempty. */
  function PayloadJsonKeys(p: Payload): set<string> {
    if p.records == [] then {} else {"records"}
  }

  /** CreateRecord: a record whose only set field is fields. The source stores
      a pointer to the interface value, so even a nil value is written out. */
  function CreateRecord(fields: Json): (rec: Record)
    ensures rec.fields == Some(fields)
    ensures RecordJsonKeys(rec) == {"fields"}
  {
    Record("", Some(fields), "")
  }

  /** An AirtableRequest. The builders overwrite url after construction and
      AddRecordToRequest appends to the payload in place. */
  class Request {
    var httpMethod: string
    var table: string
    var payload: Payload
    var url: string

    constructor (httpMethod: string, table: string, url: string)
      ensures this.httpMethod == httpMethod && this.table == table && this.url == url
      ensures payload == Payload([])
    {
      this.httpMethod := httpMethod;
      this.table := table;
      this.url := url;
      this.payload := Payload([]);
    }

    /** AddRecordToRequest: rec goes last, the earlier records stay as they
        were and in order, and the payload is no longer omitted from the body. */
    method AddRecordToRequest(rec: Record)
      modifies this`payload
      ensures payload.records == old(payload.records) + [rec]
      ensures |payload.records| == |old(payload.records)| + 1 && payload.records[|payload.records| - 1] == rec
      ensures PayloadJsonKeys(payload) == {"records"}
    {
      payload := Payload(payload.records + [rec]);
    }
  }

  /** CreateAirtableRequest: a fresh request for table with an empty payload. */
  method CreateAirtableRequest(c: Client, httpMethod: string, table: string) returns (r: Request)
    ensures fresh(r)
    ensures r.httpMethod == httpMethod && r.table == table && r.payload == Payload([])
    ensures r.url == TableUrl(c, table)
    ensures PayloadJsonKeys(r.payload) == {}
  {
    var requestUrl := Sprintf(c.url, [table]);
    r := new Request(httpMethod, table, requestUrl);
  }

  /** fmt.Sprintf("%s/%s", tableUrl, recordId): the record's id as one more
      path segment, whatever either string holds. The format is written as
      "%s" + "/" + "%s", the same string "%s/%s". */
  function RecordUrl(tableUrl: string, recordId: string): (u: string)
    ensures u == tableUrl + "/" + recordId
  {
    SprintfJoin(tableUrl, "/", recordId);
    Sprintf("%s" + "/" + "%s", [tableUrl, recordId])
  }

  /** fmt.Sprintf("%s%s", tableUrl, filterQuery): plain concatenation. The
      format is written as "%s" + "" + "%s", the same string "%s%s". */
  function FilterUrl(tableUrl: string, filterQuery: string): (u: string)
    ensures u == tableUrl + filterQuery
  {
    SprintfJoin(tableUrl, "", filterQuery);
    assert tableUrl + "" + filterQuery == tableUrl + filterQuery;
    Sprintf("%s" + "" + "%s", [tableUrl, filterQuery])
  }

  /** MakeGetRecordRequest: a GET request for one record, "<table URL>/<id>". */
  method MakeGetRecordRequest(c: Client, table: string, recordId: string) returns (r: Request)
    ensures fresh(r)
    ensures r.httpMethod == MethodGet && r.table == table && r.payload == Payload([])
    ensures r.url == TableUrl(c, table) + "/" + recordId
  {
    r := CreateAirtableRequest(c, MethodGet, table);
    r.url := RecordUrl(r.url, recordId);
  }

  /** MakeFilterRecordRequest: a GET request whose URL is the table URL with
      filterQuery appended as it is, neither checked nor encoded. */
  method MakeFilterRecordRequest(c: Client, table: string, filterQuery: string) returns (r: Request)
    ensures fresh(r)
    ensures r.httpMethod == MethodGet && r.table == table && r.payload == Payload([])
    ensures r.url == TableUrl(c, table) + filterQuery
  {
    r := CreateAirtableRequest(c, MethodGet, table);
    r.url := FilterUrl(r.url, filterQuery);
  }

  // ---------------------------------------------------------------------
  // Sending

  /** The headers buildHttpRequest adds, in order: the JSON content type and
      the bearer token. The key is an operand, so any key is sent verbatim. */
  function RequestHeaders(key: string): (hs: seq<Header>)
    ensures hs == [Header(ContentHeader, JsonUtf8), Header(AuthorizationHeader, "Bearer " + key)]
  {
    SprintfOne("Bearer ", 'v', "", key);
    assert "Bearer " + ['%', 'v'] + "" == BearerString;
    assert "Bearer " + key + "" == "Bearer " + key;
    [Header(ContentHeader, JsonUtf8), Header(AuthorizationHeader, Sprintf(BearerString, [key]))]
  }

  /** buildHttpRequest: encode the payload, then build the request with the
      given URL and the two headers. Either step may fail. */
  function BuildHttpRequest(
    r: Request, url: string, key: string,
    encode: Payload -> Option<Bytes>, newRequestOk: (string, string) -> bool): (h: Result<HttpRequest>)
    reads r
    ensures encode(r.payload).None? ==> h == Err(EncodeFailed)
    ensures encode(r.payload).Some? && !newRequestOk(r.httpMethod, url) ==> h == Err(NewRequestFailed)
    ensures h.Ok? <==> encode(r.payload).Some? && newRequestOk(r.httpMethod, url)
    ensures h.Ok? ==> h.value.httpMethod == r.httpMethod && h.value.url == url
                      && Some(h.value.body) == encode(r.payload)
    ensures h.Ok? ==> h.value.headers == RequestHeaders(key)
                      == [Header(ContentHeader, JsonUtf8), Header(AuthorizationHeader, "Bearer " + key)]
  {
    match encode(r.payload)
    case None => Err(EncodeFailed)
    case Some(body) =>
      if !newRequestOk(r.httpMethod, url) then Err(NewRequestFailed)
      else Ok(HttpRequest(r.httpMethod, url, body, RequestHeaders(key)))
  }

  /** The status check of SendRequest: any status of 300 or more is an error,
      whatever the body; below that the body is returned unchanged. */
  function ClassifyResponse(resp: HttpResponse): (r: Result<Bytes>)
    ensures r.Ok? <==> resp.status < 300
    ensures r.Ok? ==> r.value == resp.body
    ensures r.Err? ==> r.error == ErrorStatus
  {
    if resp.status >= 300 then Err(ErrorStatus) else Ok(resp.body)
  }

  /** SendRequest with the transport as an oracle: None is a failed round trip.
      A nil request, or one that cannot be built, never reaches the transport. */
  function SendRequest(
    c: Client, req: Request?,
    encode: Payload -> Option<Bytes>, newRequestOk: (string, string) -> bool,
    transport: HttpRequest -> Option<HttpResponse>): (x: Exchange)
    reads req
    ensures req == null ==> x == Exchange(None, Err(NilRequest))
    ensures x.result == Err(NilRequest) ==> req == null
    ensures req != null && encode(req.payload).None? ==> x == Exchange(None, Err(EncodeFailed))
    ensures req != null && encode(req.payload).Some? && !newRequestOk(req.httpMethod, req.url)
            ==> x == Exchange(None, Err(NewRequestFailed))
    ensures x.sent.Some? <==> req != null && encode(req.payload).Some? && newRequestOk(req.httpMethod, req.url)
    ensures x.sent.Some? ==> req != null && x.sent.value.httpMethod == req.httpMethod
                             && x.sent.value.url == req.url
                             && Some(x.sent.value.body) == encode(req.payload)
                             && x.sent.value.headers == RequestHeaders(c.key)
                             == [Header(ContentHeader, JsonUtf8), Header(AuthorizationHeader, "Bearer " + c.key)]
    ensures x.sent.Some? && transport(x.sent.value).None? ==> x.result == Err(TransportFailed)
    ensures x.sent.Some? && transport(x.sent.value).Some? && transport(x.sent.value).value.status >= 300
            ==> x.result == Err(ErrorStatus)
    ensures x.result.Ok? <==> x.sent.Some? && transport(x.sent.value).Some?
                              && transport(x.sent.value).value.status < 300
    ensures x.result.Ok? ==> x.result.value == transport(x.sent.value).value.body
  {
    if req == null then Exchange(None, Err(NilRequest))
    else
      match BuildHttpRequest(req, req.url, c.key, encode, newRequestOk)
      case Err(e) => Exchange(None, Err(e))
      case Ok(h) =>
        match transport(h)
        case None => Exchange(Some(h), Err(TransportFailed))
        case Some(resp) => Exchange(Some(h), ClassifyResponse(resp))
  }

  // ---------------------------------------------------------------------
  // The environments of the package's own tests

  /** With AIRTABLE_KEY="keyvariable", AIRTABLE_BASE="basevariable" and no
      host, the client holds that key and the default-host template. */
  lemma TestEnvironmentClient(env: Env)
    requires env == map[KeyVariable := "keyvariable", BaseVariable := "basevariable"]
    ensures InitializeClient(env) == Ok(Client("keyvariable", "https://api.airtable.com/v0/basevariable/%s"))
  {
    assert HostVariable !in env;
    assert DefaultHost + "basevariable" + "/%s" == "https://api.airtable.com/v0/basevariable/%s";
  }
}
