# Airtable REST client, modelled in Dafny

This project models the core of a small Go client for the Airtable REST API
(package `airtable`). The client does five things:

- It reads its configuration from the environment: `AIRTABLE_KEY`,
  `AIRTABLE_BASE` and, optionally, `AIRTABLE_HOST`.
- It keeps a URL template `<host><base>/%s`.
- It builds requests for a table, for one record, or for a filter query.
- It collects records into a request's payload.
- It sends a request with a JSON content type and a bearer token, and
  classifies the response by its status code.

The project has two modules:

- `GoFmt` (`gofmt.dfy`) models Go's `fmt.Sprintf` for string operands.
  The client builds every URL and the `Authorization` header with it.
  The model covers `%s`, `%v` and `%%`, missing operands, extra operands and
  bad verbs. This lets the model prove the shape of each URL instead of
  assuming it. The proofs show that the template is `host + base + "/%s"`
  whenever the host has no `%`. The table URL is `host + base + "/" + table`
  when neither host nor base has a `%`. Table names, record ids, filter
  queries and keys are operands, so they may hold any text.
- `Airtable` (`airtable.dfy`) models the client:
  - The environment is a `map<string, string>`.
  - Configuration resolution is a function that returns `Result<Client>`.
  - The client is an immutable datatype, because the source never changes
    it after `InitializeClient`.
  - A request is a class with mutable `url` and `payload` fields. The
    builders overwrite `url` and `AddRecordToRequest` appends to the payload.
  - `SendRequest` is a function of the request, possibly `null`. It returns
    an `Exchange`: the HTTP request handed to the transport, if there was
    one, and the caller's result.
  - JSON encoding, `http.NewRequest` and the HTTP round trip are function
    parameters (oracles).

A status of 300 or more might be expected to yield an error that carries the
status code. It does not: in `airtable.go:109-113` the returned error formats
the (usually nil) read error, and the status is only logged. The model follows
the code, so `ErrorStatus` has no code.

## Model

| member | source | states |
|---|---|---|
| `GoFmt.Render` | airtable.go:158 | Verbs consume operands strictly left to right, so the operands left over are always a suffix of the operands given |
| `GoFmt.RenderLiteralPrefix` | airtable.go:211 | A `%`-free prefix of a format is copied to the output unchanged and consumes no operand |
| `GoFmt.SprintfOne` | airtable.go:140 | A format with one `%s` or `%v` and no other `%` prints its prefix, then the operand verbatim, then its suffix |
| `GoFmt.SprintfTwo` | airtable.go:175 | A format with two `%s` and no other `%` substitutes its two operands in order |
| `GoFmt.SprintfJoin` | airtable.go:182 | `"%s" + sep + "%s"` with a `%`-free separator joins the two operands with the separator |
| `GoFmt.SprintfOneShort` | airtable.go:211 | A two-verb format given one operand fills the first verb and prints `%!s(MISSING)` for the second |
| `Airtable.GenerateAirtableURL` | airtable.go:145-165 | Fails with `BaseNotSet` exactly when `AIRTABLE_BASE` is unset; an empty base is accepted; the template is `host + base + "/%s"` when the host has no `%`; with no `AIRTABLE_HOST` the host is `https://api.airtable.com/v0/` |
| `Airtable.InitializeClient` | airtable.go:49-74 | An unset base fails with `BaseNotSet` even when the key is missing too; otherwise an unset or empty key fails with `KeyNotSet`; it succeeds exactly when the base is set and the key is non-empty; the client's key is the environment value exactly and its template is the one `GenerateAirtableURL` builds |
| `Airtable.TemplateTableUrl` | airtable.go:207-211 | Formatting the template `host + base + "/%s"` with a `%`-free host and base gives `host + base + "/" + table` for any table name |
| `Airtable.InitializedTableUrl` | airtable.go:152-158 | For a client initialised from an environment with a `%`-free host and base, a table's URL is `host + base + "/" + table` |
| `Airtable.PercentInBaseCorruptsUrl` | airtable.go:158 | A base of the form `pre%spost` is read as a format: the table name lands inside the base and the URL ends in `/%!s(MISSING)` |
| `Airtable.CreateRecord` | airtable.go:187-198 | The record holds the given fields, and `fields` is the only key its JSON encoding writes; `id` and `createdTime` are empty and omitted |
| `Airtable.Request.constructor` | airtable.go:214-219 | A request holds the given method, table and URL, and its payload is empty |
| `Airtable.Request.AddRecordToRequest` | airtable.go:200-205 | The new record list is the old one with `rec` appended: one longer, `rec` last, earlier records unchanged and in order; the payload's `records` key is then written; method, table and URL are not changed |
| `Airtable.CreateAirtableRequest` | airtable.go:207-224 | A fresh request with the given method and table, zero records (so `records` is omitted from the body), and the URL the client's template gives for the table |
| `Airtable.RecordUrl` | airtable.go:175 | The record URL is the table URL, then `/`, then the record id, whatever either holds |
| `Airtable.FilterUrl` | airtable.go:182 | The filter URL is the table URL with the query appended as it is, with no check and no encoding |
| `Airtable.MakeGetRecordRequest` | airtable.go:173-178 | A fresh GET request with an empty payload whose URL is the table URL followed by `/<recordId>`; the client, a value, is unchanged |
| `Airtable.MakeFilterRecordRequest` | airtable.go:180-185 | A fresh GET request with an empty payload whose URL is the table URL followed by the raw filter query |
| `Airtable.RequestHeaders` | airtable.go:139-140 | The headers are `Content-Type: application/json; charset=UTF-8` and then `Authorization: Bearer <key>`, for any key |
| `Airtable.BuildHttpRequest` | airtable.go:118-143 | Fails with `EncodeFailed` when the payload cannot be encoded, and with `NewRequestFailed` when the request cannot be built; it succeeds exactly when neither happens; on success the request carries the method, the URL and the encoded body, and its headers are exactly the JSON content type followed by `Authorization: Bearer <key>` |
| `Airtable.ClassifyResponse` | airtable.go:109-115 | The result is a success exactly when the status is below 300, and then it is the body bytes unchanged; otherwise it is `ErrorStatus` |
| `Airtable.SendRequest` | airtable.go:76-116 | A request fails with `NilRequest` exactly when it is nil, and then nothing is sent; a non-nil request whose payload cannot be encoded fails with `EncodeFailed`, and one that cannot be built fails with `NewRequestFailed`, in both cases without sending; a request is sent exactly when it is non-nil and can be encoded and built; what is sent has the request's method and URL, the encoded payload, and exactly the headers `Content-Type: application/json; charset=UTF-8` and `Authorization: Bearer <key>`; a failed round trip gives `TransportFailed`; a status of 300 or more gives `ErrorStatus`; success comes exactly from a status below 300 and returns the response body unchanged |
| `Airtable.TestEnvironmentClient` | airtable_test.go:47-92 | With `AIRTABLE_KEY=keyvariable`, `AIRTABLE_BASE=basevariable` and no host, the client's key is `keyvariable` and its template is `https://api.airtable.com/v0/basevariable/%s` |

## Left out

- The HTTP transport (`c.Client.Do`) and the client's 15-second timeout
  (airtable.go:93-97, airtable.go:167-171) are network I/O. The transport is a
  function parameter. `None` from it stands for any failed round trip,
  including a timeout.
- JSON encoding of the payload (airtable.go:120-127) belongs to
  `encoding/json`. It is a function parameter that may fail. The model records
  which keys the `omitempty` tags let through (`RecordJsonKeys`,
  `PayloadJsonKeys`), not the bytes.
- `http.NewRequest` (airtable.go:129-137) is a predicate parameter. Its
  own rules for valid methods and URLs are not modelled.
- Logging (`glog`) and `flag.Parse()` (airtable.go:52-54 and throughout) only
  have side effects.
- `ioutil.ReadAll` errors and `resp.Body.Close` (airtable.go:99-107) are
  stream I/O. The read error is only logged, so the response body is
  whatever bytes were read.
- Error message texts, such as airtable.go:59, 65, 81 and 111-112, are not
  modelled. Only the kind of error is.
- `FilterQueryString` (constants.go:11) is not used by any code of the client;
  callers of `MakeFilterRecordRequest` build the whole query themselves.
- The empty `AirTableClientInterface` (airtable.go:24) has no behaviour.
- Go's nil pointers other than the request itself are not modelled: a nil
  `Payload`, `URL` or `Key` cannot arise from `InitializeClient` and the
  builders, and the model has no way to build one.
- Slice aliasing from `append` and the pointer-to-interface in `CreateRecord`
  are not modelled. Records and payloads are values, so appending never
  affects another request.
- `CreateRecord` is a method on `*AirtableRequest` in the source, but it never
  uses its receiver, so it is a plain function here.
- `GoFmt.Sprintf` does not model flags, width, precision or explicit argument
  indexes. Nor does it model the other verbs Go accepts for strings (`%q`,
  `%x`, `%X`, `%T`), which it renders as bad verbs. The client's own formats
  use only `%s` and `%v`.
