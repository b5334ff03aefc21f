# Geolocation client: request normalisation, status mapping, client factory

This project models the decision logic of a small Go client for cell-tower and
Wi-Fi geolocation services (`locator.go`). It covers three things.

- **The factory `New`** picks the Yandex dialect when the endpoint is exactly the
  Yandex URL. For any other endpoint it appends `?key=<escaped key>` when a key
  is given, validates the result as a request URI, and binds a standard-dialect
  client to it.
- **`base.Get`** rewrites its copy of the request before encoding it. It forces
  `ConsiderIp`, overrides the fallbacks when IP lookup is suppressed, defaults
  the radio type to `"gsm"`, and moves the IP address out of the body into an
  `X-Forwarded-For` header value. It then sends the request and maps the HTTP
  status: 200 decodes the body, 400, 403 and 404 return the package's three
  sentinel errors, and any other status returns a fresh error carrying the
  status's reason phrase.
- **The sentinel errors** `ErrBadRequest`, `ErrForbidden` and `ErrNotFound`.

Files:

- `wrappers.dfy` holds `Option` and `Result`.
- `locator.dfy` holds module `Locator`: the data model, the functions, the two
  methods and the lemmas.

Library code and I/O the model does not interpret are function parameters:

- `Get` takes the JSON encoder (`marshal`), the HTTP exchange (`transport`) and
  the JSON decoder (`decode`).
- `New` takes the query escaper (`escape`) and the URI parser
  (`parseRequestUri`). The parser returns its error text when it rejects a URL,
  and `New` hands that error back unchanged.
- `http.StatusText` is the `statusText` parameter of `Message`.

The process globals `IgnoreIPMethod` and `UserAgent` are the explicit `Config`
argument of `Get`.

## Model

| member | source | states |
|---|---|---|
| `Locator.SentinelsDistinct` | locator.go:20-22 | Two sentinel errors are equal exactly when their texts are equal, so "Bad Request", "Forbidden" and "Not Found" are pairwise distinct |
| `Locator.StatusOutcome` | locator.go:101-111 | Only 200 leads to decoding. 400, 403 and 404 map to `ErrBadRequest`, `ErrForbidden` and `ErrNotFound`, each in both directions. Every other code fails with a status error that is none of the sentinels. A failure is always a sentinel or a status error |
| `Locator.UnexpectedStatusText` | locator.go:109-110 | For any code other than 200, 400, 403 and 404, the error's text is exactly the reason phrase `StatusText(code)` |
| `Locator.Prepare` | locator.go:70-82 | The prepared body has `considerIp == !ignoreIP`. With suppression, its fallbacks are present with LAC and IP both false. Without suppression, the caller's fallbacks are kept exactly. The radio type is never empty: an empty one becomes "gsm" and a non-empty one is kept. The body's IP address is always empty. The header is present exactly when the caller's address is non-empty, and it then equals that address. Cell towers and Wi-Fi points pass through unchanged |
| `Locator.PrepareIdempotent` | locator.go:71-82 | Preparing an already prepared body returns that same body and no forwarding header |
| `Locator.ForwardedForRestoresAddress` | locator.go:71-82 | Writing the forwarding header's value back into the prepared body gives the caller's request with only `considerIp`, the fallbacks and the radio type rewritten, so nothing else is lost. Preparing that restored record again reproduces the same body and header |
| `Locator.PrepareOverridesCaller` | locator.go:71-77 | The caller's `considerIp` never affects the prepared request. Under IP suppression, neither do the caller's fallbacks |
| `Locator.Get` | locator.go:70-118 | A failed encode of the prepared body is returned unchanged. Otherwise the request sent goes to the bound URL and carries the configured User-Agent, the prepared forwarding header and the encoded prepared body. A transport failure is returned unchanged. A failing status yields that status's error, and 200 yields the decoder's result. Conversely, a sentinel error occurs only after the reply's status mapped to it, and success occurs only after a 200 reply whose body decoded to that response |
| `Locator.EndpointUrl` | locator.go:54-56 | The bound URL extends the endpoint. It equals the endpoint exactly when the key is empty. Otherwise what follows the endpoint is `?key=` plus the escaped key |
| `Locator.EndpointQuery` | locator.go:54-56 | For an endpoint with no '?' of its own, the bound URL's query (what follows its first '?') is exactly `key=<escaped key>` when a key is given, and absent otherwise |
| `Locator.MozillaUrlHasNoQuery` | locator.go:27 | The built-in Mozilla endpoint contains no '?', so it has no query of its own |
| `Locator.GoogleUrlHasNoQuery` | locator.go:28 | The built-in Google endpoint contains no '?', so it has no query of its own |
| `Locator.KnownEndpointQuery` | locator.go:54-56 | A client for the Mozilla or Google endpoint built with a non-empty key has exactly `key=<escaped key>` as the query of its bound URL |
| `Locator.New` | locator.go:45-67 | The Yandex endpoint always yields the Yandex variant with the key kept verbatim, and the URL is not validated. Any other endpoint yields a standard client bound to `EndpointUrl(endpoint, key)` exactly when the parser accepts that URL. Otherwise it yields the parser's error, unchanged, for that URL. It never yields both |

## Left out

- HTTP transport is not modelled: the client, its 30-second timeout, `http.NewRequest` and its error path and closing the response body. `transport` stands for the whole exchange.
- Closing the response body is not modelled. The Go code closes it only on the 200 path (locator.go:114). The returns for 400, 403, 404 and other statuses (locator.go:104-110) leave it open, so the connection is not released on those paths. This has not been executed; it is a reading of the source.
- The `Content-Type: application/json` header is left out: it is a constant with no behaviour.
- JSON encoding and decoding are opaque parameters. The wire format is not modelled.
- `url.QueryEscape` and `url.ParseRequestURI` are opaque parameters. Results that depend on what they do, such as "`not a url` is rejected" or "`abc123` is sent as `key=abc123`", are stated only in terms of those parameters.
- `http.StatusText` is a parameter, because its table differs between Go versions. The sentinel texts are the fixed RFC 7231 phrases that every version gives for 400, 403 and 404.
- The Yandex client's own `Get` and its wire format are not modelled: they are not in `locator.go`.
- Error identity is approximated by datatype equality. In Go, two errors built by `errors.New` from the same status text are different values. Here, two `StatusError`s with the same code are equal.
- Reading mutable package globals is not modelled, and neither are concurrent writes to them. They are the explicit `Config` argument instead.
- The `Request` fields that `Get` does not touch, other than cell towers and Wi-Fi points, are not modelled. The struct definition is not part of this model.
- `Locator.EndpointQuery`: it applies only to endpoints with no '?'. For an endpoint that already has a query, the Go code produces a second '?', and the key then ends up inside the existing query string.
