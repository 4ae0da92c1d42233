# A verified model of the rest-api-crawling client core

`api_interface.py` is a small HTTP client built on `requests`. It has three parts:

- `check_status(success_code=200, silent=False)` is a decorator. It calls the wrapped endpoint function once. It logs the outcome according to the response's status code. It returns the response unchanged.
- `BaseClient` builds a base URL (`https://host[:port]`) once, in its constructor. It sends each request to that URL followed by its base path (`/api` by default) and the endpoint.
- `Api` builds a `BaseClient` with HTTP digest credentials from configuration. It exposes one endpoint, `todos`, a GET of `/todos` that accepts only status 200.

This project models that core in Dafny as pure functions over datatypes. No part of the core updates state in place, so there are no classes. Side effects become data:

- an HTTP call is a `Sent(request)` event, and its response comes from a `transport` function that the caller passes in;
- a log line is a `Log(level, payload)` event, where the payload says what the line reports but not its exact wording;
- every call yields an `Outcome`: the response it returns plus the trace of events it produced, in order.

Files:

- `wrappers.dfy` holds `Option`.
- `py_values.dfy` (module `PyValues`) models the Python values a caller may pass as `success_code`, Python's `==` between such a value and an integer (`True == 1`), and `in` on a list.
- `py_format.dfy` (module `PyFormat`) models `str(n)` for an integer port, with a decimal parser that undoes it.
- `api_interface.dfy` (module `ApiInterface`) models the decorator, the wrapper's branch logic, `BaseClient` and `Api`.

Where the code and its docstring differ, the model follows the code:

- The docstring of `check_status` says it raises on a bad status. The code never raises: it only logs, and the model does the same.
- The code does not reject an empty host, so `BaseUrl("", p)` is `"https://"`, followed by `:` and the port when the port is truthy.
- Only a `list` is copied element by element. A tuple or a set passed as `success_code` is wrapped whole as one element. No integer status equals it, so every response takes the failure branch (`TupleOrSetAcceptsNothing`).
- The port is tested for truthiness, so a port of `0` gives the same URL as no port (`BaseUrlRoundTrip`, `ExampleBaseUrls`).

## Model

| member | source | states |
|---|---|---|
| `PyValues.Contains` | api_interface.py:20 | `status in success_codes` holds exactly when some element of the list equals the status under Python's `==` |
| `PyFormat.IntToStr` | api_interface.py:46 | the port's decimal form is a well-formed integer literal with no colon and no leading zero (except for 0 itself), and it starts with `-` exactly when the port is negative |
| `PyFormat.IntToStrRoundTrip` | api_interface.py:46 | parsing the decimal form of a port gives the port back |
| `PyFormat.IntToStrInjective` | api_interface.py:46 | distinct ports have distinct decimal forms |
| `ApiInterface.CheckStatus` | api_interface.py:7-14 | a list argument is copied element for element; any other argument becomes a one-element list holding it; `silent` is kept; the defaults are 200 and not silent |
| `ApiInterface.AcceptedStatuses` | api_interface.py:11-14 | after normalisation, a status passes exactly when it equals an element of a list argument, or equals a non-list argument |
| `ApiInterface.DefaultAcceptsOnly200` | api_interface.py:7 | with the default argument, exactly status 200 passes |
| `ApiInterface.TupleOrSetAcceptsNothing` | api_interface.py:11-12 | a tuple or set argument is wrapped whole, so no status passes |
| `ApiInterface.NormalisationIdempotent` | api_interface.py:11-14 | normalising the normalised list again gives the same configuration |
| `ApiInterface.Accepts` | api_interface.py:20 | the wrapper takes the success branch exactly when the response's status equals one of the normalised success codes |
| `ApiInterface.CalledEvent` | api_interface.py:22-27 | the line logged on both branches is an info line carrying the request's method and URL |
| `ApiInterface.StatusLog` | api_interface.py:20-33 | on success: no events if silent, else exactly the info line with method and URL; on failure, whatever `silent` is: that info line, then five error lines in order: the status code, the request-body heading, the request body, the response heading and the response text; never an HTTP call |
| `ApiInterface.Wrap` | api_interface.py:18-34 | the response is returned unchanged; the wrapped call's trace is kept as a prefix and followed by exactly the status log; no HTTP call is added; error events are added exactly when the status is not a success code |
| `ApiInterface.SilentOnlyHidesSuccess` | api_interface.py:20-27 | a silent success leaves the wrapped call's outcome untouched; on failure `silent` makes no difference |
| `ApiInterface.PortIsTruthy` | api_interface.py:45 | `if port:` holds for every port except `None` and `0` |
| `ApiInterface.BaseUrl` | api_interface.py:44-48 | the URL is exactly `https://` + host + `:` + `str(port)` when the port is truthy, and exactly `https://` + host otherwise, whatever the host holds |
| `ApiInterface.BaseUrlRoundTrip` | api_interface.py:45-48 | for a host without a colon, the URL reads back as the host and, exactly when the port is truthy, the port; a port of 0 reads back as no port |
| `ApiInterface.BaseUrlInjective` | api_interface.py:45-48 | two colon-free hosts give the same URL only with the same host and the same truthy port (or two falsy ports) |
| `ApiInterface.ExampleBaseUrls` | api_interface.py:44-48 | `api.example.com` with no port or port 0 gives `https://api.example.com`; with 8443 it gives `https://api.example.com:8443` |
| `ApiInterface.NewBaseClient` | api_interface.py:44-50 | the constructor stores the computed URL, and stores `auth` and `base_url` unchanged (`/api` by default) |
| `ApiInterface.RequestFor` | api_interface.py:56-62 | the request carries the method and the client's credentials, with TLS verification off; its URL is the client URL, then the base path, then the endpoint, which can be read back off its end |
| `ApiInterface.Request` | api_interface.py:52-63 | one HTTP call, no log events, and the transport's response returned as it came |
| `ApiInterface.NewApi` | api_interface.py:70-74 | the client gets the configured host and port, digest credentials from the configured user and password, and base path `/api` |
| `ApiInterface.TodosStatusCheck` | api_interface.py:80 | the decorator on `todos` is not silent and lets exactly status 200 pass |
| `ApiInterface.Todos` | api_interface.py:80-85 | exactly one GET of `/todos`; the response comes back unchanged; status 200 adds exactly one info event; any other status adds an info event and five error events, the first carrying the status |
| `ApiInterface.TodosUrl` | api_interface.py:80-85 | `todos` requests the configured base URL followed by `/api/todos`, with the configured digest credentials |

## Left out

- The `requests.Session`, the HTTP transport and TLS (api_interface.py:55-63). They are replaced by the `transport` parameter and a `verifyTls` flag. Transport errors are not modelled.
- Any keyword arguments passed through `**kwargs` to the session. `Api.todos` passes none.
- The configuration module and its `hasattr(cfg, 'PORT')` lookup are not part of this model. Their values arrive as a `Config` record, whose `port` is `None` when the setting is absent.
- `PyFormat.IntToStr`: formats every integer, and so does `ApiInterface.BaseUrl`. Python 3.11 and later raise `ValueError` when converting an integer of more than 4300 digits to a string, which no real port reaches.
- Ports that are not integers (a string from configuration, for example). The model takes the port as an optional integer.
- Auth objects other than `HTTPDigestAuth`. `BaseClient` accepts any auth object, but the model has only the digest credentials that `Api` uses.
- The exact text of the log lines, `json.dumps` of the response text and the logging sink (api_interface.py:22-33). They are abstract payloads.
- Python values beyond those in `PyValues.Value`, such as floats (`200.0 == 200`) and user-defined `__eq__`.
- Values of `silent` other than booleans. The source tests `silent` for truthiness; the model takes a `bool`, and the only decorated endpoint uses the default `False`.
- `Api.check_connection` (api_interface.py:76-78), because its body is `pass`.
- The wrapped function and its arguments: the wrapper is given the outcome of its one call as a value, so "called once" shows up as the wrapped call's trace appearing once, followed by log events only.
