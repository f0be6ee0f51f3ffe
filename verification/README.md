# ContentBird API client — a Dafny model

This project models the core of the ContentBird API client (the Ruby gem
`cb-api`): how a `Session` turns an endpoint call into one HTTP request, and
how the answer is classified in one of two error-handling modes.

- A session holds a key, a secret and a flag fixed at construction. In
  raising mode, a 404, a 500 and a timeout raise `NotFoundError`, `AppError`
  and `TimeoutError`; a 200 whose body does not parse to a JSON object raises
  the parser's error or `NoMethodError`; any other transport failure
  propagates. In tuple mode, a timeout, 200, 404 or 500 gives an
  `[ok, payload]` pair; for 200, 404 and 500 a body that does not parse to a
  JSON object raises the parser's error or `NoMethodError`, and other
  transport failures propagate. In both modes any
  other status gives nil.
- Each endpoint is a verb plus a path template with the slugs interpolated.
- `api_call` creates a connection. It sets the `context` and `page` query
  parameters from the caller's options and the `Accept`, `CB-KEY` and
  `CB-SECRET` headers. Then it hands the request to one of the two
  interpreters.
- `http_call` attaches the form parameters only to a POST. It fixes a
  5 second timeout and a 2 second connect timeout.
- `perform_request` and `perform_request!` map the transport's outcome
  (a timeout, or a status with a body) to a result. The body is parsed as
  JSON and its top-level keys are symbolized.

The network is a parameter. `Client.Network` pairs the base URL (the
`CB_API_URL` constant) with a function from each request to the outcome the
server gives. Ruby exceptions are values of `Connection.Error`. A call's
result is `Return(value)` or `Raise(error)`. Ruby's `nil`, which a `case`
without a matching branch yields, is `NilValue`.

Files, one module each:

- `text.dfy` (`Text`): joining and splitting at a separator, and the decimal
  rendering of integers. Each comes with its inverse.
- `values.dfy` (`Values`): the Ruby values at the boundary: option values,
  form data and JSON documents. It also holds `blank?`/`present?`,
  `Array#join`, `try(:join, sep)` and `symbolize_keys`.
- `connection.dfy` (`Connection`): `lib/cb/client/connection.rb`.
- `endpoints.dfy` (`Endpoints`): the endpoint path templates of
  `lib/cb/client/session.rb`, with a router that reads a path back.
- `session.dfy` (`Client`): the `Session` class of `lib/cb/client/session.rb`.

## Model

| member | source | states |
|---|---|---|
| `Client.Session.constructor` | lib/cb/client/session.rb:7-11 | key, secret and mode are stored unchanged; they are constants, so the mode never changes after construction |
| `Client.Session.WithDefaultMode` | lib/cb/client/session.rb:7 | without the third argument the session is in raising mode |
| `Client.QueryParams` | lib/cb/client/session.rb:53-55 | `context` is set iff `options[:context]` is an array, and holds its elements joined with `,` (an empty array gives `""`, still set); `page` is set iff `options[:page]` is present, and holds that value; no other parameter exists |
| `Client.OtherOptionsIgnored` | lib/cb/client/session.rb:53-55 | options other than `:context` and `:page` (`:only_curl` among them) never change the query |
| `Client.ContextAndPageExample` | lib/cb/client/session.rb:53-55 | `context: [:some, :data]` gives exactly `context=some,data`; adding `page: 3` adds exactly `page=3` |
| `Client.Session.ApiCall` | lib/cb/client/session.rb:50-65 | the request carries `QueryParams(options)` and exactly the headers `Accept: application/json`, `CB-KEY: key`, `CB-SECRET: secret`; its result is `perform_request!` of the outcome in raising mode and `perform_request` of it otherwise |
| `Client.Session.ApiGet` | lib/cb/client/session.rb:41-43 | a GET on the given path with no form parameters, answered in the session's mode |
| `Client.Session.ApiPost` | lib/cb/client/session.rb:45-47 | a POST on the given path carrying the form parameters unchanged, answered in the session's mode |
| `Client.Session.HomeContents` | lib/cb/client/session.rb:13-15 | GET `/api/home/contents`, options forwarded unchanged |
| `Client.Session.SectionContents` | lib/cb/client/session.rb:17-19 | GET `/api/sections/{section}/contents`, options forwarded unchanged |
| `Client.Session.SectionContent` | lib/cb/client/session.rb:21-23 | GET `/api/sections/{section}/contents/{content}`, options forwarded unchanged |
| `Client.Session.NewSectionContent` | lib/cb/client/session.rb:25-27 | GET `/api/sections/{section}/contents/new`, options forwarded unchanged |
| `Client.Session.CreateSectionContent` | lib/cb/client/session.rb:29-31 | POST `/api/sections/{section}/contents` with form `{content: params}`, options forwarded unchanged |
| `Client.Session.Contents` | lib/cb/client/session.rb:33-35 | GET `/api/contents`, options forwarded unchanged |
| `Client.Session.Content` | lib/cb/client/session.rb:37-39 | GET `/api/contents/{content}`, options forwarded unchanged |
| `Endpoints.PathIsJoinedSegments` | lib/cb/client/session.rb:13-39 | every path template is its slash-separated segments with the slugs in their places |
| `Endpoints.RouteRoundTrip` | lib/cb/client/session.rb:13-39 | when slugs hold no `/` and no content slug is `new`, a router reading the verb and path of any endpoint recovers that endpoint and its slugs |
| `Endpoints.NewContentSlugCollides` | lib/cb/client/session.rb:21-27 | `section_content(s, 'new')` sends the same verb and path as `new_section_content(s)` |
| `Connection.HttpConnection.constructor` | lib/cb/client/connection.rb:3-5 | a new connection has the base URL and no query parameters or headers |
| `Connection.HttpConnection.SetParam` | lib/cb/client/session.rb:54-55 | sets one query parameter, leaves the others and the headers unchanged |
| `Connection.HttpConnection.SetHeader` | lib/cb/client/session.rb:57-59 | sets one header, leaves the others and the query parameters unchanged |
| `Connection.HttpCall` | lib/cb/client/connection.rb:40-46 | the form parameters become the body of a POST only; a GET has no body; timeout 5 and open timeout 2 on every request |
| `Connection.GetIgnoresFormParams` | lib/cb/client/connection.rb:43 | a GET request does not depend on the form parameters |
| `Connection.PostKeepsFormParams` | lib/cb/client/connection.rb:43 | different form parameters give different POST requests |
| `Connection.ParseBody` | lib/cb/client/connection.rb:15 | a body parses to a payload iff it is well-formed JSON holding an object; a malformed body raises the parser's error; any other document raises `NoMethodError` |
| `Connection.PerformRequest` | lib/cb/client/connection.rb:7-21 | timeout gives `[false, {message: 'Timeout'}]` without reading a body; 200 gives `[true, B']`; 404 and 500 give `[false, B']` (B' is the body with symbolized keys); `ok` is true only for 200; any other status gives nil; only parse errors and non-timeout transport failures are raised |
| `Connection.PerformRequestRaising` | lib/cb/client/connection.rb:23-37 | 200 gives B' with no flag; 404 raises `NotFoundError`, 500 `AppError`, a timeout `TimeoutError`, with their fixed messages and without parsing the body; any other status gives nil; never a pair |
| `Connection.ModesAgreeOnSuccess` | lib/cb/client/connection.rb:7-37 | tuple mode answers `[true, p]` exactly when raising mode answers `p` |
| `Connection.ModesAgreeOnUnmapped` | lib/cb/client/connection.rb:7-37 | both modes answer nil for exactly the same outcomes |
| `Connection.FailuresCorrespond` | lib/cb/client/connection.rb:7-37 | for JSON-object bodies, tuple mode answers `[false, _]` exactly when raising mode raises one of the three client errors |
| `Connection.RaisingIgnoresErrorBody` | lib/cb/client/connection.rb:32-35 | in raising mode a 404 or 500 answer does not depend on the body |
| `Connection.ForbiddenIsUnmapped` | lib/cb/client/connection.rb:13-36 | a 403 gives nil in both modes and raises nothing |
| `Connection.StubScenarios` | lib/cb/client/connection.rb:14-17 | 200 with `{"content": "data"}` gives `[true, {content: 'data'}]`; 404 with a message gives `[false, {message: ...}]` in tuple mode and raises `NotFoundError` in raising mode |
| `Values.SymbolizeKeys` | lib/cb/client/connection.rb:15 | every top-level key becomes the symbol of the same name; each value, nested objects included, is kept unchanged |
| `Values.SymbolizeKeysRoundTrip` | lib/cb/client/connection.rb:15 | reading the members back by symbol name gives the parsed object unchanged |
| `Values.SymbolMembersRoundTrip` | lib/cb/client/connection.rb:15 | a payload with only symbol keys is the symbolized form of its members |
| `Values.TryJoin` | lib/cb/client/session.rb:53 | `try(:join, sep)` gives a string iff the value is an array, and the string is the rendered elements with `sep` between them |
| `Values.JoinIsJoinWith` | lib/cb/client/session.rb:53 | `Array#join` places the separator between the rendered elements, with nested arrays rendered recursively |
| `Values.JoinSplitsBack` | lib/cb/client/session.rb:53 | a comma-joined list of non-array elements splits back into their strings when none holds a comma; the empty list joins to `""` |
| `Text.DecimalRoundTrip` | lib/cb/client/session.rb:53 | an integer inside the context list renders as a decimal numeral that reads back as the same integer |

## Left out

- The network call and Faraday itself (lib/cb/client/connection.rb:3-5, 41). The outcome is an input. Faraday's own default headers, such as `User-Agent`, are not modelled.
- Transport errors other than a timeout are one `Failed` outcome. It is raised unchanged in both modes, because the client rescues only the timeout.
- JSON text and its parser. A body is given as a parsed document or as malformed. JSON numbers are integers only; floats are not modelled.
- Top-level JSON scalars follow the `json` 2.x parser: they parse, and `symbolize_keys` then fails with `NoMethodError`. Older parsers reject them with a parser error.
- URL encoding, joining the base URL with the path, and the order of query parameters. Faraday does these. The base URL is an opaque string.
- `lib/cb/client/config.rb`, a process-wide configuration object. `api_call` does not read it.
- `lib/cb/client/errors.rb` is only three error class names. They are folded into `Connection.Error`.
- Key and secret are strings, so their `to_s` is the identity. Other key objects are not modelled. The same holds for slugs interpolated into paths.
- The mode flag is modelled by its Ruby truthiness (`nil` and `false` are false).
- Option values are nil, booleans, integers, strings, symbols and arrays of these. A hash or float given as `:context` or `:page` is not modelled.
- `blank?` follows ActiveSupport 4 and later. A string is blank when it matches `[[:space:]]*`. `try` also follows ActiveSupport 4 and later: it returns nil for a receiver without `join`. The Unicode spaces are listed explicitly.
- Behaviour that only the test suite expects, absent from the code:
  - a four-argument constructor;
  - the `only_curl` dry run, which returns a `curl` command. Here `:only_curl` is an ignored option; see `Client.OtherOptionsIgnored`;
  - an `Accept-Language` header from a locale;
  - a `ForbiddenError` for 403. The code has no such class and returns nil; see `Connection.ForbiddenIsUnmapped`.
- Behaviour of the code worth noting:
  - an empty `:context` array still sends `context=""`;
  - only the top-level keys of a response are symbolized;
  - statuses other than 200, 404 and 500 give nil rather than an error.
