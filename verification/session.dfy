/** The public facade of the client (lib/cb/client/session.rb): a session
    holds a key, a secret and the error-handling mode chosen at construction,
    and turns each endpoint call into one request plus the answer the mode
    gives to the transport's outcome. */
module Client {
  import opened Values
  import opened Connection
  import opened Endpoints

  /** The transport: the base URL every request goes to (the `CB_API_URL`
      constant) and what the server answers to each request. */
  datatype Network = Network(apiUrl: string, send: Request -> Outcome)

  const ContextOption: Key := SymKey("context")
  const PageOption: Key := SymKey("page")

  /** The query parameters `api_call` sets from the caller's options:
      `context` exactly when `options[:context]` is an array, holding its
      elements joined with commas (an empty array gives ""), and `page`
      exactly when `options[:page]` is present, holding that value unchanged. */
  function QueryParams(options: map<Key, Value>): (q: map<string, Value>)
    ensures "context" in q <==> Lookup(options, ContextOption).List?
    ensures "context" in q ==> q["context"] == Str(Join(Lookup(options, ContextOption).items, ","))
    ensures "page" in q <==> Present(Lookup(options, PageOption))
    ensures "page" in q ==> q["page"] == Lookup(options, PageOption)
    ensures q.Keys <= {"context", "page"}
  {
    var context := TryJoin(Lookup(options, ContextOption), ",");
    var page := Lookup(options, PageOption);
    var withContext := if context.Some? then map["context" := Str(context.value)] else map[];
    if Present(page) then withContext["page" := page] else withContext
  }

  /** The headers of every request. */
  function AuthHeaders(key: string, secret: string): map<string, string>
  {
    map["Accept" := "application/json", "CB-KEY" := key, "CB-SECRET" := secret]
  }

  /** Options other than `:context` and `:page` (`:only_curl` among them)
      never reach the query. */
  lemma OtherOptionsIgnored(options: map<Key, Value>, k: Key, v: Value)
    requires k != ContextOption && k != PageOption
    ensures QueryParams(options[k := v]) == QueryParams(options)
  {
    assert Lookup(options[k := v], ContextOption) == Lookup(options, ContextOption);
    assert Lookup(options[k := v], PageOption) == Lookup(options, PageOption);
  }

  /** `context: [:some, :data]` gives `context=some,data`; adding `page: 3`
      adds `page=3` and nothing else. */
  lemma ContextAndPageExample()
    ensures QueryParams(map[ContextOption := List([Sym("some"), Sym("data")])])
            == map["context" := Str("some,data")]
    ensures QueryParams(map[ContextOption := List([Sym("some"), Sym("data")]), PageOption := Int(3)])
            == map["context" := Str("some,data"), "page" := Int(3)]
  {
    var items := [Sym("some"), Sym("data")];
    assert Join(items, ",") == "some,data" by {
      assert items[1..] == [Sym("data")];
      assert Join(items, ",") == "some" + "," + Join(items[1..], ",");
    }
    var q1 := QueryParams(map[ContextOption := List(items)]);
    assert q1.Keys == {"context"};
    var q2 := QueryParams(map[ContextOption := List(items), PageOption := Int(3)]);
    assert q2.Keys == {"context", "page"};
  }

  class Session {
    const key: string
    const secret: string
    /** True: failures raise (`perform_request!`); false: every call answers
        `[ok, payload]` (`perform_request`). */
    const raiseErrors: bool

    constructor (key: string, secret: string, raiseErrors: bool)
      ensures this.key == key && this.secret == secret && this.raiseErrors == raiseErrors
    {
      this.key := key;
      this.secret := secret;
      this.raiseErrors := raiseErrors;
    }

    /** The constructor called without its third argument. */
    constructor WithDefaultMode(key: string, secret: string)
      ensures this.key == key && this.secret == secret && this.raiseErrors
    {
      this.key := key;
      this.secret := secret;
      this.raiseErrors := true;
    }

    /** `req` is the request `api_call` builds for this call. */
    predicate Sent(req: Request, verb: Verb, path: string, formParams: Form,
                   options: map<Key, Value>, net: Network)
    {
      req == HttpCall(verb, net.apiUrl, QueryParams(options), AuthHeaders(key, secret), path, formParams)
    }

    /** `res` is what this session's mode makes of outcome `o`. */
    predicate Answered(res: CallResult, o: Outcome)
    {
      res == if raiseErrors then PerformRequestRaising(o) else PerformRequest(o)
    }

    /** `api_call`: sets the query parameters and headers on a fresh
        connection, sends the request and interprets the outcome in the
        session's mode. */
    method ApiCall(verb: Verb, url: string, formParams: Form, options: map<Key, Value>, net: Network)
      returns (req: Request, res: CallResult)
      ensures req.params == QueryParams(options)
      ensures req.headers == AuthHeaders(key, secret)
      ensures Sent(req, verb, url, formParams, options, net)
      ensures raiseErrors ==> res == PerformRequestRaising(net.send(req))
      ensures !raiseErrors ==> res == PerformRequest(net.send(req))
    {
      var conn := new HttpConnection(net.apiUrl);
      var context := TryJoin(Lookup(options, ContextOption), ",");
      if context.Some? {
        conn.SetParam("context", Str(context.value));
      }
      var page := Lookup(options, PageOption);
      if Present(page) {
        conn.SetParam("page", page);
      }
      conn.SetHeader("Accept", "application/json");
      conn.SetHeader("CB-KEY", key);
      conn.SetHeader("CB-SECRET", secret);
      req := HttpCall(verb, conn.url, conn.params, conn.headers, url, formParams);
      var outcome := net.send(req);
      if raiseErrors {
        res := PerformRequestRaising(outcome);
      } else {
        res := PerformRequest(outcome);
      }
    }

    /** `api_get`: a GET without form parameters. */
    method ApiGet(url: string, options: map<Key, Value>, net: Network) returns (req: Request, res: CallResult)
      ensures Sent(req, Get, url, Leaf(Nil), options, net) && Answered(res, net.send(req))
    {
      req, res := ApiCall(Get, url, Leaf(Nil), options, net);
    }

    /** `api_post`: a POST carrying `formParams` unchanged. */
    method ApiPost(url: string, formParams: Form, options: map<Key, Value>, net: Network)
      returns (req: Request, res: CallResult)
      ensures Sent(req, Post, url, formParams, options, net) && Answered(res, net.send(req))
    {
      req, res := ApiCall(Post, url, formParams, options, net);
    }

    method HomeContents(options: map<Key, Value>, net: Network) returns (req: Request, res: CallResult)
      ensures Sent(req, Get, PathOf(Endpoint.HomeContents), Leaf(Nil), options, net)
      ensures Answered(res, net.send(req))
    {
      req, res := ApiGet("/api/home/contents", options, net);
    }

    method SectionContents(section: string, options: map<Key, Value>, net: Network)
      returns (req: Request, res: CallResult)
      ensures Sent(req, Get, PathOf(Endpoint.SectionContents(section)), Leaf(Nil), options, net)
      ensures Answered(res, net.send(req))
    {
      req, res := ApiGet("/api/sections/" + section + "/contents", options, net);
    }

    method SectionContent(section: string, content: string, options: map<Key, Value>, net: Network)
      returns (req: Request, res: CallResult)
      ensures Sent(req, Get, PathOf(Endpoint.SectionContent(section, content)), Leaf(Nil), options, net)
      ensures Answered(res, net.send(req))
    {
      req, res := ApiGet("/api/sections/" + section + "/contents/" + content, options, net);
    }

    method NewSectionContent(section: string, options: map<Key, Value>, net: Network)
      returns (req: Request, res: CallResult)
      ensures Sent(req, Get, PathOf(Endpoint.NewSectionContent(section)), Leaf(Nil), options, net)
      ensures Answered(res, net.send(req))
    {
      req, res := ApiGet("/api/sections/" + section + "/contents/new", options, net);
    }

    /** POSTs `{content: contentParams}` to the section's contents. */
    method CreateSectionContent(section: string, contentParams: Form, options: map<Key, Value>, net: Network)
      returns (req: Request, res: CallResult)
      ensures Sent(req, Post, PathOf(Endpoint.CreateSectionContent(section)),
                   Fields(map[SymKey("content") := contentParams]), options, net)
      ensures Answered(res, net.send(req))
    {
      req, res := ApiPost("/api/sections/" + section + "/contents",
                          Fields(map[SymKey("content") := contentParams]), options, net);
    }

    method Contents(options: map<Key, Value>, net: Network) returns (req: Request, res: CallResult)
      ensures Sent(req, Get, PathOf(Endpoint.Contents), Leaf(Nil), options, net)
      ensures Answered(res, net.send(req))
    {
      req, res := ApiGet("/api/contents", options, net);
    }

    method Content(content: string, options: map<Key, Value>, net: Network) returns (req: Request, res: CallResult)
      ensures Sent(req, Get, PathOf(Endpoint.Content(content)), Leaf(Nil), options, net)
      ensures Answered(res, net.send(req))
    {
      req, res := ApiGet("/api/contents/" + content, options, net);
    }
  }
}
