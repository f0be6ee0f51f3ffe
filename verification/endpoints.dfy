/** The endpoint catalog of the session (lib/cb/client/session.rb:13-39):
    each endpoint is a verb plus a path template with its slugs interpolated.
    Route reads a verb and path back into an endpoint, the way the API's
    router would, and serves as the inverse the templates are checked against. */
module Endpoints {
  import opened Text
  import opened Values
  import opened Connection

  datatype Endpoint =
    | HomeContents
    | SectionContents(section: string)
    | SectionContent(section: string, content: string)
    | NewSectionContent(section: string)
    | CreateSectionContent(section: string)
    | Contents
    | Content(content: string)

  function VerbOf(e: Endpoint): Verb
  {
    if e.CreateSectionContent? then Post else Get
  }

  function PathOf(e: Endpoint): string
  {
    match e
    case HomeContents => "/api/home/contents"
    case SectionContents(s) => "/api/sections/" + s + "/contents"
    case SectionContent(s, c) => "/api/sections/" + s + "/contents/" + c
    case NewSectionContent(s) => "/api/sections/" + s + "/contents/new"
    case CreateSectionContent(s) => "/api/sections/" + s + "/contents"
    case Contents => "/api/contents"
    case Content(c) => "/api/contents/" + c
  }

  /** The slash-separated segments of an endpoint's path. */
  function Segments(e: Endpoint): seq<string>
  {
    match e
    case HomeContents => ["", "api", "home", "contents"]
    case SectionContents(s) => ["", "api", "sections", s, "contents"]
    case SectionContent(s, c) => ["", "api", "sections", s, "contents", c]
    case NewSectionContent(s) => ["", "api", "sections", s, "contents", "new"]
    case CreateSectionContent(s) => ["", "api", "sections", s, "contents"]
    case Contents => ["", "api", "contents"]
    case Content(c) => ["", "api", "contents", c]
  }

  /** The endpoint a verb and path address, if any. */
  function Route(verb: Verb, path: string): Option<Endpoint>
  {
    var seg := Split(path, '/');
    if |seg| < 3 || seg[0] != "" || seg[1] != "api" then None
    else if verb == Post then
      if |seg| == 5 && seg[2] == "sections" && seg[4] == "contents"
      then Some(CreateSectionContent(seg[3])) else None
    else if |seg| == 3 then
      if seg[2] == "contents" then Some(Contents) else None
    else if |seg| == 4 then
      if seg[2] == "home" && seg[3] == "contents" then Some(HomeContents)
      else if seg[2] == "contents" then Some(Content(seg[3]))
      else None
    else if seg[2] == "sections" && seg[4] == "contents" then
      if |seg| == 5 then Some(SectionContents(seg[3]))
      else if |seg| == 6 then
        if seg[5] == "new" then Some(NewSectionContent(seg[3])) else Some(SectionContent(seg[3], seg[5]))
      else None
    else None
  }

  /** Slugs hold no slash, and no content slug is "new". */
  predicate Routable(e: Endpoint)
  {
    match e
    case HomeContents => true
    case SectionContents(s) => '/' !in s
    case SectionContent(s, c) => '/' !in s && '/' !in c && c != "new"
    case NewSectionContent(s) => '/' !in s
    case CreateSectionContent(s) => '/' !in s
    case Contents => true
    case Content(c) => '/' !in c
  }

  lemma Assoc(a: string, b: string, c: string)
    ensures a + (b + c) == a + b + c
  {
  }

  /** The joined segments below `/api/sections/{s}`. */
  lemma UnderSection(s: string, rest: seq<string>)
    requires rest != []
    ensures JoinWith(["", "api", "sections", s] + rest, "/") == "/api/sections/" + s + "/" + JoinWith(rest, "/")
  {
    var t0 := JoinWith(rest, "/");
    var t1 := JoinWith([s] + rest, "/");
    assert t1 == s + "/" + t0 by { JoinWithCons(s, rest, "/"); }
    var t2 := JoinWith(["sections", s] + rest, "/");
    assert t2 == "sections/" + t1 by {
      JoinWithCons("sections", [s] + rest, "/");
      assert ["sections"] + ([s] + rest) == ["sections", s] + rest;
    }
    var t3 := JoinWith(["api", "sections", s] + rest, "/");
    assert t3 == "api/" + t2 by {
      JoinWithCons("api", ["sections", s] + rest, "/");
      assert ["api"] + (["sections", s] + rest) == ["api", "sections", s] + rest;
    }
    var t4 := JoinWith(["", "api", "sections", s] + rest, "/");
    assert t4 == "/" + t3 by {
      JoinWithCons("", ["api", "sections", s] + rest, "/");
      assert [""] + (["api", "sections", s] + rest) == ["", "api", "sections", s] + rest;
    }
    var prefix := "/api/sections/";
    assert t4 == prefix + t1 by {
      Assoc("api/", "sections/", t1);
      Assoc("/", "api/" + "sections/", t1);
      assert "/" + ("api/" + "sections/") == prefix;
    }
    assert t1 == (s + "/") + t0;
    Assoc(prefix, s + "/", t0);
    Assoc(prefix, s, "/");
  }

  /** The joined segments below `/api/contents`. */
  lemma UnderContents(rest: seq<string>)
    requires rest != []
    ensures JoinWith(["", "api", "contents"] + rest, "/") == "/api/contents/" + JoinWith(rest, "/")
  {
    var t0 := JoinWith(rest, "/");
    var t1 := JoinWith(["contents"] + rest, "/");
    assert t1 == "contents/" + t0 by { JoinWithCons("contents", rest, "/"); }
    var t2 := JoinWith(["api", "contents"] + rest, "/");
    assert t2 == "api/" + t1 by {
      JoinWithCons("api", ["contents"] + rest, "/");
      assert ["api"] + (["contents"] + rest) == ["api", "contents"] + rest;
    }
    var t3 := JoinWith(["", "api", "contents"] + rest, "/");
    assert t3 == "/" + t2 by {
      JoinWithCons("", ["api", "contents"] + rest, "/");
      assert [""] + (["api", "contents"] + rest) == ["", "api", "contents"] + rest;
    }
    Assoc("api/", "contents/", t0);
    Assoc("/", "api/" + "contents/", t0);
    assert "/" + ("api/" + "contents/") == "/api/contents/";
  }

  lemma HomeContentsPathIsJoined()
    ensures PathOf(HomeContents) == JoinWith(Segments(HomeContents), "/")
  {
    var t1 := JoinWith(["home", "contents"], "/");
    assert t1 == "home/contents" by { JoinWithCons("home", ["contents"], "/"); }
    var t2 := JoinWith(["api", "home", "contents"], "/");
    assert t2 == "api/home/contents" by {
      JoinWithCons("api", ["home", "contents"], "/");
      assert ["api"] + ["home", "contents"] == ["api", "home", "contents"];
    }
    assert JoinWith(["", "api", "home", "contents"], "/") == "/api/home/contents" by {
      JoinWithCons("", ["api", "home", "contents"], "/");
      assert [""] + ["api", "home", "contents"] == ["", "api", "home", "contents"];
    }
  }

  lemma SectionContentsPathIsJoined(s: string)
    ensures PathOf(SectionContents(s)) == JoinWith(Segments(SectionContents(s)), "/")
  {
    UnderSection(s, ["contents"]);
    assert ["", "api", "sections", s] + ["contents"] == Segments(SectionContents(s));
    Assoc("/api/sections/" + s, "/", "contents");
  }

  lemma SectionContentPathIsJoined(s: string, c: string)
    ensures PathOf(SectionContent(s, c)) == JoinWith(Segments(SectionContent(s, c)), "/")
  {
    UnderSection(s, ["contents", c]);
    assert ["", "api", "sections", s] + ["contents", c] == Segments(SectionContent(s, c));
    assert JoinWith(["contents", c], "/") == "contents/" + c by { JoinWithCons("contents", [c], "/"); }
    var head := "/api/sections/" + s;
    Assoc(head + "/", "contents/", c);
    Assoc(head, "/", "contents/");
  }

  lemma NewSectionContentPathIsJoined(s: string)
    ensures PathOf(NewSectionContent(s)) == JoinWith(Segments(NewSectionContent(s)), "/")
  {
    UnderSection(s, ["contents", "new"]);
    assert ["", "api", "sections", s] + ["contents", "new"] == Segments(NewSectionContent(s));
    assert JoinWith(["contents", "new"], "/") == "contents/new" by { JoinWithCons("contents", ["new"], "/"); }
    Assoc("/api/sections/" + s, "/", "contents/new");
  }

  lemma CreateSectionContentPathIsJoined(s: string)
    ensures PathOf(CreateSectionContent(s)) == JoinWith(Segments(CreateSectionContent(s)), "/")
  {
    SectionContentsPathIsJoined(s);
  }

  lemma ContentsPathIsJoined()
    ensures PathOf(Contents) == JoinWith(Segments(Contents), "/")
  {
    var t1 := JoinWith(["api", "contents"], "/");
    assert t1 == "api/contents" by { JoinWithCons("api", ["contents"], "/"); }
    assert JoinWith(["", "api", "contents"], "/") == "/api/contents" by {
      JoinWithCons("", ["api", "contents"], "/");
      assert [""] + ["api", "contents"] == ["", "api", "contents"];
    }
  }

  lemma ContentPathIsJoined(c: string)
    ensures PathOf(Content(c)) == JoinWith(Segments(Content(c)), "/")
  {
    UnderContents([c]);
    assert ["", "api", "contents"] + [c] == Segments(Content(c));
  }

  lemma PathIsJoinedSegments(e: Endpoint)
    ensures PathOf(e) == JoinWith(Segments(e), "/")
  {
    match e
    case HomeContents => HomeContentsPathIsJoined();
    case SectionContents(s) => SectionContentsPathIsJoined(s);
    case SectionContent(s, c) => SectionContentPathIsJoined(s, c);
    case NewSectionContent(s) => NewSectionContentPathIsJoined(s);
    case CreateSectionContent(s) => CreateSectionContentPathIsJoined(s);
    case Contents => ContentsPathIsJoined();
    case Content(c) => ContentPathIsJoined(c);
  }

  /** Every endpoint's template reads back as that endpoint. */
  lemma RouteRoundTrip(e: Endpoint)
    requires Routable(e)
    ensures Route(VerbOf(e), PathOf(e)) == Some(e)
  {
    PathIsJoinedSegments(e);
    SplitJoin(Segments(e), '/');
  }

  /** `section_content(s, 'new')` issues the very request `new_section_content(s)` does. */
  lemma NewContentSlugCollides(s: string)
    ensures VerbOf(SectionContent(s, "new")) == VerbOf(NewSectionContent(s))
    ensures PathOf(SectionContent(s, "new")) == PathOf(NewSectionContent(s))
  {
  }
}
