/** The SSR front server: static mounts and their cache lifetime, the
    renderer and page template it holds, and its catch-all page handler. */
module FrontServer {
  import opened Optional
  import HtmlTemplate

  /** The `maxAge` given to the cached static mounts in production:
      604800, the number of seconds in a week, which `express.static` reads
      as milliseconds. */
  const CachedMaxAge: int := 60 * 60 * 24 * 7

  /** The number of seconds in a week. */
  const WeekSeconds: int := 604800

  /** `serve`'s `maxAge` as written: nonzero only for a cached mount in
      production, and then `CachedMaxAge`, in milliseconds. */
  function MaxAge(cache: bool, isProd: bool): (age: int)
    ensures age >= 0
    ensures age != 0 <==> cache && isProd
    ensures age != 0 ==> age == 604800
  {
    if cache && isProd then CachedMaxAge else 0
  }

  /** The `max-age` of the `Cache-Control` header `express.static` sends
      for a `maxAge` in milliseconds: whole seconds, rounded down. */
  function CacheControlSeconds(maxAgeMs: int): (seconds: int)
    requires maxAgeMs >= 0
    ensures seconds >= 0 && seconds * 1000 <= maxAgeMs < (seconds + 1) * 1000
  {
    maxAgeMs / 1000
  }

  /** As written, a cached mount in production is cached for 604 seconds,
      about ten minutes, not a week. */
  lemma CachedForMinutes()
    ensures CacheControlSeconds(MaxAge(true, true)) == 604
    ensures CacheControlSeconds(MaxAge(true, true)) < WeekSeconds
  {
  }

  /** `serve`'s `maxAge` as evidently intended: a week, in the
      milliseconds `express.static` expects. */
  function IntendedMaxAge(cache: bool, isProd: bool): (age: int)
    ensures age >= 0
    ensures age != 0 <==> cache && isProd
  {
    if cache && isProd then CachedMaxAge * 1000 else 0
  }

  /** With the intended value, a cached mount in production is cached for
      exactly one week, and nothing else is cached. */
  lemma IntendedCachedForAWeek(cache: bool, isProd: bool)
    ensures CacheControlSeconds(IntendedMaxAge(cache, isProd)) == (if cache && isProd then WeekSeconds else 0)
  {
  }

  /** A static directory or file mounted under a URL prefix. */
  datatype Mount = Mount(prefix: string, path: string, cache: bool)

  /** The static mounts, in registration order. */
  const Mounts: seq<Mount> := [
    Mount("/dist", "./dist", true),
    Mount("/public", "./public", true),
    Mount("/service-worker.js", "./dist/service-worker.js", false)
  ]

  /** The service worker is never cached; in production the build output
      and the public files get `CachedMaxAge`, in development nothing is
      cached. */
  lemma MountLifetimes(isProd: bool)
    ensures forall m :: m in Mounts && m.prefix == "/service-worker.js" ==> MaxAge(m.cache, isProd) == 0
    ensures forall m :: m in Mounts && m.prefix != "/service-worker.js" ==>
      MaxAge(m.cache, isProd) == (if isProd then CachedMaxAge else 0)
  {
    assert Mounts[2].prefix == "/service-worker.js";
  }

  const NotFoundPage: string := "404 | Page Not Found"
  const ServerErrorPage: string := "500 | Internal Server Error"
  const WaitingPage: string := "waiting for compilation... refresh in a moment."

  /** The error handler's choice of status and body. `code` is the error's
      numeric `code` property, None when it has none. */
  function ErrorResponse(code: Option<int>): (r: (int, string))
    ensures r.0 == 404 <==> code == Some(404)
    ensures r.0 == 404 ==> r.1 == NotFoundPage
    ensures r.0 != 404 ==> r.0 == 500 && r.1 == ServerErrorPage
  {
    if code == Some(404) then (404, NotFoundPage) else (500, ServerErrorPage)
  }

  /** What has been written to the response so far. `Threw` is the
      request whose first-chunk listener throws a `TypeError` because the
      page template is unset. */
  datatype Sent = Nothing | Text(body: string) | Stream(url: string, template: string) | Threw

  /** A renderer built from a server bundle. */
  datatype Renderer = Renderer(bundle: string)

  /** How rendering a page ends. */
  datatype Outcome = Rendered | Failed(code: Option<int>)

  /** The response of one request. */
  class Response {
    var status: int
    var headers: map<string, string>
    var sent: Sent

    constructor()
      ensures status == 200 && headers == map[] && sent == Nothing
    {
      status := 200;
      headers := map[];
      sent := Nothing;
    }

    method SetHeader(name: string, value: string)
      modifies this`headers
      ensures headers == old(headers)[name := value]
    {
      headers := headers[name := value];
    }

    method End(body: string)
      modifies this`sent
      ensures sent == Text(body)
    {
      sent := Text(body);
    }

    /** `errorHandler`: a 404 page for a not-found error, a 500 page for
        any other. */
    method Fail(code: Option<int>)
      modifies this`status, this`sent
      ensures status == 404 <==> code == Some(404)
      ensures (status, sent) == (ErrorResponse(code).0, Text(ErrorResponse(code).1))
    {
      var r := ErrorResponse(code);
      status := r.0;
      End(r.1);
    }
  }

  /** The server's module-level state: whether it runs in production, the
      `Server` header text, and the renderer and page template, which stay
      unset until a build provides them. */
  class Server {
    const isProd: bool
    const serverInfo: string
    var renderer: Option<Renderer>
    var template: Option<string>

    /** Start-up: in production the renderer comes from the server bundle
        and the template from the built index page, with the app anchor cut
        out; in development both wait for the first build. */
    constructor(isProd: bool, serverInfo: string, bundle: string, indexHtml: string)
      ensures this.isProd == isProd && this.serverInfo == serverInfo
      ensures isProd ==> renderer == Some(Renderer(bundle)) && template == Some(HtmlTemplate.HandleHtml(indexHtml))
      ensures !isProd ==> renderer == None && template == None
    {
      this.isProd := isProd;
      this.serverInfo := serverInfo;
      if isProd {
        template := Some(HtmlTemplate.HandleHtml(indexHtml));
        renderer := Some(Renderer(bundle));
      } else {
        template := None;
        renderer := None;
      }
    }

    /** The development build callback as written: its `template` parameter
        shadows the server's, so only the renderer changes. */
    method OnDevBuild(bundle: string, newTemplate: string)
      modifies this`renderer
      ensures renderer == Some(Renderer(bundle)) && template == old(template)
    {
      renderer := Some(Renderer(bundle));
    }

    /** The development build callback as evidently intended: both the
        renderer and the template are replaced. */
    method OnDevBuildFixed(bundle: string, newTemplate: string)
      modifies this`renderer, this`template
      ensures renderer == Some(Renderer(bundle)) && template == Some(newTemplate)
    {
      renderer := Some(Renderer(bundle));
      template := Some(newTemplate);
    }

    /** The catch-all page handler. Before a renderer exists it only answers
        with the waiting text. Otherwise it sets the two headers, then
        either streams the page for `url` through the template or, when
        rendering fails, answers with the error page. A rendered page with
        no template makes the first-chunk listener throw on
        `template.replace`. */
    method Get(url: string, res: Response, outcome: Outcome)
      modifies res
      ensures renderer.None? ==>
        res.sent == Text(WaitingPage) && res.status == old(res.status) && res.headers == old(res.headers)
      ensures renderer.Some? ==>
        res.headers == old(res.headers)["Content-Type" := "text/html"]["Server" := serverInfo]
      ensures renderer.Some? && outcome.Rendered? ==> res.status == old(res.status)
      ensures renderer.Some? && outcome.Rendered? && template.Some? ==> res.sent == Stream(url, template.value)
      ensures renderer.Some? && outcome.Rendered? && template.None? ==> res.sent == Threw
      ensures renderer.Some? && outcome.Failed? ==>
        (res.status, res.sent) == (ErrorResponse(outcome.code).0, Text(ErrorResponse(outcome.code).1))
    {
      if renderer.None? {
        res.End(WaitingPage);
        return;
      }
      res.SetHeader("Content-Type", "text/html");
      res.SetHeader("Server", serverInfo);
      match outcome
      case Failed(code) =>
        res.Fail(code);
      case Rendered =>
        if template.None? {
          res.sent := Threw;
        } else {
          res.sent := Stream(url, template.value);
        }
    }
  }

  /** In development, after a build the callback as written has made the
      renderer ready but left the page template unset, so rendering a page
      throws in the first-chunk listener instead of streaming it. */
  method DevBuildLeavesTemplateUnset(serverInfo: string, bundle: string, indexHtml: string, built: string, shell: string,
                                     url: string)
    returns (streamed: Sent)
    ensures streamed == Threw
  {
    var server := new Server(false, serverInfo, bundle, indexHtml);
    server.OnDevBuild(built, shell);
    var res := new Response();
    server.Get(url, res, Rendered);
    streamed := res.sent;
  }

  /** With the intended callback, the pages of a development server are
      streamed through the template of the latest build. */
  method DevBuildSetsTemplate(serverInfo: string, bundle: string, indexHtml: string, built: string, shell: string,
                              url: string)
    returns (streamed: Sent)
    ensures streamed == Stream(url, shell)
  {
    var server := new Server(false, serverInfo, bundle, indexHtml);
    server.OnDevBuildFixed(built, shell);
    var res := new Response();
    server.Get(url, res, Rendered);
    streamed := res.sent;
  }
}
