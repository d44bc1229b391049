/** The `GET` handler of the image-proxy route, with every call into the
    browser library (and `decodeURIComponent`) replaced by its outcome, given
    as input. The handler as written always launches a browser, navigates to
    the decoded URL, takes the in-page fetch result or else a screenshot,
    closes the browser, and answers 200 with the bytes, or 502 with the
    message of the first error that reaches the outer catch (an error of the
    in-page evaluation is swallowed at lines 82-84 and never does). */
module ImageProxy {
  import opened Outcomes
  import opened Interception
  import opened Payload
  import opened Responses

  /** The browser/page session of one request. */
  datatype SessionState = Created | Launched | PageOpen | Closed

  /** The user agent handed to `page.setUserAgent`. */
  const UserAgent: string := "Mozilla/5.0 (Windows NT 10.0; Win64; x64) AppleWebKit/537.36 (KHTML, like Gecko) Chrome/121.0.0.0 Safari/537.36"

  /** The headers handed to `page.setExtraHTTPHeaders`. */
  const ExtraHeaders: map<string, string> := map[
    "Accept-Language" := "en-US,en;q=0.9",
    "Sec-Ch-Ua" := "\"Not_A Brand\";v=\"8\", \"Chromium\";v=\"120\", \"Google Chrome\";v=\"120\"",
    "Sec-Ch-Ua-Mobile" := "?0",
    "Sec-Ch-Ua-Platform" := "\"Windows\"",
    "Sec-Fetch-Dest" := "image",
    "Sec-Fetch-Mode" := "navigate",
    "Sec-Fetch-Site" := "none",
    "Upgrade-Insecure-Requests" := "1"
  ]

  /** A call the handler makes into the browser library, as recorded in the
      session's trace. A navigation records the URL and how the interception
      callback resolved each sub-request the page issued. */
  datatype Call =
    | Launch
    | NewPage
    | SetUserAgent(userAgent: string)
    | SetExtraHeaders(headers: map<string, string>)
    | EnableInterception
    | Goto(url: string, resolved: seq<Decision>)
    | Evaluate
    | TakeScreenshot
    | Close

  /** What each external call does on this request. `pageRequests` are the
      resource types of the sub-requests the page issues while loading. */
  datatype Externals = Externals(
    decode: Outcome<string>,
    executablePath: Outcome<string>,
    launch: Outcome<()>,
    newPage: Outcome<()>,
    setUserAgent: Outcome<()>,
    setExtraHeaders: Outcome<()>,
    setInterception: Outcome<()>,
    pageRequests: seq<string>,
    goto: Outcome<()>,
    evaluate: Outcome<Option<Bytes>>,
    screenshot: Outcome<Bytes>,
    close: Outcome<()>)

  /** What the handler's promise settles to: a response, or a rejection that
      escapes the handler (the framework then answers on its own). */
  datatype Reply = Respond(response: Response) | Rejected(message: string)

  /** The result of a piece of the handler: what it returned or threw, the
      calls it made, and the session state it left. */
  datatype Attempt<T> = Attempt(result: Outcome<T>, calls: seq<Call>, state: SessionState)

  /** The whole handler: its reply, the calls it made, the session state it left. */
  datatype Run = Run(reply: Reply, calls: seq<Call>, state: SessionState)

  /** `!url`: the parameter is absent or the empty string. */
  predicate UrlMissing(query: Option<string>) {
    query.None? || query.value == ""
  }

  /** The message an outcome threw, if it threw. */
  function Thrown<T>(o: Outcome<T>): (m: Option<string>)
    ensures m.Some? <==> o.Throws?
    ensures m.Some? ==> m.value == o.message
  {
    match o
    case Returns(_) => None
    case Throws(message) => Some(message)
  }

  /** The first message in a list of possible errors, in order. */
  function FirstThrown(errors: seq<Option<string>>): Option<string> {
    if errors == [] then None
    else if errors[0].Some? then errors[0]
    else FirstThrown(errors[1..])
  }

  /** `FirstThrown` finds no error exactly when there is none, and otherwise
      the error preceded only by non-errors. */
  lemma {:induction false} FirstThrownSpec(errors: seq<Option<string>>)
    ensures FirstThrown(errors).None? <==> forall i :: 0 <= i < |errors| ==> errors[i].None?
    ensures FirstThrown(errors).Some? ==>
      exists i :: 0 <= i < |errors| && errors[i] == FirstThrown(errors) && forall j :: 0 <= j < i ==> errors[j].None?
  {
    if errors != [] && errors[0].None? {
      var rest := errors[1..];
      FirstThrownSpec(rest);
      if FirstThrown(rest).Some? {
        var i :| 0 <= i < |rest| && rest[i] == FirstThrown(rest) && forall j :: 0 <= j < i ==> rest[j].None?;
        assert errors[i + 1] == FirstThrown(errors) && forall j :: 0 <= j < i + 1 ==> errors[j].None?;
      } else {
        assert forall i :: 0 < i < |errors| ==> errors[i] == rest[i - 1];
      }
    } else if errors != [] {
      assert errors[0] == FirstThrown(errors);
    }
  }

  /** Position `i` holds an error and no earlier position does. */
  predicate FirstErrorAt(errors: seq<Option<string>>, i: int) {
    0 <= i < |errors| && errors[i].Some? && forall j :: 0 <= j < i ==> errors[j].None?
  }

  /** An error preceded only by non-errors is the first error. */
  lemma FirstThrownAt(errors: seq<Option<string>>, i: nat)
    requires FirstErrorAt(errors, i)
    ensures FirstThrown(errors) == errors[i]
  {
    FirstThrownSpec(errors);
    var first := FirstThrown(errors);
    var k :| 0 <= k < |errors| && errors[k] == first && forall j :: 0 <= j < k ==> errors[j].None?;
    assert !(k < i) && !(i < k);
  }

  /** A first error found in a prefix is the first error of the whole list. */
  lemma {:induction false} FirstThrownOfPrefix(xs: seq<Option<string>>, ys: seq<Option<string>>)
    requires FirstThrown(xs).Some?
    ensures FirstThrown(xs + ys) == FirstThrown(xs)
  {
    if xs[0].None? {
      assert (xs + ys)[1..] == xs[1..] + ys;
      FirstThrownOfPrefix(xs[1..], ys);
    }
  }

  /** Past an error-free prefix, the first error is that of the rest. */
  lemma {:induction false} FirstThrownAfterNone(xs: seq<Option<string>>, ys: seq<Option<string>>)
    requires FirstThrown(xs).None?
    ensures FirstThrown(xs + ys) == FirstThrown(ys)
  {
    if xs != [] {
      assert (xs + ys)[1..] == xs[1..] + ys;
      FirstThrownAfterNone(xs[1..], ys);
    } else {
      assert xs + ys == ys;
    }
  }

  /** The calls of lines 21-47 when none of them throws. */
  const SetupCalls: seq<Call> :=
    [Launch, NewPage, SetUserAgent(UserAgent), SetExtraHeaders(ExtraHeaders), EnableInterception]

  /** The errors lines 21-47 can meet, in call order. */
  function SetupErrors(ext: Externals): seq<Option<string>> {
    [ Thrown(ext.executablePath), Thrown(ext.launch), Thrown(ext.newPage),
      Thrown(ext.setUserAgent), Thrown(ext.setExtraHeaders), Thrown(ext.setInterception) ]
  }

  /** The errors lines 21-90 can meet, in call order. */
  function ExtractErrors(ext: Externals): seq<Option<string>> {
    SetupErrors(ext) + NavigationErrors(ext)
  }

  /** The errors the whole try block can meet before the empty-payload check. */
  function ThrownInOrder(ext: Externals): seq<Option<string>> {
    ExtractErrors(ext) + [Thrown(ext.close)]
  }

  /** The calls of lines 21-90 when none of them throws. */
  function ExtractCalls(url: string, ext: Externals): seq<Call> {
    SetupCalls + NavigationCalls(url, ext)
  }

  /** Every call the try block makes when nothing throws, in order. */
  function AllCalls(url: string, ext: Externals): seq<Call> {
    ExtractCalls(url, ext) + [Close]
  }

  /** Setup never navigates, evaluates, takes a screenshot or closes. */
  lemma SetupCallKinds(calls: seq<Call>)
    requires calls <= SetupCalls
    ensures forall c :: c in calls ==> !c.Goto? && c != Evaluate && c != TakeScreenshot && c != Close
  {
  }

  /** Lines 21-47: find the executable, launch the browser, open a page, set
      the user agent and the extra headers, and turn interception on,
      stopping at the first setup error (none of them is swallowed). */
  function Setup(ext: Externals): (a: Attempt<()>)
    ensures a.calls <= SetupCalls && a.state != Closed
    ensures forall i :: FirstErrorAt(SetupErrors(ext), i) ==> a.calls == SetupCalls[..i]
    ensures Launch in a.calls <==> ext.executablePath.Returns?
    ensures a.state == Created <==> ext.executablePath.Throws? || ext.launch.Throws?
    ensures a.state == Launched <==> ext.executablePath.Returns? && ext.launch.Returns? && ext.newPage.Throws?
    ensures a.result.Returns? <==> FirstThrown(SetupErrors(ext)).None?
    ensures a.result.Returns? ==> a.calls == SetupCalls && a.state == PageOpen
    ensures a.result.Throws? ==> FirstThrown(SetupErrors(ext)) == Some(a.result.message)
  {
    var errors := SetupErrors(ext);
    if ext.executablePath.Throws? then
      FirstThrownAt(errors, 0);
      Attempt(Throws(ext.executablePath.message), [], Created)
    else if ext.launch.Throws? then
      FirstThrownAt(errors, 1);
      Attempt(Throws(ext.launch.message), [Launch], Created)
    else if ext.newPage.Throws? then
      FirstThrownAt(errors, 2);
      Attempt(Throws(ext.newPage.message), [Launch, NewPage], Launched)
    else if ext.setUserAgent.Throws? then
      FirstThrownAt(errors, 3);
      Attempt(Throws(ext.setUserAgent.message), [Launch, NewPage, SetUserAgent(UserAgent)], PageOpen)
    else if ext.setExtraHeaders.Throws? then
      FirstThrownAt(errors, 4);
      Attempt(Throws(ext.setExtraHeaders.message),
        [Launch, NewPage, SetUserAgent(UserAgent), SetExtraHeaders(ExtraHeaders)], PageOpen)
    else if ext.setInterception.Throws? then
      FirstThrownAt(errors, 5);
      Attempt(Throws(ext.setInterception.message), SetupCalls, PageOpen)
    else
      FirstThrownSpec(errors);
      Attempt(Returns(()), SetupCalls, PageOpen)
  }

  /** The errors lines 61-90 can meet, in call order. The evaluation's
      error is missing because the inner catch swallows it; the screenshot's
      is there only when the screenshot is taken. */
  function NavigationErrors(ext: Externals): seq<Option<string>> {
    [Thrown(ext.goto), if NeedsScreenshot(InPageResult(ext.evaluate)) then Thrown(ext.screenshot) else None]
  }

  /** The calls of lines 61-90 when none of them throws. */
  function NavigationCalls(url: string, ext: Externals): seq<Call> {
    [Goto(url, ResolveAll(ext.pageRequests)), Evaluate]
    + (if NeedsScreenshot(InPageResult(ext.evaluate)) then [TakeScreenshot] else [])
  }

  /** Lines 61-90 on an open page with interception on: navigate to `url`,
      then take the in-page result or else a screenshot; returns the calls
      made from the navigation on. */
  function NavigateAndSelect(url: string, ext: Externals): (a: Attempt<Bytes>)
    ensures a.calls <= NavigationCalls(url, ext) && a.state == PageOpen
    ensures ext.goto.Throws? ==> a.calls == [Goto(url, ResolveAll(ext.pageRequests))]
    ensures ext.goto.Returns? ==> a.calls == NavigationCalls(url, ext)
    ensures a.result.Returns? <==> FirstThrown(NavigationErrors(ext)).None?
    ensures a.result.Returns? ==>
      var b := InPageResult(ext.evaluate);
      if b.Some? then a.result.value == b.value else ext.screenshot == Returns(a.result.value)
    ensures a.result.Throws? ==> FirstThrown(NavigationErrors(ext)) == Some(a.result.message)
    ensures Close !in a.calls && Launch !in a.calls
    ensures forall c :: c in a.calls && c.Goto? ==> c == Goto(url, ResolveAll(ext.pageRequests))
    ensures Evaluate in a.calls ==> (TakeScreenshot in a.calls <==> NeedsScreenshot(InPageResult(ext.evaluate)))
  {
    var navigated := [Goto(url, ResolveAll(ext.pageRequests))];
    FirstThrownSpec(NavigationErrors(ext));
    if ext.goto.Throws? then
      Attempt(Throws(ext.goto.message), navigated, PageOpen)
    else
      var buffer := InPageResult(ext.evaluate);
      var extracted := navigated + [Evaluate] + (if NeedsScreenshot(buffer) then [TakeScreenshot] else []);
      match SelectPayload(buffer, ext.screenshot)
      case Failed(m) => Attempt(Throws(m), extracted, PageOpen)
      case Selected(payload, _) => Attempt(Returns(payload), extracted, PageOpen)
  }

  /** Lines 21-90: set up, navigate to `url`, and pick the payload, stopping
      at the first error of setup, `goto` or the screenshot (the evaluation's
      error is swallowed at lines 82-84). The browser is not closed here. */
  function Extract(url: string, ext: Externals): (a: Attempt<Bytes>)
    ensures a.calls <= ExtractCalls(url, ext)
    ensures forall i :: FirstErrorAt(SetupErrors(ext), i) ==> a.calls == SetupCalls[..i]
    ensures FirstThrown(SetupErrors(ext)).None? && ext.goto.Throws? ==>
      a.calls == SetupCalls + [Goto(url, ResolveAll(ext.pageRequests))]
    ensures FirstThrown(SetupErrors(ext)).None? && ext.goto.Returns? ==> a.calls == ExtractCalls(url, ext)
    ensures a.state == Setup(ext).state && a.state != Closed
    ensures a.result.Returns? <==> FirstThrown(ExtractErrors(ext)).None?
    ensures a.result.Returns? ==> a.calls == ExtractCalls(url, ext) && a.state == PageOpen
    ensures a.result.Returns? ==>
      var b := InPageResult(ext.evaluate);
      if b.Some? then a.result.value == b.value else ext.screenshot == Returns(a.result.value)
    ensures a.result.Throws? ==> FirstThrown(ExtractErrors(ext)) == Some(a.result.message)
    ensures Close !in a.calls
    ensures Launch in a.calls <==> ext.executablePath.Returns?
    ensures forall c :: c in a.calls && c.Goto? ==> c == Goto(url, ResolveAll(ext.pageRequests))
    ensures Evaluate in a.calls ==> (TakeScreenshot in a.calls <==> NeedsScreenshot(InPageResult(ext.evaluate)))
  {
    var s := Setup(ext);
    SetupCallKinds(s.calls);
    assert ExtractErrors(ext) == SetupErrors(ext) + NavigationErrors(ext);
    assert ExtractCalls(url, ext) == SetupCalls + NavigationCalls(url, ext);
    if s.result.Throws? then
      FirstThrownOfPrefix(SetupErrors(ext), NavigationErrors(ext));
      Attempt(Throws(s.result.message), s.calls, s.state)
    else
      FirstThrownAfterNone(SetupErrors(ext), NavigationErrors(ext));
      var n := NavigateAndSelect(url, ext);
      Attempt(n.result, s.calls + n.calls, s.state)
  }

  /** Lines 18-108, the try block as written: after extraction the browser is
      closed, and an empty payload is then thrown as "No image data". An error
      that reaches the outer catch before that point skips the close, so the
      browser is closed exactly when no error of setup, `goto`, the screenshot
      or the close itself occurred (the evaluation's error is swallowed at
      lines 82-84 and does not count). */
  function TryBlock(url: string, ext: Externals): (a: Attempt<Bytes>)
    ensures var e := Extract(url, ext); a.calls == if e.result.Returns? then e.calls + [Close] else e.calls
    ensures a.state == Closed <==> FirstThrown(ThrownInOrder(ext)).None?
    ensures FirstThrown(ThrownInOrder(ext)).Some? ==> a.result == Throws(FirstThrown(ThrownInOrder(ext)).value)
    ensures a.state == Closed ==> Extract(url, ext).result.Returns?
    ensures Extract(url, ext).result.Returns? ==> (a.state == Closed <==> ext.close.Returns?)
    ensures a.state != Closed ==> a.state == Extract(url, ext).state
    ensures Extract(url, ext).result.Throws? ==> a == Extract(url, ext)
    ensures a.result.Returns? ==> a.state == Closed && |a.result.value| > 0 && a.result == Extract(url, ext).result
    ensures a.state == Closed && a.result.Throws? ==> a.result.message == NoImageData && Extract(url, ext).result == Returns([])
    ensures a.result.Returns? ==>
      var b := InPageResult(ext.evaluate);
      if b.Some? then a.result.value == b.value else ext.screenshot == Returns(a.result.value)
  {
    var e := Extract(url, ext);
    match e.result
    case Throws(_) =>
      FirstThrownOfPrefix(ExtractErrors(ext), [Thrown(ext.close)]);
      e
    case Returns(payload) =>
      FirstThrownAfterNone(ExtractErrors(ext), [Thrown(ext.close)]);
      var calls := e.calls + [Close];
      if ext.close.Throws? then Attempt(Throws(ext.close.message), calls, e.state)
      else if |payload| == 0 then Attempt(Throws(NoImageData), calls, Closed)
      else Attempt(Returns(payload), calls, Closed)
  }

  /** The try block makes its calls in source order and stops at the first
      error: its calls are a prefix of all the calls, and all of them when the
      browser ends closed. */
  lemma TryBlockCallOrder(url: string, ext: Externals)
    ensures TryBlock(url, ext).calls <= AllCalls(url, ext)
    ensures TryBlock(url, ext).state == Closed ==> TryBlock(url, ext).calls == AllCalls(url, ext)
  {
  }

  /** `browser.close()` is called once when extraction finished without an
      error, and never otherwise. */
  lemma TryBlockClosesAtMostOnce(url: string, ext: Externals)
    ensures multiset(TryBlock(url, ext).calls)[Close] == if Extract(url, ext).result.Returns? then 1 else 0
  {
  }

  /** A browser is launched exactly when the executable path was found. */
  lemma TryBlockLaunches(url: string, ext: Externals)
    ensures Launch in TryBlock(url, ext).calls <==> ext.executablePath.Returns?
  {
  }

  /** Every navigation goes to `url`, and the page's sub-requests are resolved
      by the interception callback, one decision each. */
  lemma TryBlockNavigates(url: string, ext: Externals)
    ensures forall c :: c in TryBlock(url, ext).calls && c.Goto? ==> c == Goto(url, ResolveAll(ext.pageRequests))
  {
  }

  /** Once the page is evaluated, a screenshot is taken exactly when the
      evaluation left no buffer. */
  lemma TryBlockScreenshotOnlyWithoutBuffer(url: string, ext: Externals)
    ensures Evaluate in TryBlock(url, ext).calls ==>
      (TakeScreenshot in TryBlock(url, ext).calls <==> NeedsScreenshot(InPageResult(ext.evaluate)))
  {
  }

  /** The whole handler, lines 8-119. */
  function Handle(query: Option<string>, ext: Externals): (r: Run)
    ensures UrlMissing(query) ==> r == Run(Respond(MissingUrl()), [], Created)
    ensures r.reply.Rejected? <==> !UrlMissing(query) && ext.decode.Throws?
    ensures r.reply.Rejected? ==> r.reply.message == ext.decode.message && r.calls == [] && r.state == Created
    ensures r.reply.Respond? ==> r.reply.response.status in {200, 400, 502}
    ensures r.reply.Respond? && r.reply.response.status == 400 <==> UrlMissing(query)
    ensures r.reply.Respond? && r.reply.response.status == 200 ==>
      r.state == Closed && r.reply.response.body.Raw? &&
      |r.reply.response.body.bytes| > 0 &&
      r.reply.response == ImageResponse(r.reply.response.body.bytes) &&
      var b := InPageResult(ext.evaluate);
      if b.Some? then r.reply.response.body.bytes == b.value else ext.screenshot == Returns(r.reply.response.body.bytes)
    ensures r.reply.Respond? && r.reply.response.status == 502 ==>
      var first := FirstThrown(ThrownInOrder(ext));
      r.reply.response == ProxyFailed(if first.Some? then first.value else NoImageData)
    ensures !UrlMissing(query) && ext.decode.Returns? && FirstThrown(ThrownInOrder(ext)).None? ==>
      Extract(ext.decode.value, ext).result.Returns? &&
      (|Extract(ext.decode.value, ext).result.value| > 0 ==>
        r.reply == Respond(ImageResponse(Extract(ext.decode.value, ext).result.value)))
    ensures r.reply.Respond? && r.reply.response.status == 200 <==>
      !UrlMissing(query) && ext.decode.Returns? && FirstThrown(ThrownInOrder(ext)).None? &&
      Extract(ext.decode.value, ext).result.Returns? && |Extract(ext.decode.value, ext).result.value| > 0
    ensures !UrlMissing(query) && ext.decode.Returns? ==>
      r.calls == TryBlock(ext.decode.value, ext).calls && r.state == TryBlock(ext.decode.value, ext).state
  {
    if UrlMissing(query) then Run(Respond(MissingUrl()), [], Created)
    else match ext.decode
      case Throws(m) => Run(Rejected(m), [], Created)
      case Returns(decodedUrl) =>
        var a := TryBlock(decodedUrl, ext);
        var response := match a.result
          case Returns(payload) => ImageResponse(payload)
          case Throws(m) => ProxyFailed(m);
        Run(Respond(response), a.calls, a.state)
  }

  /** Whenever the empty-payload check of line 94 is reached (extraction
      finished and `browser.close()` returned), the browser has been closed
      exactly once, on the failure path as well as on the success path. */
  lemma ClosedOnceAtPayloadCheck(query: Option<string>, ext: Externals)
    requires !UrlMissing(query) && ext.decode.Returns?
    requires Extract(ext.decode.value, ext).result.Returns? && ext.close.Returns?
    ensures Handle(query, ext).state == Closed
    ensures multiset(Handle(query, ext).calls)[Close] == 1
    ensures Handle(query, ext).calls[|Handle(query, ext).calls| - 1] == Close
  {
  }

  /** No request ever closes the browser twice. */
  lemma ClosedAtMostOnce(query: Option<string>, ext: Externals)
    ensures multiset(Handle(query, ext).calls)[Close] <= 1
  {
  }

  /** A request without `url` launches no browser and makes no call at all;
      one with a `url` that decodes launches a browser unless the executable
      cannot be found. */
  lemma LaunchOnlyWithUrl(query: Option<string>, ext: Externals)
    ensures Launch in Handle(query, ext).calls <==> !UrlMissing(query) && ext.decode.Returns? && ext.executablePath.Returns?
  {
  }

  /** A request is handled with the calls of the try block in source order,
      cut short at the call that throws: a setup error at position `i` leaves
      the first `i` setup calls (position 0 is the executable lookup, which
      makes no call), a navigation error leaves the navigation as the last
      call, a screenshot error the screenshot, and otherwise every call is
      made, the close last. */
  lemma HandleCallOrder(query: Option<string>, ext: Externals)
    requires !UrlMissing(query) && ext.decode.Returns?
    ensures Handle(query, ext).calls <= AllCalls(ext.decode.value, ext)
    ensures forall i :: FirstErrorAt(SetupErrors(ext), i) ==> Handle(query, ext).calls == SetupCalls[..i]
    ensures FirstThrown(SetupErrors(ext)).None? && ext.goto.Throws? ==>
      Handle(query, ext).calls == SetupCalls + [Goto(ext.decode.value, ResolveAll(ext.pageRequests))]
    ensures FirstThrown(SetupErrors(ext)).None? && ext.goto.Returns? && FirstThrown(ExtractErrors(ext)).Some? ==>
      Handle(query, ext).calls == ExtractCalls(ext.decode.value, ext)
    ensures FirstThrown(ExtractErrors(ext)).None? <==> Handle(query, ext).calls == AllCalls(ext.decode.value, ext)
  {
  }

  /** The screenshot is taken only when the page evaluation left no buffer,
      and always then, once the page has been evaluated. */
  lemma ScreenshotOnlyWithoutBuffer(query: Option<string>, ext: Externals)
    ensures Evaluate in Handle(query, ext).calls ==>
      (TakeScreenshot in Handle(query, ext).calls <==> InPageResult(ext.evaluate).None?)
  {
  }

  /** The page navigates to the decoded URL, and every sub-request it issues
      gets the callback's decision, continue exactly for the five listed
      resource types (`ResolveAll`). */
  lemma NavigationResolvesEveryRequest(query: Option<string>, ext: Externals)
    ensures forall c :: c in Handle(query, ext).calls && c.Goto? ==>
      c.url == ext.decode.value && c.resolved == ResolveAll(ext.pageRequests)
  {
    if !UrlMissing(query) && ext.decode.Returns? {
      TryBlockNavigates(ext.decode.value, ext);
    }
  }

  // ---------------------------------------------------------------------
  // Teardown. The close of line 92 is a plain statement of the try block,
  // so an error that reaches the outer catch after the launch skips it (the
  // evaluation's error is swallowed at lines 82-84 and does not).

  /** A navigation timeout ends the request with a 502 and leaves the
      browser and its page open: `browser.close()` is never called. */
  lemma GotoTimeoutLeavesBrowserOpen()
    ensures var ext := Externals(
        decode := Returns("https://example.com/a.jpg"),
        executablePath := Returns("/tmp/chromium"),
        launch := Returns(()), newPage := Returns(()),
        setUserAgent := Returns(()), setExtraHeaders := Returns(()), setInterception := Returns(()),
        pageRequests := ["document"],
        goto := Throws("Navigation timeout of 45000 ms exceeded"),
        evaluate := Returns(None), screenshot := Returns([137, 80, 78, 71]), close := Returns(()));
      var r := Handle(Some("https%3A%2F%2Fexample.com%2Fa.jpg"), ext);
      && r.reply == Respond(ProxyFailed("Navigation timeout of 45000 ms exceeded"))
      && Launch in r.calls && Close !in r.calls && r.state == PageOpen
  {
  }

  /** The try block with the close moved into a `finally`: once a browser
      was launched it is closed whatever happened, and an error of the close
      is reported only when nothing failed before it. */
  function TryBlockWithTeardown(url: string, ext: Externals): (a: Attempt<Bytes>)
    ensures Setup(ext).state == Created ==> a == Extract(url, ext) && a.state == Created
    ensures Setup(ext).state != Created && ext.close.Throws? ==> a.state == Extract(url, ext).state
    ensures Setup(ext).state != Created ==> a.calls == Extract(url, ext).calls + [Close]
    ensures Setup(ext).state != Created ==> (a.state == Closed <==> ext.close.Returns?)
    ensures Extract(url, ext).result.Throws? ==> a.result == Extract(url, ext).result
    ensures Extract(url, ext).result.Returns? ==> a == TryBlock(url, ext)
  {
    var e := Extract(url, ext);
    if e.state == Created then e
    else
      match e.result
      case Throws(m) => Attempt(Throws(m), e.calls + [Close], if ext.close.Returns? then Closed else e.state)
      case Returns(_) => TryBlock(url, ext)
  }

  /** With the close in a `finally`, a launched browser is closed exactly
      once, by the last call of the request. */
  lemma TeardownClosesOnce(url: string, ext: Externals)
    requires Setup(ext).state != Created
    ensures var calls := TryBlockWithTeardown(url, ext).calls;
      |calls| > 0 && calls[|calls| - 1] == Close && multiset(calls)[Close] == 1
  {
    var e := Extract(url, ext);
    var calls := TryBlockWithTeardown(url, ext).calls;
    assert calls == e.calls + [Close];
    assert multiset(e.calls)[Close] == 0 by {
      assert Close !in e.calls;
    }
    assert multiset(calls) == multiset(e.calls) + multiset{Close};
  }

  // ---------------------------------------------------------------------
  // An empty in-page result. `if (!imageBuffer)` on line 86 does not treat
  // an empty Buffer as missing, so the screenshot fallback is skipped.

  /** A page whose first image fetches as zero bytes gets a 502 "No image
      data", although the screenshot would have produced bytes. */
  lemma EmptyInPageResultFails()
    ensures var ext := Externals(
        decode := Returns("https://example.com/a.jpg"),
        executablePath := Returns("/tmp/chromium"),
        launch := Returns(()), newPage := Returns(()),
        setUserAgent := Returns(()), setExtraHeaders := Returns(()), setInterception := Returns(()),
        pageRequests := [],
        goto := Returns(()),
        evaluate := Returns(Some([])), screenshot := Returns([137, 80, 78, 71]), close := Returns(()));
      var r := Handle(Some("https%3A%2F%2Fexample.com%2Fa.jpg"), ext);
      && r.reply == Respond(ProxyFailed(NoImageData))
      && TakeScreenshot !in r.calls
      && IntendedSelectPayload(InPageResult(ext.evaluate), ext.screenshot) == Selected([137, 80, 78, 71], Screenshot)
  {
  }
}
