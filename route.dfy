/** The `GET` handler as the route runs it: a browser session whose state
    changes call by call, and a handler method that drives it and reassigns
    its local `imageBuffer`, proved to behave as `ImageProxy.Handle` says. */
module Route {
  import opened Outcomes
  import opened Interception
  import opened Responses
  import opened ImageProxy

  /** The browser and its page for one request: where the session stands,
      the calls made on it so far, and whether request interception is on. */
  class BrowserSession {
    var state: SessionState
    var calls: seq<Call>
    var intercepting: bool

    constructor ()
      ensures state == Created && calls == [] && !intercepting
    {
      state := Created;
      calls := [];
      intercepting := false;
    }

    /** `puppeteer.launch(…)` (line 22). */
    method LaunchBrowser(outcome: Outcome<()>) returns (thrown: Option<string>)
      requires state == Created
      modifies this
      ensures thrown == Thrown(outcome)
      ensures calls == old(calls) + [Launch] && intercepting == old(intercepting)
      ensures state == if outcome.Returns? then Launched else Created
    {
      calls := calls + [Launch];
      thrown := Thrown(outcome);
      if thrown.None? {
        state := Launched;
      }
    }

    /** `browser.newPage()` (line 28). */
    method OpenPage(outcome: Outcome<()>) returns (thrown: Option<string>)
      requires state == Launched
      modifies this
      ensures thrown == Thrown(outcome)
      ensures calls == old(calls) + [NewPage] && intercepting == old(intercepting)
      ensures state == if outcome.Returns? then PageOpen else Launched
    {
      calls := calls + [NewPage];
      thrown := Thrown(outcome);
      if thrown.None? {
        state := PageOpen;
      }
    }

    /** `page.setUserAgent(userAgent)` (lines 31-33). */
    method ApplyUserAgent(userAgent: string, outcome: Outcome<()>) returns (thrown: Option<string>)
      requires state == PageOpen
      modifies this`calls
      ensures thrown == Thrown(outcome)
      ensures calls == old(calls) + [SetUserAgent(userAgent)]
    {
      calls := calls + [SetUserAgent(userAgent)];
      thrown := Thrown(outcome);
    }

    /** `page.setExtraHTTPHeaders(headers)` (lines 34-44). */
    method ApplyExtraHeaders(headers: map<string, string>, outcome: Outcome<()>) returns (thrown: Option<string>)
      requires state == PageOpen
      modifies this`calls
      ensures thrown == Thrown(outcome)
      ensures calls == old(calls) + [SetExtraHeaders(headers)]
    {
      calls := calls + [SetExtraHeaders(headers)];
      thrown := Thrown(outcome);
    }

    /** `page.setRequestInterception(true)` (line 47); from then on every
        sub-request goes to `OnRequest`, registered on line 48. */
    method EnableRequestInterception(outcome: Outcome<()>) returns (thrown: Option<string>)
      requires state == PageOpen
      modifies this`calls, this`intercepting
      ensures thrown == Thrown(outcome)
      ensures calls == old(calls) + [EnableInterception]
      ensures intercepting == (old(intercepting) || outcome.Returns?)
    {
      calls := calls + [EnableInterception];
      thrown := Thrown(outcome);
      if thrown.None? {
        intercepting := true;
      }
    }

    /** `page.goto(url, …)` (lines 62-65): the page issues sub-requests of
        the given resource types, each resolved by the interception callback. */
    method Navigate(url: string, resourceTypes: seq<string>, outcome: Outcome<()>) returns (thrown: Option<string>)
      requires state == PageOpen && intercepting
      modifies this`calls
      ensures thrown == Thrown(outcome)
      ensures calls == old(calls) + [Goto(url, ResolveAll(resourceTypes))]
    {
      var decisions := ResolveAll(resourceTypes);
      calls := calls + [Goto(url, decisions)];
      thrown := Thrown(outcome);
    }

    /** `page.evaluate(…)` (lines 71-78): what the in-page script returned
        or threw. */
    method EvaluateInPage(outcome: Outcome<Option<Bytes>>) returns (evaluated: Outcome<Option<Bytes>>)
      requires state == PageOpen
      modifies this`calls
      ensures evaluated == outcome
      ensures calls == old(calls) + [Evaluate]
    {
      calls := calls + [Evaluate];
      evaluated := outcome;
    }

    /** `page.screenshot({type: "png", fullPage: true})` (line 88). */
    method CaptureScreenshot(outcome: Outcome<Bytes>) returns (png: Outcome<Bytes>)
      requires state == PageOpen
      modifies this`calls
      ensures png == outcome
      ensures calls == old(calls) + [TakeScreenshot]
    {
      calls := calls + [TakeScreenshot];
      png := outcome;
    }

    /** `browser.close()` (line 92). */
    method CloseBrowser(outcome: Outcome<()>) returns (thrown: Option<string>)
      requires state == PageOpen
      modifies this
      ensures thrown == Thrown(outcome)
      ensures calls == old(calls) + [Close] && intercepting == old(intercepting)
      ensures state == if outcome.Returns? then Closed else PageOpen
    {
      calls := calls + [Close];
      thrown := Thrown(outcome);
      if thrown.None? {
        state := Closed;
      }
    }

    /** Lines 21-47 on a fresh session: launch, open a page, configure it
        and turn interception on, stopping at the first setup error. */
    method SetUp(ext: Externals) returns (thrown: Option<string>)
      requires state == Created && calls == [] && !intercepting
      modifies this
      ensures thrown == Thrown(Setup(ext).result)
      ensures calls == Setup(ext).calls && state == Setup(ext).state
      ensures intercepting == Setup(ext).result.Returns?
    {
      if ext.executablePath.Throws? {
        return Some(ext.executablePath.message);
      }
      thrown := LaunchBrowser(ext.launch);
      if thrown.Some? {
        return;
      }
      thrown := OpenPage(ext.newPage);
      if thrown.Some? {
        return;
      }
      thrown := ApplyUserAgent(UserAgent, ext.setUserAgent);
      if thrown.Some? {
        return;
      }
      thrown := ApplyExtraHeaders(ExtraHeaders, ext.setExtraHeaders);
      if thrown.Some? {
        return;
      }
      thrown := EnableRequestInterception(ext.setInterception);
    }

    /** Lines 61-90 on an open page with interception on: navigate, then
        set `imageBuffer` from the in-page result, or else from a screenshot.
        Returns the final `imageBuffer`, or the error of `goto` or the
        screenshot; an error of the evaluation is swallowed, as at lines 82-84. */
    method NavigateAndExtract(url: string, ext: Externals) returns (payload: Outcome<Bytes>)
      requires state == PageOpen && intercepting
      modifies this`calls
      ensures payload == NavigateAndSelect(url, ext).result
      ensures calls == old(calls) + NavigateAndSelect(url, ext).calls
    {
      var thrown := Navigate(url, ext.pageRequests, ext.goto);
      if thrown.Some? {
        return Throws(thrown.value);
      }
      var imageBuffer: Option<Bytes> := None;
      var evaluated := EvaluateInPage(ext.evaluate);
      if evaluated.Returns? && evaluated.value.Some? {
        imageBuffer := Some(evaluated.value.value);
      }
      if imageBuffer.None? {
        var png := CaptureScreenshot(ext.screenshot);
        if png.Throws? {
          return Throws(png.message);
        }
        imageBuffer := Some(png.value);
      }
      return Returns(imageBuffer.value);
    }

    /** `GET` (lines 8-119) on a fresh session. Each error of setup, `goto`,
        the screenshot or the close ends the handler at once with the 502 of
        the outer catch; the evaluation's error is swallowed at lines 82-84. */
    method Get(query: Option<string>, ext: Externals) returns (reply: Reply)
      requires state == Created && calls == [] && !intercepting
      modifies this
      ensures reply == Handle(query, ext).reply
      ensures calls == Handle(query, ext).calls && state == Handle(query, ext).state
      ensures intercepting <==> !UrlMissing(query) && ext.decode.Returns? && Setup(ext).result.Returns?
    {
      if UrlMissing(query) {
        return Respond(MissingUrl());
      }
      if ext.decode.Throws? {
        return Rejected(ext.decode.message);
      }
      var decodedUrl := ext.decode.value;
      var thrown := SetUp(ext);
      if thrown.Some? {
        return Respond(ProxyFailed(thrown.value));
      }
      var payload := NavigateAndExtract(decodedUrl, ext);
      if payload.Throws? {
        return Respond(ProxyFailed(payload.message));
      }
      var imageBuffer := payload.value;
      thrown := CloseBrowser(ext.close);
      if thrown.Some? {
        return Respond(ProxyFailed(thrown.value));
      }
      if |imageBuffer| == 0 {
        return Respond(ProxyFailed(NoImageData));
      }
      return Respond(ImageResponse(imageBuffer));
    }
  }
}
