# Image proxy route, modelled in Dafny

The repository is an image-retrieval proxy for Next.js. Its one piece of
logic is the `GET` handler of `app/api/image-proxy/route.ts`. Given a `url`
query parameter, the handler does the following:

- it launches a headless Chromium through puppeteer and opens a page;
- it sets a browser-like user agent and extra headers, and turns on request
  interception;
- it navigates to the decoded URL;
- it tries to re-fetch the first `<img>` element's source from inside the
  page, and takes a full-page PNG screenshot only when that gave no buffer;
- it closes the browser and answers 200 with the bytes, or 502 with the
  message of the first error that reaches the outer catch on the way (an
  error of the in-page evaluation is swallowed and only leads to the
  screenshot).

A request without `url` is answered 400 before anything else happens.

This project models that handler as written. Every call into puppeteer,
Chromium or the network is an input to the model: either the value the call
returns or the message of the error it throws (`ImageProxy.Externals`).
`decodeURIComponent` is treated the same way. With those inputs the handler
is a short sequential program whose outputs the model states exactly.

- `outcomes.dfy` (`Outcomes`): bytes, `Option`, and `Outcome<T>` (returned
  value or thrown message).
- `interception.dfy` (`Interception`): the `page.on("request")` callback as
  a total decision over resource-type strings.
- `payload.dfy` (`Payload`): the in-page/screenshot tier selection of
  `imageBuffer`.
- `responses.dfy` (`Responses`): the 400, 502 and 200 responses.
- `proxy.dfy` (`ImageProxy`): the handler as functions of the inputs. It has
  the setup, navigation and extraction stages, the try block, the whole
  handler (`Handle`), and the trace of browser calls and the session state
  each run leaves. The lemmas about them are here too.
- `route.dfy` (`Route`): a `BrowserSession` class with fields `state`
  (Created, Launched, PageOpen, Closed), `calls` and `intercepting`. It has
  one method per library call and the imperative `Get`. `Get` reassigns
  `imageBuffer` and is proved to produce exactly `ImageProxy.Handle`'s reply,
  trace and state.

The route's own comments state three intentions. Line 46 says the
interception callback blocks unnecessary resources for speed. Line 67 says
the image comes from a direct buffer, with the screenshot as the fallback.
Line 87 says the screenshot is that fallback. This model follows the code
where the code differs from them. The filter continues the five listed
resource types and aborts the rest. An empty in-page buffer does not trigger
the fallback. The browser is closed only on the path that reaches line 92.
Each of these is a finding below.

## Model

| member | source | states |
|---|---|---|
| Interception.Includes | app/api/image-proxy/route.ts:51-53 | the left-to-right scan finds the resource type exactly when it is an element of the array literal |
| Interception.OnRequest | app/api/image-proxy/route.ts:48-59 | a request is continued if and only if its resource type is stylesheet, font, image, media or script, and aborted if and only if it is not; each request gets exactly one of the two decisions |
| Interception.ResolveAll | app/api/image-proxy/route.ts:47-59 | once interception is on, every intercepted request gets one decision, in order, and each is continue exactly for the five listed types |
| Interception.DocumentRequestAborted | app/api/image-proxy/route.ts:50-58 | the navigation's own "document" request is aborted and an "image" request is continued |
| Interception.IntendedOnRequest | app/api/image-proxy/route.ts:46-58 | corrected rule: the five listed types are aborted and every other type, the document included, is continued |
| Interception.InterceptionInverted | app/api/image-proxy/route.ts:50-58 | the rule as written and the corrected rule disagree on every resource type |
| Payload.InPageResult | app/api/image-proxy/route.ts:68-84 | `imageBuffer` holds a buffer exactly when the evaluation returned one, even an empty one; an evaluation that throws or returns null leaves it null |
| Payload.SelectPayload | app/api/image-proxy/route.ts:68-90 | a buffer from the page is the payload and wins over the screenshot; without one the payload is the screenshot's bytes, and a screenshot error is what is thrown |
| Payload.EmptyInPageResultSkipsScreenshot | app/api/image-proxy/route.ts:79-90 | an empty in-page result does not trigger the screenshot and becomes an empty payload |
| Payload.IntendedSelectPayload | app/api/image-proxy/route.ts:67-90 | corrected selection: the in-page bytes are used if and only if there are some, and an empty payload can only come from the screenshot; without in-page bytes the result is exactly that of the code as written with no buffer, the screenshot's bytes or its error |
| Payload.IntendedSelectionAgreesOnNonEmpty | app/api/image-proxy/route.ts:86-90 | the corrected and the as-written selection agree whenever the in-page result is null or non-empty |
| Responses.MissingUrl | app/api/image-proxy/route.ts:12-14 | status 400 with body `{error: "Missing url"}` |
| Responses.ProxyFailed | app/api/image-proxy/route.ts:109-117 | status 502 with body `{error: "Proxy failed", details: message}` |
| Responses.ImageResponse | app/api/image-proxy/route.ts:99-108 | status 200, body equal to the payload bytes, and exactly the four headers Content-Type image/png, Cache-Control public, max-age=86400, immutable, Access-Control-Allow-Origin *, Vary url |
| ImageProxy.Setup | app/api/image-proxy/route.ts:21-47 | the setup calls are made in order and end with the first that throws (none when the executable lookup throws), and that error is the one reported; without an error all five are made, the user agent and the extra headers with their fixed values; the session is Created if the launch never succeeded, Launched if only `newPage` failed, PageOpen otherwise, never Closed |
| ImageProxy.NavigateAndSelect | app/api/image-proxy/route.ts:61-90 | navigation goes to the given URL with every sub-request resolved by the callback; a `goto` that throws is the last call, and after a `goto` that returns the evaluation and, when needed, the screenshot are all made; the payload is the in-page buffer if there is one, else the screenshot; the screenshot is taken if and only if there is no buffer; the first error of goto or screenshot is the one reported; the browser is not closed |
| ImageProxy.Extract | app/api/image-proxy/route.ts:21-90 | lines 21-90 stop at the first error of setup, `goto` or the screenshot, in call order, and report it (the evaluation's error is swallowed at lines 82-84 and stops nothing): a setup error leaves exactly the setup calls before it, a `goto` error leaves the setup calls and the navigation; without an error they make all their calls and yield the in-page or screenshot bytes; they never close the browser |
| ImageProxy.TryBlock | app/api/image-proxy/route.ts:18-108 | the browser ends Closed if and only if no error reached the outer catch (the evaluation's error is swallowed at lines 82-84 and does not count); the first error that reaches it becomes the result with its message, and the browser is then left exactly as extraction left it (Created, Launched or PageOpen, never closed); a successful result is a non-empty extraction payload; an empty payload becomes "No image data" after the close; once extraction succeeded, the browser ends Closed exactly when `browser.close()` returns |
| ImageProxy.TryBlockCallOrder | app/api/image-proxy/route.ts:18-96 | the calls of the try block are a prefix of all its calls in source order, and are all of them when the browser ends closed |
| ImageProxy.TryBlockClosesAtMostOnce | app/api/image-proxy/route.ts:92 | `browser.close()` is called once when extraction finished without an error and never otherwise |
| ImageProxy.TryBlockLaunches | app/api/image-proxy/route.ts:22-26 | a browser is launched if and only if the executable path was found |
| ImageProxy.TryBlockNavigates | app/api/image-proxy/route.ts:47-65 | every navigation goes to the decoded URL and carries the callback's decisions for the page's sub-requests |
| ImageProxy.TryBlockScreenshotOnlyWithoutBuffer | app/api/image-proxy/route.ts:68-90 | once the page is evaluated, a screenshot is taken if and only if the evaluation left no buffer |
| ImageProxy.Handle | app/api/image-proxy/route.ts:8-119 | a missing or empty `url` gives 400 and makes no call; a decode error escapes the handler; every response is 200, 400 or 502; a 200 carries exactly the in-page buffer or else the screenshot bytes, is non-empty, has the fixed headers and follows a closed browser; a 502's details are the message of the first error that reaches the outer catch (the evaluation's error never does), or "No image data"; a 200 is given if and only if the `url` is present and decodes, no error reaches the outer catch and the extracted payload is non-empty, and it then carries that payload |
| ImageProxy.ClosedOnceAtPayloadCheck | app/api/image-proxy/route.ts:92-96 | whenever the empty-payload check is reached, the browser is Closed, was closed exactly once, and the close was the last call |
| ImageProxy.ClosedAtMostOnce | app/api/image-proxy/route.ts:92 | no request closes the browser twice |
| ImageProxy.LaunchOnlyWithUrl | app/api/image-proxy/route.ts:10-26 | a browser is launched if and only if `url` is present and non-empty, it decodes, and the executable is found |
| ImageProxy.HandleCallOrder | app/api/image-proxy/route.ts:18-96 | a request's calls are the try block's calls in source order, cut short at the first call whose error reaches the outer catch (a throwing evaluation does not cut it): a setup error leaves the setup calls before it, a `goto` error ends with the navigation, a screenshot error with the screenshot; all calls, the close last, are made exactly when no call before the close threw an error that reaches the outer catch (a throwing evaluation does not stop the run) |
| ImageProxy.ScreenshotOnlyWithoutBuffer | app/api/image-proxy/route.ts:68-90 | after the page is evaluated, the screenshot is taken if and only if there is no in-page buffer |
| ImageProxy.NavigationResolvesEveryRequest | app/api/image-proxy/route.ts:47-65 | the page navigates to the decoded URL, and each of its sub-requests is continued if and only if its type is one of the five listed |
| ImageProxy.GotoTimeoutLeavesBrowserOpen | app/api/image-proxy/route.ts:62-117 | a `goto` timeout gives a 502 with the timeout message, after a launch, with no close and the page left open |
| ImageProxy.TryBlockWithTeardown | app/api/image-proxy/route.ts:22-96 | corrected try block: without a launched browser it is exactly lines 21-90's attempt; once a browser was launched, its calls are those of lines 21-90 followed by one close; it ends Closed exactly when the close succeeds, and after a failed close it stays where extraction left it; an earlier error is never masked; where extraction succeeded it agrees with the code as written |
| ImageProxy.TeardownClosesOnce | app/api/image-proxy/route.ts:92 | with the close in a `finally`, a launched browser is closed exactly once, by the last call of the request |
| ImageProxy.EmptyInPageResultFails | app/api/image-proxy/route.ts:79-96 | a zero-byte in-page result gives a 502 "No image data" with no screenshot, where the corrected selection would use the screenshot |
| Route.BrowserSession.LaunchBrowser | app/api/image-proxy/route.ts:22-26 | records the launch and moves Created to Launched unless the launch throws |
| Route.BrowserSession.OpenPage | app/api/image-proxy/route.ts:28 | records `newPage` and moves Launched to PageOpen unless it throws |
| Route.BrowserSession.ApplyUserAgent | app/api/image-proxy/route.ts:31-33 | records `setUserAgent` with the user agent it is given on the open page and reports its error |
| Route.BrowserSession.ApplyExtraHeaders | app/api/image-proxy/route.ts:34-44 | records `setExtraHTTPHeaders` with the headers it is given on the open page and reports its error |
| Route.BrowserSession.EnableRequestInterception | app/api/image-proxy/route.ts:47-59 | records `setRequestInterception(true)` and turns interception on unless it throws |
| Route.BrowserSession.Navigate | app/api/image-proxy/route.ts:62-65 | allowed only with interception on; records the navigation to the URL with the callback's decision for each sub-request |
| Route.BrowserSession.EvaluateInPage | app/api/image-proxy/route.ts:71-78 | records the evaluation and hands back its outcome |
| Route.BrowserSession.CaptureScreenshot | app/api/image-proxy/route.ts:88 | records the screenshot and hands back its outcome |
| Route.BrowserSession.CloseBrowser | app/api/image-proxy/route.ts:92 | records the close and moves PageOpen to Closed unless it throws |
| Route.BrowserSession.SetUp | app/api/image-proxy/route.ts:21-47 | the session's calls, state and interception flag afterwards are those `ImageProxy.Setup` gives |
| Route.BrowserSession.NavigateAndExtract | app/api/image-proxy/route.ts:61-90 | reassigns `imageBuffer` from the in-page result and otherwise from the screenshot; the outcome and calls are those of `ImageProxy.NavigateAndSelect` |
| Route.BrowserSession.Get | app/api/image-proxy/route.ts:8-119 | on a fresh session, the reply, the recorded calls and the final state are exactly those of `ImageProxy.Handle`; interception is on if and only if setup completed |

## Left out

- Puppeteer and Chromium internals are not modelled. This covers process launch, the `networkidle0` wait, the 45000 ms navigation timeout, the in-page `fetch`, screenshot rendering and how `page.evaluate` serializes its result. Each call is an input that returns or throws.
- The link between the filter and `goto` is not modelled. Aborting the navigation's own "document" request would make a real `goto` fail, but here `goto`'s outcome is an independent input. The sub-requests a page issues are given as a list, not as events interleaved with the navigation. The same holds for the in-page `fetch(img.src)` at line 74: the callback sees it with resource type "fetch", which the rule as written aborts, so as written the in-page tier cannot produce bytes. Here `evaluate`'s outcome is an input independent of the filter.
- `decodeURIComponent` is an input. Its error happens outside the try block, so it is modelled as a rejection that escapes the handler (`Reply.Rejected`), not as a 502. What the framework then sends is not modelled.
- `new URL(req.url)` at line 9 is not modelled; the framework always supplies an absolute URL. `searchParams.get("url")` is the `Option<string>` query input.
- `Buffer.from`, `ArrayBuffer` and `Uint8Array` conversions (lines 80, 89, 99) are the identity on byte sequences.
- The user-agent string and the extra headers (lines 31-44) are recorded in the trace with their values. What the browser then sends with them is not modelled.
- Headers that `NextResponse.json` adds on its own are not modelled. The JSON responses carry only the headers the route sets, which is none.
- An error value without a string `message` is not modelled; every thrown error carries a message.
- `console.log` and `console.error` (lines 19, 110) are I/O.
- Concurrency is not modelled. One request's awaits run in sequence, so the handler is straight-line code.
- `app/page.tsx` (a demo page) and `next.config.ts` (framework configuration) are not part of this model.

## Findings

| source | as written | input that shows it | evidently intended | confidence | as-written member | corrected member |
|---|---|---|---|---|---|---|
| app/api/image-proxy/route.ts:50-58 | the callback continues stylesheet, font, image, media and script and aborts every other type, including the navigation's own document request | a sub-request of type "document" is aborted, one of type "image" is continued | abort the five listed types and continue the rest, as the comment "Block unnecessary resources for speed" on line 46 says | high; not executed | Interception.DocumentRequestAborted | Interception.IntendedOnRequest |
| app/api/image-proxy/route.ts:92 | `browser.close()` is a plain statement inside the try block, so any error that reaches the outer catch after the launch skips it and the browser stays open (the evaluation's error is swallowed and does not) | `goto` throws "Navigation timeout of 45000 ms exceeded": the reply is 502 and no close is made | close the browser in a `finally` once it was launched, without masking an earlier error | high; not executed | ImageProxy.GotoTimeoutLeavesBrowserOpen | ImageProxy.TryBlockWithTeardown |
| app/api/image-proxy/route.ts:86 | `!imageBuffer` is false for an empty Buffer, so a zero-byte in-page result skips the screenshot and the request fails | the page evaluation returns zero bytes while a screenshot would return bytes: the reply is 502 "No image data"; as written the in-page `fetch` is itself aborted by the inverted filter, so this input arises only once the filter is corrected | fall back to the screenshot when the in-page result is empty | medium; not executed | ImageProxy.EmptyInPageResultFails | Payload.IntendedSelectPayload |

`ImageProxy.Handle` and `Route.BrowserSession.Get` model the code as
written. The corrected members sit beside them and state the intended
behaviour.
