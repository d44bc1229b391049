/** How the route picks its image bytes after navigation: the in-page fetch
    of the first `<img>` element's source comes first, and a full-page PNG
    screenshot is taken only when that left `imageBuffer` null. */
module Payload {
  import opened Outcomes

  /** Which tier produced the payload. */
  datatype Tier = InPage | Screenshot

  /** The payload, or the message of the error the screenshot threw. */
  datatype Selection = Selected(bytes: Bytes, tier: Tier) | Failed(message: string)

  /** `imageBuffer` after the inner try/catch: a buffer exactly when the page
      evaluation returned one, whatever its length (an empty `Buffer` is still
      truthy); `null` when the evaluation returned null or threw. */
  function InPageResult(evaluated: Outcome<Option<Bytes>>): (buffer: Option<Bytes>)
    ensures buffer.Some? <==> evaluated.Returns? && evaluated.value.Some?
    ensures buffer.Some? ==> buffer.value == evaluated.value.value
  {
    match evaluated
    case Throws(_) => None
    case Returns(result) => result
  }

  /** Whether the screenshot fallback is taken for this in-page result. */
  predicate NeedsScreenshot(buffer: Option<Bytes>) {
    buffer.None?
  }

  /** The two-tier selection as written: a buffer from the page wins, otherwise
      the screenshot's bytes, otherwise the screenshot's error. */
  function SelectPayload(buffer: Option<Bytes>, screenshot: Outcome<Bytes>): (s: Selection)
    ensures buffer.Some? ==> s == Selected(buffer.value, InPage)
    ensures buffer.None? && screenshot.Returns? ==> s == Selected(screenshot.value, Screenshot)
    ensures buffer.None? && screenshot.Throws? ==> s == Failed(screenshot.message)
  {
    if buffer.Some? then Selected(buffer.value, InPage)
    else match screenshot
      case Returns(png) => Selected(png, Screenshot)
      case Throws(m) => Failed(m)
  }

  /** An empty in-page result is kept: no screenshot is taken and the payload
      is empty, even when a screenshot would have produced bytes. */
  lemma EmptyInPageResultSkipsScreenshot()
    ensures !NeedsScreenshot(InPageResult(Returns(Some([]))))
    ensures SelectPayload(InPageResult(Returns(Some([]))), Returns([137, 80, 78, 71])) == Selected([], InPage)
  {
  }

  /** The evidently intended selection: the in-page bytes are used only when
      there are some, and the screenshot is the fallback otherwise. */
  function IntendedSelectPayload(buffer: Option<Bytes>, screenshot: Outcome<Bytes>): (s: Selection)
    ensures s.Selected? && s.tier == InPage <==> buffer.Some? && |buffer.value| > 0
    ensures s.Selected? && s.tier == InPage ==> s.bytes == buffer.value
    ensures s.Selected? && s.tier == Screenshot ==> screenshot == Returns(s.bytes)
    ensures s.Selected? && |s.bytes| == 0 ==> s.tier == Screenshot
    ensures !(buffer.Some? && |buffer.value| > 0) ==> s == SelectPayload(None, screenshot)
  {
    if buffer.Some? && |buffer.value| > 0 then Selected(buffer.value, InPage)
    else match screenshot
      case Returns(png) => Selected(png, Screenshot)
      case Throws(m) => Failed(m)
  }

  /** The two selections agree except on an empty in-page result. */
  lemma IntendedSelectionAgreesOnNonEmpty(buffer: Option<Bytes>, screenshot: Outcome<Bytes>)
    requires buffer.None? || |buffer.value| > 0
    ensures IntendedSelectPayload(buffer, screenshot) == SelectPayload(buffer, screenshot)
  {
  }
}
