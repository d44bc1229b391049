/** The `page.on("request", …)` callback of the image-proxy route: once request
    interception is on, every sub-request the page issues is handed to this
    callback, which must either continue it or abort it. */
module Interception {

  /** How one intercepted request is resolved. */
  datatype Decision = Continue | Abort

  /** The array literal the callback tests `resourceType` against, in order. */
  const ListedTypes: seq<string> := ["stylesheet", "font", "image", "media", "script"]

  /** The same five resource types as a set. */
  const ListedSet: set<string> := {"stylesheet", "font", "image", "media", "script"}

  /** `Array.prototype.includes` on strings: a left-to-right scan for `x`. */
  function Includes(xs: seq<string>, x: string): (found: bool)
    ensures found <==> x in xs
  {
    if xs == [] then false
    else if xs[0] == x then true
    else Includes(xs[1..], x)
  }

  /** The callback as written: a listed type is continued, every other type
      (including "document", the navigation request itself) is aborted. */
  function OnRequest(resourceType: string): (d: Decision)
    ensures d == Continue <==> resourceType in ListedSet
    ensures d == Abort <==> resourceType !in ListedSet
  {
    if Includes(ListedTypes, resourceType) then Continue else Abort
  }

  /** The callback applied to the resource types of the requests a page load
      issues, in the order they are intercepted: one decision per request. */
  function ResolveAll(resourceTypes: seq<string>): (ds: seq<Decision>)
    ensures |ds| == |resourceTypes|
    ensures forall i :: 0 <= i < |ds| ==> (ds[i] == Continue <==> resourceTypes[i] in ListedSet)
  {
    if resourceTypes == [] then []
    else [OnRequest(resourceTypes[0])] + ResolveAll(resourceTypes[1..])
  }

  /** The navigation request of `page.goto` has resource type "document" and
      is aborted as written, while images are let through. */
  lemma DocumentRequestAborted()
    ensures OnRequest("document") == Abort
    ensures OnRequest("image") == Continue
  {
  }

  /** The rule the comment "Block unnecessary resources for speed" describes:
      the five listed types are aborted and every other type, the document
      included, is continued. */
  function IntendedOnRequest(resourceType: string): (d: Decision)
    ensures d == Abort <==> resourceType in ListedSet
    ensures resourceType == "document" ==> d == Continue
  {
    if Includes(ListedTypes, resourceType) then Abort else Continue
  }

  /** The rule as written and the intended rule disagree on every resource type. */
  lemma InterceptionInverted(resourceType: string)
    ensures OnRequest(resourceType) != IntendedOnRequest(resourceType)
  {
  }
}
