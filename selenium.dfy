/**
 * A stand-in for the Selenium driver and its web elements, which the recorder wraps but
 * whose code is not part of this model.  Only what the recorder consumes is kept: the
 * current URL, element geometry, element lookup by strategy, and the real operations,
 * each of which is appended to a log so that callers can state which real calls happened.
 * What the browser does on a real click or key press is unknown to the recorder: those
 * operations may change the URL and the page arbitrarily.
 */
module Selenium {
  import opened Wrappers
  import opened Metaprog
  import opened Keys

  /** A web element handle; it doubles as the element's object identity. */
  type ElementId = ObjId

  /** The locator strategies (`By.ID`, `By.XPATH`, ...); their string values are not modelled. */
  datatype By = Id | XPath | LinkText | PartialLinkText | Name | TagName | ClassName | CssSelector

  /** Strategy used when a caller of `find_element`/`find_elements` gives none. */
  const DEFAULT_BY: By := Id

  datatype Locator = Locator(strategy: By, value: string)

  /** Where a lookup searches: the whole document (driver) or below one element. */
  datatype Scope = Document | Within(element: ElementId)

  /** `element.location`, `element.size` */
  datatype Point = Point(x: int, y: int)
  datatype Size = Size(width: int, height: int)
  datatype Box = Box(location: Point, size: Size)

  /** The loaded page as far as the recorder can observe it. */
  datatype Dom = Dom(layout: ElementId -> Box, lookup: (Scope, Locator) -> seq<ElementId>)

  /** A real operation performed on the browser. */
  datatype Call =
    | GetUrl(url: string)
    | FindOne(scope: Scope, locator: Locator)
    | FindAll(scope: Scope, locator: Locator)
    | ClickOn(element: ElementId)
    | TypeInto(element: ElementId, values: seq<KeyValue>)

  class Browser {
    /** The driver's object identity and attribute table (`dir(driver)` with what `getattr` yields). */
    const id: ObjId
    const attrs: Object
    /** The attribute table every WebElement has. */
    const elementAttrs: Object
    /** What loading each URL yields. */
    const site: string -> Dom

    var currentUrl: string
    var dom: Dom
    var log: seq<Call>

    constructor (id: ObjId, attrs: Object, elementAttrs: Object, site: string -> Dom, startUrl: string)
      ensures this.id == id && this.attrs == attrs && this.elementAttrs == elementAttrs && this.site == site
      ensures currentUrl == startUrl && dom == site(startUrl) && log == []
    {
      this.id := id;
      this.attrs := attrs;
      this.elementAttrs := elementAttrs;
      this.site := site;
      currentUrl := startUrl;
      dom := site(startUrl);
      log := [];
    }

    /** `driver.get(url)` */
    method Get(url: string)
      modifies this
      ensures currentUrl == url && dom == site(url)
      ensures log == old(log) + [GetUrl(url)]
    {
      currentUrl := url;
      dom := site(url);
      log := log + [GetUrl(url)];
    }

    /** `find_element`: the first match, or `None` when nothing matches. */
    method FindElement(scope: Scope, locator: Locator) returns (found: Option<ElementId>)
      modifies this`log
      ensures found.None? <==> dom.lookup(scope, locator) == []
      ensures found.Some? ==> found.value == dom.lookup(scope, locator)[0]
      ensures log == old(log) + [FindOne(scope, locator)]
    {
      var all := dom.lookup(scope, locator);
      found := if all == [] then None else Some(all[0]);
      log := log + [FindOne(scope, locator)];
    }

    /** `find_elements`: every match, in document order. */
    method FindElements(scope: Scope, locator: Locator) returns (found: seq<ElementId>)
      modifies this`log
      ensures found == dom.lookup(scope, locator)
      ensures log == old(log) + [FindAll(scope, locator)]
    {
      found := dom.lookup(scope, locator);
      log := log + [FindAll(scope, locator)];
    }

    /** `element.click()`: may navigate and may change the page in any way. */
    method Click(element: ElementId)
      modifies this
      ensures log == old(log) + [ClickOn(element)]
    {
      currentUrl := *;
      dom := *;
      log := log + [ClickOn(element)];
    }

    /** `element.send_keys(*values)`: may submit a form, so may change the page in any way. */
    method SendKeys(element: ElementId, values: seq<KeyValue>)
      modifies this
      ensures log == old(log) + [TypeInto(element, values)]
    {
      currentUrl := *;
      dom := *;
      log := log + [TypeInto(element, values)];
    }
  }
}
