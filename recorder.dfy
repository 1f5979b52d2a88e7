/**
 * The classes of webdriver_recorder.py: the trace accumulator `Recorder` and the two proxies
 * `RecordingWebDriver` and `RecordingWebElement`, which forward the Selenium surface and
 * notify the recorder of navigations, clicks and key presses.
 */
module WebdriverRecorder {
  import opened Wrappers
  import opened Metaprog
  import opened Keys
  import opened Selenium
  import opened Trace
  import opened TraceJson

  // ---------------------------------------------------------------------------------------
  // The names each proxy treats specially

  /** `RecordingWebElement._METHODS_TO_REPLACE` */
  const ELEMENT_METHODS_TO_REPLACE: seq<Metaprog.Name> := ["find_element", "find_elements"]

  /** `RecordingWebElement._READONLY_PROPERTIES` */
  const ELEMENT_READONLY_PROPERTIES: seq<Metaprog.Name> :=
    ["tag_name", "text", "location_once_scrolled_into_view", "size", "location", "parent", "id",
     "rect", "screenshot_as_base64", "screenshot_as_png"]

  /** `RecordingWebDriver._READONLY_PROPERTIES` (two names are listed twice) */
  const DRIVER_READONLY_PROPERTIES: seq<Metaprog.Name> :=
    ["application_cache", "current_url", "current_window_handle", "desired_capabilities", "log_types",
     "name", "page_source", "title", "window_handles", "switch_to", "mobile", "application_cache",
     "log_types"]

  /** `RecordingWebDriver._SETTABLE_PROPERTIES` */
  const DRIVER_SETTABLE_PROPERTIES: seq<Metaprog.Name> := ["orientation", "file_detector"]

  /** The public methods class RecordingWebElement defines. */
  const ELEMENT_OWN_METHODS: seq<Metaprog.Name> := ELEMENT_METHODS_TO_REPLACE + ["click", "send_keys"]

  /** The public methods class RecordingWebDriver defines. */
  const DRIVER_OWN_METHODS: seq<Metaprog.Name> :=
    ["get", "find_element", "find_elements",
     "find_element_by_id", "find_elements_by_id", "find_element_by_xpath", "find_elements_by_xpath",
     "find_element_by_link_text", "find_elements_by_link_text",
     "find_element_by_partial_link_text", "find_elements_by_partial_link_text",
     "find_element_by_name", "find_elements_by_name", "find_element_by_tag_name",
     "find_elements_by_tag_name", "find_element_by_class_name", "find_elements_by_class_name",
     "find_element_by_css_selector", "find_elements_by_css_selector"]

  /** The public attributes of a new RecordingWebElement when create_proxy_interface runs. */
  function ElementOwnAttrs(element: ElementId): Object
  {
    (map n | n in ELEMENT_OWN_METHODS :: Native(n))["element" := Ref(element)]
  }

  /** The public attributes of a new RecordingWebDriver when create_proxy_interface runs. */
  function DriverOwnAttrs(driver: ObjId): Object
  {
    (map n | n in DRIVER_OWN_METHODS :: Native(n))["driver" := Ref(driver)]
  }

  /** The element proxy's attribute table after `create_proxy_interface(self, element, _READONLY_PROPERTIES)`. */
  function ElementSurface(elementAttrs: Object, element: ElementId): Object
  {
    ProxyInterface(ElementOwnAttrs(element), elementAttrs, element, Some(ELEMENT_READONLY_PROPERTIES), false)
  }

  /** The driver proxy's attribute table after create_proxy_interface with both property lists ignored. */
  function DriverSurface(driverAttrs: Object, driver: ObjId): Object
  {
    ProxyInterface(DriverOwnAttrs(driver), driverAttrs, driver,
                   Some(DRIVER_READONLY_PROPERTIES + DRIVER_SETTABLE_PROPERTIES), false)
  }

  /** The properties installed on class RecordingWebElement: read-only, forwarded to `element`. */
  function ElementProperties(): map<Metaprog.Name, ProxyProperty>
  {
    map n | n in ELEMENT_READONLY_PROPERTIES :: CreateProxyProperty(n, "element", false)
  }

  /** The properties installed on class RecordingWebDriver, forwarded to `driver`. */
  function DriverProperties(): map<Metaprog.Name, ProxyProperty>
  {
    (map n | n in DRIVER_READONLY_PROPERTIES :: CreateProxyProperty(n, "driver", false))
    + (map n | n in DRIVER_SETTABLE_PROPERTIES :: CreateProxyProperty(n, "driver", true))
  }

  /**
   * The driver proxy's surface: its own methods and `driver` stay as the class defines them,
   * the property names are never copied, and every other public callable attribute of the
   * real driver is forwarded to it under the same name.
   */
  lemma DriverSurfaceShape(driverAttrs: Object, driver: ObjId, name: Metaprog.Name)
    ensures var s := DriverSurface(driverAttrs, driver);
            && (name in DRIVER_OWN_METHODS ==> name in s && s[name] == Native(name))
            && "driver" in s && s["driver"] == Ref(driver)
            && (name in DRIVER_READONLY_PROPERTIES || name in DRIVER_SETTABLE_PROPERTIES ==> name !in s)
            && (name !in DRIVER_OWN_METHODS && name != "driver" ==>
                  (name in s <==> name in driverAttrs && IsPublic(name) && Callable(driverAttrs[name])
                                  && name !in DRIVER_READONLY_PROPERTIES && name !in DRIVER_SETTABLE_PROPERTIES)
                  && (name in s ==> s[name] == Forwarder(driver, name)))
  {
    var ignore := DRIVER_READONLY_PROPERTIES + DRIVER_SETTABLE_PROPERTIES;
    var own := DriverOwnAttrs(driver);
    assert name in own <==> name in DRIVER_OWN_METHODS || name == "driver";
    if name in ignore {
      DriverPropertyIsNotOwn(name);
    }
    ForwardedExactly(own, driverAttrs, driver, Some(ignore), false, name);
    ExistingKeptWithoutOverride(own, driverAttrs, driver, Some(ignore), "driver");
  }

  /**
   * Proof step for DriverPropertyIsNotOwn: the driver proxy's own methods are `get` and the
   * `find_...` family, told apart from the property names by their first and third letters.
   */
  lemma DriverOwnMethodNames(name: Metaprog.Name)
    requires name in DRIVER_OWN_METHODS
    ensures |name| >= 3 && (name[0] == 'g' || (name[0] == 'f' && name[2] == 'n'))
  {
  }

  /** Proof step for DriverPropertyIsNotOwn: no property name starts like `get`, `find_` or `driver`. */
  lemma DriverPropertyNames(name: Metaprog.Name)
    requires name in DRIVER_READONLY_PROPERTIES + DRIVER_SETTABLE_PROPERTIES
    ensures |name| >= 3 && name[0] != 'g' && (name[0] == 'f' ==> name[2] == 'l') && (name[0] == 'd' ==> name[1] == 'e')
  {
  }

  /** No property name of the driver proxy is one of its own attributes. */
  lemma DriverPropertyIsNotOwn(name: Metaprog.Name)
    requires name in DRIVER_READONLY_PROPERTIES + DRIVER_SETTABLE_PROPERTIES
    ensures name !in DRIVER_OWN_METHODS && name != "driver"
  {
    DriverPropertyNames(name);
    if name in DRIVER_OWN_METHODS {
      DriverOwnMethodNames(name);
      assert false;
    }
  }

  /**
   * The element proxy's surface: find_element, find_elements, click, send_keys and `element`
   * stay the proxy's own (so the real element's click is never reached directly), the
   * read-only property names are never copied, and every other public callable attribute
   * of the real element is forwarded to it.
   */
  lemma ElementSurfaceShape(elementAttrs: Object, element: ElementId, name: Metaprog.Name)
    ensures var s := ElementSurface(elementAttrs, element);
            && (name in ELEMENT_OWN_METHODS ==> name in s && s[name] == Native(name))
            && "element" in s && s["element"] == Ref(element)
            && (name in ELEMENT_READONLY_PROPERTIES ==> name !in s)
            && (name !in ELEMENT_OWN_METHODS && name != "element" ==>
                  (name in s <==> name in elementAttrs && IsPublic(name) && Callable(elementAttrs[name])
                                  && name !in ELEMENT_READONLY_PROPERTIES)
                  && (name in s ==> s[name] == Forwarder(element, name)))
  {
    var own := ElementOwnAttrs(element);
    var ignore := Some(ELEMENT_READONLY_PROPERTIES);
    ExistingKeptWithoutOverride(own, elementAttrs, element, ignore, "element");
    if name in ELEMENT_OWN_METHODS {
      ExistingKeptWithoutOverride(own, elementAttrs, element, ignore, name);
    } else if name in ELEMENT_READONLY_PROPERTIES {
      ElementPropertyIsNotOwn(name);
      PrivateAndIgnoredUntouched(own, elementAttrs, element, ignore, false, name);
    } else {
      ForwardedExactly(own, elementAttrs, element, ignore, false, name);
    }
  }

  /**
   * Proof step for ElementPropertyIsNotOwn: the element proxy's own attributes start with
   * `f`, `c`, `e` or `se`.
   */
  lemma ElementOwnNames(name: Metaprog.Name)
    requires name in ELEMENT_OWN_METHODS || name == "element"
    ensures |name| >= 2 && (name[0] in "fce" || (name[0] == 's' && name[1] == 'e'))
  {
  }

  /** Proof step for ElementPropertyIsNotOwn: no read-only property name starts like that. */
  lemma ElementPropertyNames(name: Metaprog.Name)
    requires name in ELEMENT_READONLY_PROPERTIES
    ensures |name| >= 2 && name[0] !in "fce" && (name[0] == 's' ==> name[1] != 'e')
  {
  }

  /** No read-only property name of the element proxy is one of its own attributes. */
  lemma ElementPropertyIsNotOwn(name: Metaprog.Name)
    requires name in ELEMENT_READONLY_PROPERTIES
    ensures name !in ELEMENT_OWN_METHODS && name != "element"
  {
    ElementPropertyNames(name);
    if name in ELEMENT_OWN_METHODS || name == "element" {
      ElementOwnNames(name);
      assert false;
    }
  }

  /**
   * Calling a forwarded name on the driver proxy does what calling it on the real driver
   * does, with the same arguments.
   */
  lemma DriverSurfaceForwardsCalls(heap: Heap, proxy: ObjId, driver: ObjId, name: Metaprog.Name,
                                   args: seq<Value>, kwargs: map<Name, Value>, natives: Natives,
                                   depth: nat)
    requires proxy in heap && driver in heap && proxy != driver
    requires heap[proxy] == DriverOwnAttrs(driver)
    requires name !in DRIVER_OWN_METHODS && name != "driver" && IsPublic(name)
    requires name !in DRIVER_READONLY_PROPERTIES && name !in DRIVER_SETTABLE_PROPERTIES
    requires name in heap[driver] && heap[driver][name].Native?
    ensures var proxied := heap[proxy := DriverSurface(heap[driver], driver)];
            Metaprog.Call(proxied, proxy, name, args, kwargs, natives, depth + 1)
            == Metaprog.Call(heap, driver, name, args, kwargs, natives, depth)
  {
    var ignore := DRIVER_READONLY_PROPERTIES + DRIVER_SETTABLE_PROPERTIES;
    assert name !in DriverOwnAttrs(driver);
    SurfaceEquivalence(heap, proxy, driver, Some(ignore), false, name, args, kwargs, natives, depth);
  }

  /**
   * The class-level properties of the driver proxy: exactly the read-only and settable
   * names, each forwarding to `driver`, with a setter exactly for the settable ones.
   */
  lemma DriverPropertiesShape(name: Metaprog.Name)
    ensures name in DriverProperties() <==> name in DRIVER_READONLY_PROPERTIES || name in DRIVER_SETTABLE_PROPERTIES
    ensures name in DriverProperties() ==>
              DriverProperties()[name] == ProxyProperty(name, "driver", name in DRIVER_SETTABLE_PROPERTIES)
  {
  }

  /** The class-level properties of the element proxy: the read-only names, forwarding to `element`. */
  lemma ElementPropertiesShape(name: Metaprog.Name)
    ensures name in ElementProperties() <==> name in ELEMENT_READONLY_PROPERTIES
    ensures name in ElementProperties() ==> ElementProperties()[name] == ProxyProperty(name, "element", false)
  {
  }

  /**
   * Through the driver proxy, assigning `orientation` is forwarded as
   * `setattr(driver, 'orientation', val)`: only the driver's attribute changes.  On a driver
   * that holds `orientation` as a plain attribute, reading it back yields the assigned
   * value.  Assigning a read-only property such as `title` raises AttributeError.
   */
  lemma {:induction false} DriverPropertyAssignment(heap: Heap, proxy: ObjId, val: Value)
    requires proxy in heap && "driver" in heap[proxy] && heap[proxy]["driver"].Ref?
    requires heap[proxy]["driver"].target in heap
    ensures "orientation" in DriverProperties() && "title" in DriverProperties()
    ensures var orientation := DriverProperties()["orientation"];
            var driver := heap[proxy]["driver"].target;
            && PropertySet(orientation, heap, proxy, val)
               == Ok(heap[driver := heap[driver]["orientation" := val]])
    ensures var orientation := DriverProperties()["orientation"];
            && PropertySet(orientation, heap, proxy, val).Ok?
            && PropertyGet(orientation, PropertySet(orientation, heap, proxy, val).value, proxy) == Ok(val)
    ensures PropertySet(DriverProperties()["title"], heap, proxy, val) == Raised(AttributeError)
  {
    DriverPropertiesShape("orientation");
    DriverPropertiesShape("title");
    SetThenGet(DriverProperties()["orientation"], heap, proxy, val);
  }

  // ---------------------------------------------------------------------------------------
  // What the two lookup operations promise

  /**
   * A single-element lookup through a proxy: one real lookup, and either nothing (when the
   * real lookup found nothing) or a fresh proxy around the element it found.
   */
  twostate predicate LookedUpOne(browser: Browser, scope: Scope, locator: Locator, recorder: Recorder,
                                 proxy: RecordingWebDriver, new found: Option<RecordingWebElement>)
    reads browser
  {
    && browser.log == old(browser.log) + [FindOne(scope, locator)]
    && (found.None? <==> old(browser.dom).lookup(scope, locator) == [])
    && (found.Some? ==> && fresh(found.value)
                        && found.value.Wraps(old(browser.dom).lookup(scope, locator)[0], recorder, proxy))
  }

  /**
   * A many-element lookup through a proxy: one real lookup, and a list of the same length
   * and order whose every item is a fresh proxy around the element at that position.
   */
  twostate predicate LookedUpAll(browser: Browser, scope: Scope, locator: Locator, recorder: Recorder,
                                 proxy: RecordingWebDriver, new found: seq<RecordingWebElement>)
    reads browser
  {
    && browser.log == old(browser.log) + [FindAll(scope, locator)]
    && |found| == |old(browser.dom).lookup(scope, locator)|
    && forall k :: 0 <= k < |found| ==>
         fresh(found[k]) && found[k].Wraps(old(browser.dom).lookup(scope, locator)[k], recorder, proxy)
  }

  // ---------------------------------------------------------------------------------------
  // Recorder

  class Recorder {
    /** Whether `start` has run; before it the fields below do not exist in the Python object. */
    var started: bool
    /**
     * The entries of `_pages` that can no longer change: those appended by a navigation, and
     * those `close` appended before a later navigation rebound `_current_page`.
     */
    var finalized: seq<Page>
    /** `_current_page` */
    var currentPage: Page
    /**
     * How many entries `close` has appended since the last navigation.  Each is the
     * `_current_page` dict itself, not a copy, so each reads as `currentPage`.
     */
    var aliases: nat

    /** The fields as a `Session` value. */
    function State(): Session
      reads this
    {
      Session(finalized, currentPage, aliases)
    }

    /** `_pages` as it reads now: the finalized records, then `aliases` references to the open page. */
    function Pages(): (pages: seq<Page>)
      reads this
      ensures |pages| == |finalized| + aliases
      ensures pages[..|finalized|] == finalized
      ensures forall i :: |finalized| <= i < |pages| ==> pages[i] == currentPage
    {
      Trace.Pages(State())
    }

    constructor ()
      ensures !started
    {
      started := false;
      finalized := [];
      currentPage := NoPage;
      aliases := 0;
    }

    /** `start(driver)`: empty trace, no page open, and a proxy for the driver. */
    method Start(driver: Browser) returns (proxy: RecordingWebDriver)
      modifies this
      ensures started && Pages() == [] && currentPage == NoPage
      ensures State() == STARTED
      ensures fresh(proxy) && proxy.recorder == this && proxy.driver == driver
      ensures proxy.surface == DriverSurface(driver.attrs, driver.id)
    {
      finalized := [];
      currentPage := NoPage;
      aliases := 0;
      started := true;
      proxy := new RecordingWebDriver(this, driver);
    }

    /**
     * `close()`: append the open page itself (the empty `{}` if none was opened); it stays
     * open, and the new entry is one more reference to it.
     */
    method Close()
      requires started
      modifies this`aliases
      ensures Pages() == old(Pages()) + [currentPage] && aliases == old(aliases) + 1
      ensures State() == Trace.Close(old(State()))
    {
      aliases := aliases + 1;
    }

    /**
     * `on_navigate_to_url(url)`: append the open page, if any, and open a new empty one for
     * `url`; every entry of `_pages` is now finalized.
     */
    method OnNavigateToUrl(url: string)
      requires started
      modifies this`finalized, this`currentPage, this`aliases
      ensures Pages() == if old(currentPage).Visited? then old(Pages()) + [old(currentPage)] else old(Pages())
      ensures currentPage == Visited(url, []) && aliases == 0
      ensures State() == Navigate(old(State()), url)
    {
      if currentPage.Visited? {
        finalized := Pages() + [currentPage];
      } else {
        finalized := Pages();
      }
      currentPage := Visited(url, []);
      aliases := 0;
    }

    /**
     * `_add_event`: append `event` to the open page's events.  The caller has already given
     * the event the element's location.  With no page open Python raises KeyError.  The dict
     * is updated in place, so the entries of `_pages` that reference it change with it.
     */
    method AddEvent(event: Event)
      requires started && currentPage.Visited?
      modifies this`currentPage
      ensures currentPage == Visited(old(currentPage).url, old(currentPage).recordedEvents + [event])
      ensures |Pages()| == old(|Pages()|)
      ensures forall i :: 0 <= i < |Pages()| ==> Pages()[i] == if i < |finalized| then old(Pages()[i]) else currentPage
      ensures State() == Record(old(State()), event)
    {
      currentPage := Visited(currentPage.url, currentPage.recordedEvents + [event]);
    }

    /** `on_click(element)`: record a click at the element's centre on the open page. */
    method OnClick(element: RecordingWebElement)
      requires started && currentPage.Visited?
      modifies this`currentPage
      ensures currentPage == Visited(old(currentPage).url, old(currentPage).recordedEvents + [Trace.Click(element.Center())])
      ensures State() == Record(old(State()), Trace.Click(element.Center()))
    {
      AddEvent(Trace.Click(element.Center()));
    }

    /** `on_send_keys(element, text)`: record the typed text at the element's centre on the open page. */
    method OnSendKeys(element: RecordingWebElement, text: string)
      requires started && currentPage.Visited?
      modifies this`currentPage
      ensures currentPage
              == Visited(old(currentPage).url, old(currentPage).recordedEvents + [Trace.SendKeys(text, element.Center())])
      ensures State() == Record(old(State()), Trace.SendKeys(text, element.Center()))
    {
      AddEvent(Trace.SendKeys(text, element.Center()));
    }

    /** `export()`: `_pages` as it reads now; a page still open is part of it only once closed. */
    method Export() returns (document: Json)
      requires started
      ensures document == ExportJson(Pages())
      ensures ImportJson(document) == Some(Pages())
    {
      document := ExportJson(Pages());
      ExportRoundTrip(Pages());
    }
  }

  // ---------------------------------------------------------------------------------------
  // RecordingWebElement

  class RecordingWebElement {
    /** `element`: the wrapped Selenium element. */
    const element: ElementId
    /** `_recorder` */
    const recorder: Recorder
    /** `_driver`: the driver proxy that produced this element. */
    const driver: RecordingWebDriver
    /** The proxy's public attribute table once its interface has been copied from the element. */
    const surface: Object

    constructor (recorder: Recorder, driver: RecordingWebDriver, element: ElementId)
      ensures Wraps(element, recorder, driver)
    {
      var copied := CreateProxyInterface(ElementOwnAttrs(element), driver.driver.elementAttrs, element,
                                         Some(ELEMENT_READONLY_PROPERTIES), false);
      this.element := element;
      this.recorder := recorder;
      this.driver := driver;
      surface := copied;
    }

    /** This proxy wraps `e`, reports to `recorder`, and came from `driver`. */
    predicate Wraps(e: ElementId, recorder: Recorder, driver: RecordingWebDriver)
    {
      && element == e && this.recorder == recorder && this.driver == driver
      && surface == ElementSurface(driver.driver.elementAttrs, e)
    }

    /**
     * `Recorder._get_event_location(self)`: the centre of the element's current bounding box,
     * as far from its left edge as from its right one and from its top as from its bottom.
     */
    function Center(): (c: Location)
      reads driver.driver
      ensures var box := driver.driver.dom.layout(element);
              && c.x - box.location.x as real == (box.location.x + box.size.width) as real - c.x
              && c.y - box.location.y as real == (box.location.y + box.size.height) as real - c.y
    {
      var box := driver.driver.dom.layout(element);
      EventLocation(box.location, box.size)
    }

    /** `find_element`: the element's original lookup, with a found element wrapped. */
    method FindElement(strategy: By := DEFAULT_BY, value: string) returns (found: Option<RecordingWebElement>)
      modifies driver.driver`log
      ensures LookedUpOne(driver.driver, Within(element), Locator(strategy, value), recorder, driver, found)
    {
      var e := driver.driver.FindElement(Within(element), Locator(strategy, value));
      found := None;
      if e.Some? {
        var wrapped := new RecordingWebElement(recorder, driver, e.value);
        found := Some(wrapped);
      }
    }

    /** `find_elements`: the element's original lookup, with every element wrapped in order. */
    method FindElements(strategy: By := DEFAULT_BY, value: string) returns (found: seq<RecordingWebElement>)
      modifies driver.driver`log
      ensures LookedUpAll(driver.driver, Within(element), Locator(strategy, value), recorder, driver, found)
    {
      var elementsList := driver.driver.FindElements(Within(element), Locator(strategy, value));
      found := [];
      if elementsList != [] {
        var updatedList: seq<RecordingWebElement> := [];
        for i := 0 to |elementsList|
          invariant driver.driver.log == old(driver.driver.log) + [FindAll(Within(element), Locator(strategy, value))]
          invariant |updatedList| == i
          invariant forall k :: 0 <= k < i ==> fresh(updatedList[k]) && updatedList[k].Wraps(elementsList[k], recorder, driver)
        {
          var wrapped := new RecordingWebElement(recorder, driver, elementsList[i]);
          updatedList := updatedList + [wrapped];
        }
        found := updatedList;
      }
    }

    /**
     * `click()`: record a click at the centre the element has before the real click, perform
     * the real click, then report a navigation to whatever URL the driver shows afterwards,
     * which finalizes the page holding the click.
     */
    method Click()
      requires recorder.started && recorder.currentPage.Visited?
      modifies recorder`finalized, recorder`currentPage, recorder`aliases, driver.driver
      ensures driver.driver.log == old(driver.driver.log) + [ClickOn(element)]
      ensures recorder.Pages()
              == Trace.Pages(Record(old(recorder.State()), Trace.Click(old(Center()))))
                 + [Visited(old(recorder.currentPage).url, old(recorder.currentPage).recordedEvents + [Trace.Click(old(Center()))])]
      ensures recorder.currentPage == Visited(driver.driver.currentUrl, []) && recorder.aliases == 0
      ensures recorder.State() == Navigate(Record(old(recorder.State()), Trace.Click(old(Center()))), driver.driver.currentUrl)
    {
      recorder.OnClick(this);
      driver.driver.Click(element);
      recorder.OnNavigateToUrl(driver.driver.currentUrl);
    }

    /**
     * `send_keys(*value)`: record the concatenated text of the values at the element's centre,
     * then pass the original values, unchanged, to the real element.
     */
    method SendKeys(values: seq<KeyValue>)
      requires recorder.started && recorder.currentPage.Visited?
      modifies recorder`currentPage, driver.driver
      ensures driver.driver.log == old(driver.driver.log) + [TypeInto(element, values)]
      ensures old(recorder.aliases) == 0 ==> recorder.Pages() == old(recorder.Pages())
      ensures recorder.currentPage
              == Visited(old(recorder.currentPage).url,
                         old(recorder.currentPage).recordedEvents + [Trace.SendKeys(TypedText(values), old(Center()))])
      ensures recorder.State() == Record(old(recorder.State()), Trace.SendKeys(TypedText(values), old(Center())))
    {
      var text := BuildTypedText(values);
      recorder.OnSendKeys(this, text);
      driver.driver.SendKeys(element, values);
    }
  }

  // ---------------------------------------------------------------------------------------
  // RecordingWebDriver

  class RecordingWebDriver {
    /** `_recorder` */
    const recorder: Recorder
    /** `driver`: the wrapped Selenium driver. */
    const driver: Browser
    /** The proxy's public attribute table once its interface has been copied from the driver. */
    const surface: Object

    constructor (recorder: Recorder, driver: Browser)
      ensures this.recorder == recorder && this.driver == driver
      ensures surface == DriverSurface(driver.attrs, driver.id)
    {
      var copied := CreateProxyInterface(DriverOwnAttrs(driver.id), driver.attrs, driver.id,
                                         Some(DRIVER_READONLY_PROPERTIES + DRIVER_SETTABLE_PROPERTIES), false);
      this.recorder := recorder;
      this.driver := driver;
      surface := copied;
    }

    /** `get(url)`: report the navigation to the recorder, then navigate. */
    method Get(url: string)
      requires recorder.started
      modifies recorder`finalized, recorder`currentPage, recorder`aliases, driver
      ensures recorder.Pages()
              == if old(recorder.currentPage).Visited? then old(recorder.Pages()) + [old(recorder.currentPage)] else old(recorder.Pages())
      ensures recorder.currentPage == Visited(url, []) && recorder.aliases == 0
      ensures recorder.State() == Navigate(old(recorder.State()), url)
      ensures driver.currentUrl == url && driver.dom == driver.site(url)
      ensures driver.log == old(driver.log) + [GetUrl(url)]
    {
      recorder.OnNavigateToUrl(url);
      driver.Get(url);
    }

    /** `find_element(by, value)`: the driver's lookup, with a found element wrapped. */
    method FindElement(strategy: By := DEFAULT_BY, value: string) returns (found: Option<RecordingWebElement>)
      modifies driver`log
      ensures LookedUpOne(driver, Document, Locator(strategy, value), recorder, this, found)
    {
      var e := driver.FindElement(Document, Locator(strategy, value));
      found := None;
      if e.Some? {
        var wrapped := new RecordingWebElement(recorder, this, e.value);
        found := Some(wrapped);
      }
    }

    /** `find_elements(by, value)`: the driver's lookup, with every element wrapped in order. */
    method FindElements(strategy: By := DEFAULT_BY, value: string) returns (found: seq<RecordingWebElement>)
      modifies driver`log
      ensures LookedUpAll(driver, Document, Locator(strategy, value), recorder, this, found)
    {
      var elementsList := driver.FindElements(Document, Locator(strategy, value));
      found := [];
      if elementsList != [] {
        var updatedResults: seq<RecordingWebElement> := [];
        for i := 0 to |elementsList|
          invariant driver.log == old(driver.log) + [FindAll(Document, Locator(strategy, value))]
          invariant |updatedResults| == i
          invariant forall k :: 0 <= k < i ==> fresh(updatedResults[k]) && updatedResults[k].Wraps(elementsList[k], recorder, this)
        {
          var wrapped := new RecordingWebElement(recorder, this, elementsList[i]);
          updatedResults := updatedResults + [wrapped];
        }
        found := updatedResults;
      }
    }

    method FindElementById(id: string) returns (found: Option<RecordingWebElement>)
      modifies driver`log
      ensures LookedUpOne(driver, Document, Locator(Id, id), recorder, this, found)
    {
      found := FindElement(Id, id);
    }

    method FindElementsById(id: string) returns (found: seq<RecordingWebElement>)
      modifies driver`log
      ensures LookedUpAll(driver, Document, Locator(Id, id), recorder, this, found)
    {
      found := FindElements(Id, id);
    }

    method FindElementByXpath(xpath: string) returns (found: Option<RecordingWebElement>)
      modifies driver`log
      ensures LookedUpOne(driver, Document, Locator(XPath, xpath), recorder, this, found)
    {
      found := FindElement(XPath, xpath);
    }

    method FindElementsByXpath(xpath: string) returns (found: seq<RecordingWebElement>)
      modifies driver`log
      ensures LookedUpAll(driver, Document, Locator(XPath, xpath), recorder, this, found)
    {
      found := FindElements(XPath, xpath);
    }

    method FindElementByLinkText(linkText: string) returns (found: Option<RecordingWebElement>)
      modifies driver`log
      ensures LookedUpOne(driver, Document, Locator(LinkText, linkText), recorder, this, found)
    {
      found := FindElement(LinkText, linkText);
    }

    method FindElementsByLinkText(text: string) returns (found: seq<RecordingWebElement>)
      modifies driver`log
      ensures LookedUpAll(driver, Document, Locator(LinkText, text), recorder, this, found)
    {
      found := FindElements(LinkText, text);
    }

    method FindElementByPartialLinkText(linkText: string) returns (found: Option<RecordingWebElement>)
      modifies driver`log
      ensures LookedUpOne(driver, Document, Locator(PartialLinkText, linkText), recorder, this, found)
    {
      found := FindElement(PartialLinkText, linkText);
    }

    method FindElementsByPartialLinkText(linkText: string) returns (found: seq<RecordingWebElement>)
      modifies driver`log
      ensures LookedUpAll(driver, Document, Locator(PartialLinkText, linkText), recorder, this, found)
    {
      found := FindElements(PartialLinkText, linkText);
    }

    method FindElementByName(name: string) returns (found: Option<RecordingWebElement>)
      modifies driver`log
      ensures LookedUpOne(driver, Document, Locator(By.Name, name), recorder, this, found)
    {
      found := FindElement(By.Name, name);
    }

    method FindElementsByName(name: string) returns (found: seq<RecordingWebElement>)
      modifies driver`log
      ensures LookedUpAll(driver, Document, Locator(By.Name, name), recorder, this, found)
    {
      found := FindElements(By.Name, name);
    }

    method FindElementByTagName(name: string) returns (found: Option<RecordingWebElement>)
      modifies driver`log
      ensures LookedUpOne(driver, Document, Locator(TagName, name), recorder, this, found)
    {
      found := FindElement(TagName, name);
    }

    method FindElementsByTagName(name: string) returns (found: seq<RecordingWebElement>)
      modifies driver`log
      ensures LookedUpAll(driver, Document, Locator(TagName, name), recorder, this, found)
    {
      found := FindElements(TagName, name);
    }

    method FindElementByClassName(name: string) returns (found: Option<RecordingWebElement>)
      modifies driver`log
      ensures LookedUpOne(driver, Document, Locator(ClassName, name), recorder, this, found)
    {
      found := FindElement(ClassName, name);
    }

    method FindElementsByClassName(name: string) returns (found: seq<RecordingWebElement>)
      modifies driver`log
      ensures LookedUpAll(driver, Document, Locator(ClassName, name), recorder, this, found)
    {
      found := FindElements(ClassName, name);
    }

    method FindElementByCssSelector(cssSelector: string) returns (found: Option<RecordingWebElement>)
      modifies driver`log
      ensures LookedUpOne(driver, Document, Locator(CssSelector, cssSelector), recorder, this, found)
    {
      found := FindElement(CssSelector, cssSelector);
    }

    method FindElementsByCssSelector(cssSelector: string) returns (found: seq<RecordingWebElement>)
      modifies driver`log
      ensures LookedUpAll(driver, Document, Locator(CssSelector, cssSelector), recorder, this, found)
    {
      found := FindElements(CssSelector, cssSelector);
    }
  }

  // ---------------------------------------------------------------------------------------
  // Recording sessions end to end

  /** One page whose element "e1" sits at (10, 20) with size (100, 40). */
  function ExamplePage(): Dom
  {
    Dom((e: ElementId) => Box(Point(10, 20), Size(100, 40)),
        (scope: Scope, locator: Locator) => if scope == Document && locator == Locator(Id, "e1") then [1] else [])
  }

  /** A browser, with no attributes of its own, whose every URL shows ExamplePage. */
  method ExampleBrowser() returns (browser: Browser)
    ensures fresh(browser) && browser.site("http://example/") == ExamplePage()
  {
    browser := new Browser(0, map[], map[], (u: string) => ExamplePage(), "about:blank");
  }

  /** `start` on a new recorder and ExampleBrowser: an empty recording and a driver proxy for it. */
  method StartOnExampleBrowser() returns (recorder: Recorder, driver: RecordingWebDriver)
    ensures fresh(recorder) && fresh(driver.driver) && driver.recorder == recorder
    ensures recorder.started && recorder.State() == STARTED
    ensures driver.driver.site("http://example/") == ExamplePage()
  {
    var browser := ExampleBrowser();
    recorder := new Recorder();
    driver := recorder.Start(browser);
  }

  /** Start a recording on a browser whose every URL shows ExamplePage, and open "http://example/". */
  method StartExample() returns (recorder: Recorder, driver: RecordingWebDriver)
    ensures fresh(recorder) && fresh(driver.driver) && driver.recorder == recorder
    ensures recorder.started && recorder.State() == Session([], Visited("http://example/", []), 0)
    ensures driver.driver.dom == ExamplePage()
  {
    recorder, driver := StartOnExampleBrowser();
    driver.Get("http://example/");
  }

  /** StartExample, then look up the element with id "e1". */
  method OpenExample() returns (recorder: Recorder, element: RecordingWebElement)
    ensures fresh(recorder) && fresh(element.driver.driver) && element.recorder == recorder
    ensures recorder.started && recorder.State() == Session([], Visited("http://example/", []), 0)
    ensures element.Center() == Location(60.0, 40.0)
  {
    var driver;
    recorder, driver := StartExample();
    var found := driver.FindElementById("e1");
    assert ExamplePage().lookup(Document, Locator(Id, "e1")) == [1];
    element := found.value;
    EventLocationExample();
  }

  /** OpenExample, then `close`: the open page is appended and stays open. */
  method OpenAndCloseExample() returns (recorder: Recorder, element: RecordingWebElement)
    ensures fresh(recorder) && fresh(element.driver.driver) && element.recorder == recorder
    ensures recorder.started
    ensures recorder.State() == Session([], Visited("http://example/", []), 1)
    ensures element.Center() == Location(60.0, 40.0)
  {
    recorder, element := OpenExample();
    recorder.Close();
  }

  /** `export()` twice in a row: the same document both times, and it reads back as the pages. */
  method ExportTwice(recorder: Recorder) returns (first: Json, second: Json)
    requires recorder.started
    ensures first == second && ImportJson(first) == Some(recorder.Pages())
  {
    first := recorder.Export();
    second := recorder.Export();
  }

  /**
   * Start, open a page, look up an element by id, click it, close, and export twice.
   * The click is recorded at the element's centre on the first page; the navigation that
   * `click` reports afterwards opens a second page, with no events, which `close` appends.
   * Both exports are the same document, and it reads back as the trace.
   */
  method ClickScenario() returns (trace: seq<Page>, first: Json, second: Json)
    ensures |trace| == 2
    ensures trace[0] == Visited("http://example/", [Trace.Click(Location(60.0, 40.0))])
    ensures trace[1].Visited? && trace[1].recordedEvents == []
    ensures first == second && ImportJson(first) == Some(trace)
  {
    var recorder, button := OpenExample();
    button.Click();
    recorder.Close();
    first, second := ExportTwice(recorder);
    trace := recorder.Pages();
  }

  /**
   * Start, open a page, type ("a", 3, "b") into an element, close and export: the trace is
   * one page holding one send_keys event with the text "a3b" at the element's centre.
   */
  method TypingScenario() returns (trace: seq<Page>, document: Json)
    ensures trace == [Visited("http://example/", [Trace.SendKeys("a3b", Location(60.0, 40.0))])]
    ensures ImportJson(document) == Some(trace)
  {
    var recorder, field := OpenExample();
    var values := [Text("a"), Integer(3), Text("b")];
    assert TypedText(values) == "a3b" by {
      TypedTextExample();
    }
    ghost var event := Trace.SendKeys("a3b", Location(60.0, 40.0));
    field.SendKeys(values);
    assert [] + [event] == [event];
    ghost var typed := Visited("http://example/", [event]);
    assert recorder.State() == Session([], typed, 0);
    recorder.Close();
    assert Trace.Pages(Session([], typed, 1)) == [typed];
    var again;
    document, again := ExportTwice(recorder);
    trace := recorder.Pages();
  }

  /**
   * Start, open a page, close, then type "a3b" into an element: `close` appended the open
   * page itself, so the list `export` serializes holds the event typed afterwards.
   */
  method TypeAfterCloseScenario() returns (trace: seq<Page>)
    ensures trace == [Visited("http://example/", [Trace.SendKeys("a3b", Location(60.0, 40.0))])]
  {
    var recorder, field := OpenAndCloseExample();
    var values := [Text("a"), Integer(3), Text("b")];
    assert TypedText(values) == "a3b" by {
      TypedTextExample();
    }
    ghost var event := Trace.SendKeys("a3b", Location(60.0, 40.0));
    field.SendKeys(values);
    assert [] + [event] == [event];
    ghost var typed := Visited("http://example/", [event]);
    assert recorder.State() == Session([], typed, 1);
    assert Trace.Pages(Session([], typed, 1)) == [typed];
    trace := recorder.Pages();
  }
}
