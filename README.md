# A verified model of the webdriver recorder

The recorder sits between a test script and a Selenium driver. `Recorder.start(driver)`
hands back a `RecordingWebDriver`. This proxy forwards the driver's public surface. It
reports every `get` to the recorder, and it wraps every element it finds in a
`RecordingWebElement`. The element proxy reports clicks and key presses, each with the
centre of the element's bounding box. The recorder keeps a list of pages and one open page.
`close` appends the open page itself, not a copy, and `export` serializes the list as JSON.
The forwarding surfaces are built by the reflection helpers of `metaprog_utils.py`:
`create_proxy_interface`, `create_proxy_property` and `create_forwarded_method`.

The model has seven modules:

- `Wrappers` (wrappers.dfy): the `Option` type.
- `Metaprog` (metaprog.dfy): `metaprog_utils.py`. A Python object is its attribute table, a
  finite map from name to value. A heap maps object identities to tables. `Call` gives
  `getattr(o, name)(*args)` with the exceptions it can raise. `create_proxy_interface` is a
  loop over the target's names, proved equal to a reference definition `ProxyInterface`.
  The filter rules and call forwarding are lemmas about that definition.
- `Keys` (keys.dfy): the text that `send_keys` records. It covers decimal rendering of ints,
  with a parser proving the rendering loses nothing, and in-order concatenation, built by a
  loop proved against `TypedText`.
- `Selenium` (selenium.dfy): a stand-in for the driver, which is not part of this model. It
  holds the current URL, the element geometry, a lookup oracle and a log of the real calls
  made. A real click or key press may change the URL and the page in any way.
- `Trace` (trace.dfy): the recorder's state as a value: the page records that can no longer
  change, the open page, and how many entries at the end of the list are the open page
  itself. It defines the transitions
  `Navigate`, `Record` and `Close`, the centre-point computation, and whole sessions driven
  by a script of navigations and events. These sessions are proved equal to a reference
  grouping of events by navigation.
- `TraceJson` (trace_json.dfy): the exported document as a JSON value, in the key order the
  recorder builds. A decoder proves that the export keeps every page and event.
- `WebdriverRecorder` (recorder.dfy): the classes `Recorder`, `RecordingWebElement` and
  `RecordingWebDriver`.
  - `Recorder` keeps `_pages` as its finalized records plus a count of trailing entries
    that reference `_current_page`; `Pages()` reads the list from them.
  - Their methods update fields exactly as the `Trace` transitions say.
  - The lookup methods return fresh proxies, matching the real lookup in number and order.
  - Three end-to-end scenarios pin down the recorded trace for a click, for typed input, and
    for typed input after `close`.

Source quirks are kept as written:

- `close` appends the open page's dict itself and does not reset `_current_page`. Events
  recorded after `close` therefore also show up in the entry `close` appended, and closing
  twice appends the page twice. `Trace.RecordAfterCloseReachesClosedPage` and
  `WebdriverRecorder.TypeAfterCloseScenario` state this.
- `close` before any navigation appends the empty page `{}` (`NoPage`).
- Recording an event with no page open is a `KeyError`; in the model it is a precondition.

### Behaviour worth knowing

- Consecutive navigation notifications with no events in between do not coalesce.
  `on_navigate_to_url` always appends an open page, including one with no events.
  `Trace.NavigationsKeepEmptyPages` and `Trace.NavigationsNotCoalesced` state this.
- Clicking an element that does not navigate still yields two pages for start, `get`,
  click, `close`. `click` always re-reports a navigation to the driver's current URL, which
  opens a second, empty page, and `close` appends it. `WebdriverRecorder.ClickScenario`
  proves the two-page trace.

## Model

| member | source | states |
|---|---|---|
| `Metaprog.CreateForwardedMethod` | metaprog_utils.py:24-32 | the forwarded method is callable |
| `Metaprog.ForwardedMethodCallsTarget` | metaprog_utils.py:29-30 | calling the forwarded method with any positional and keyword arguments gives what calling `func_name` on `to` with the same arguments gives |
| `Metaprog.CreateProxyProperty` | metaprog_utils.py:6-21 | reading the property yields the attribute of that name on the object held in the target attribute; assigning it succeeds exactly when the property is settable and that object exists |
| `Metaprog.PropertyGet` | metaprog_utils.py:11-12 | the getter succeeds exactly when the owner's target attribute names an object that has the property, and then yields that object's attribute |
| `Metaprog.PropertySet` | metaprog_utils.py:15-21 | without a setter, assignment raises AttributeError; with one, it writes the property on the target object and changes nothing else |
| `Metaprog.SetThenGet` | metaprog_utils.py:6-21 | the setter forwards the assignment to the target object; when that object holds the name as a plain attribute, reading the property right after yields the assigned value |
| `Metaprog.IgnoreNames` | metaprog_utils.py:42-43 | no ignore list means the empty list; a given list is used as is |
| `Metaprog.InterfaceStep` | metaprog_utils.py:44-48 | considering one more name of `to` adds a forwarder for it exactly when it passes the filter, and changes nothing else |
| `Metaprog.CreateProxyInterface` | metaprog_utils.py:35-48 | the loop over the names of `to` yields exactly the reference table `ProxyInterface`, whatever order the names are visited in |
| `Metaprog.EligibleNamesPresent` | metaprog_utils.py:44-48 | every public, non-ignored, callable name of `to` is on `from_` afterwards, as a forwarder when `from_` lacked it or `override_existing` holds |
| `Metaprog.ForwardedExactly` | metaprog_utils.py:44-48 | a name is on `from_` afterwards exactly when it was before or passes the filter; names that pass become forwarders and the others keep their value |
| `Metaprog.PrivateAndIgnoredUntouched` | metaprog_utils.py:45 | names starting with `_` or in the ignore list are neither added to `from_` nor changed on it |
| `Metaprog.NonCallableNeverCopied` | metaprog_utils.py:46 | attributes of `to` that are not callable are never copied |
| `Metaprog.ExistingKeptWithoutOverride` | metaprog_utils.py:47-48 | without `override_existing` every attribute `from_` had keeps its value |
| `Metaprog.ExistingReplacedWithOverride` | metaprog_utils.py:47-48 | with `override_existing` an eligible attribute `from_` had is replaced by the forwarder |
| `Metaprog.NoIgnoreListIsEmptyList` | metaprog_utils.py:42-43 | `ignore_list=None` behaves exactly as `[]` |
| `Metaprog.SurfaceEquivalence` | metaprog_utils.py:24-48 | after the interface is copied, calling a forwarded name on `from_` gives what calling it on `to` gives, with the same arguments |
| `Keys.NatDecimalDigits` | webdriver_recorder.py:109-110 | `str(n)` of a non-negative int is a non-empty string of decimal digits |
| `Keys.NatDecimalRoundTrip` | webdriver_recorder.py:109-110 | the digits of a non-negative int read back as that int |
| `Keys.IntDecimalRoundTrip` | webdriver_recorder.py:109-110 | `int.__str__` loses nothing: its text reads back as the same int, negative ones included |
| `Keys.TypedTextAppend` | webdriver_recorder.py:107-111 | the recorded text of two argument lists one after the other is the first text followed by the second |
| `Keys.TypedTextExample` | webdriver_recorder.py:106-113 | the arguments `("a", 3, "b")` are recorded as `"a3b"` |
| `Keys.BuildTypedText` | webdriver_recorder.py:107-111 | the text-building loop computes the in-order concatenation `TypedText` of the rendered arguments |
| `Trace.EventLocation` | webdriver_recorder.py:26-31 | the event location is as far from the left edge of the box as from the right, and as far from the top as from the bottom |
| `Trace.EventLocationInsideBox` | webdriver_recorder.py:26-31 | for a box of non-negative size, the event location lies inside the box |
| `Trace.EventLocationExample` | webdriver_recorder.py:26-31 | position (10, 20) with size (100, 40) gives the location (60, 40) |
| `Trace.Navigate` | webdriver_recorder.py:20-24 | the open page, if any, is appended after the pages already listed, which are kept; the new open page has the URL and no events, and no entry aliases it |
| `Trace.Record` | webdriver_recorder.py:33-35 | the event is appended to the open page's events and its URL kept; the page list keeps its length, records before the aliased entries are unchanged, and the aliased entries read as the updated page |
| `Trace.Close` | webdriver_recorder.py:17-18 | the open page is appended to the page list and stays open |
| `Trace.RecordOnlyAppends` | webdriver_recorder.py:33-35 | while no entry aliases the open page, recording an event leaves the page list, the URL and earlier events unchanged, and adds exactly that event at the end |
| `Trace.RecordAfterCloseReachesClosedPage` | webdriver_recorder.py:17-35 | an event recorded after `close` reaches the page `close` appended: closing then recording gives the same list as recording then closing |
| `Trace.RecordAfterCloseExample` | webdriver_recorder.py:17-35 | `get("u")`, `close()`, then one event gives one page for `"u"` holding that event |
| `Trace.CloseTwiceRepeatsPage` | webdriver_recorder.py:17-18 | two `close` calls append the same open page twice |
| `Trace.CloseBeforeNavigation` | webdriver_recorder.py:12-18 | `close` right after `start` appends the empty page `{}` |
| `Trace.NavigationsKeepEmptyPages` | webdriver_recorder.py:20-24 | two navigations with no events between them keep the first page, with no events, right before the second, which is open and empty |
| `Trace.RunFromOpenPage` | webdriver_recorder.py:20-41 | from an open page, any script runs without error, and after `close` the pages are the open page extended with the leading events, followed by the reference grouping of the rest |
| `Trace.RecordingFollowsScript` | webdriver_recorder.py:17-41 | a script that starts with a navigation is recorded, after `close`, as one page per navigation in navigation order, each holding the events that follow it in call order |
| `Trace.RunKeepsPageOpen` | webdriver_recorder.py:20-35 | once a page is open, no script fails |
| `Trace.RunFailsIffEventFirst` | webdriver_recorder.py:12-35 | a fresh recorder fails on a script exactly when the script's first action is an event |
| `Trace.NavigationsNotCoalesced` | webdriver_recorder.py:20-24 | navigating to u1 and then u2 and closing gives an empty page for u1 followed by an empty page for u2 |
| `TraceJson.EventsRoundTrip` | webdriver_recorder.py:33-41 | the encoded events of a page decode back to the same events |
| `TraceJson.PagesRoundTrip` | webdriver_recorder.py:43-44 | the encoded pages decode back to the same pages, the empty page included |
| `TraceJson.ExportRoundTrip` | webdriver_recorder.py:43-44 | reading the exported document gives back exactly the recorded pages |
| `TraceJson.ExportInjective` | webdriver_recorder.py:43-44 | two recordings with the same export are the same recording |
| `WebdriverRecorder.DriverSurfaceShape` | webdriver_recorder.py:128-135 | on the driver proxy, its own methods and `driver` stay as the class defines them; the read-only and settable property names are never copied; every other public callable attribute of the driver is forwarded to it, and nothing else is added |
| `WebdriverRecorder.DriverPropertyIsNotOwn` | webdriver_recorder.py:123-126 | no property name of the driver proxy is one of the proxy's own methods or its `driver` attribute |
| `WebdriverRecorder.ElementPropertyIsNotOwn` | webdriver_recorder.py:52-57 | no read-only property name of the element proxy is one of its own methods or its `element` attribute |
| `WebdriverRecorder.ElementSurfaceShape` | webdriver_recorder.py:59-71 | on the element proxy, `find_element`, `find_elements`, `click`, `send_keys` and `element` stay its own; the read-only property names are never copied; every other public callable attribute of the element is forwarded to it, and nothing else is added |
| `WebdriverRecorder.DriverSurfaceForwardsCalls` | webdriver_recorder.py:132-135 | calling a forwarded name on the driver proxy gives what calling it on the real driver gives, with the same arguments |
| `WebdriverRecorder.DriverPropertiesShape` | webdriver_recorder.py:137-142 | the driver proxy's class properties are exactly its read-only and settable names, each forwarding to `driver`, with a setter exactly for `orientation` and `file_detector` |
| `WebdriverRecorder.ElementPropertiesShape` | webdriver_recorder.py:72-74 | the element proxy's class properties are exactly its read-only names, each forwarding to `element` without a setter |
| `WebdriverRecorder.DriverPropertyAssignment` | webdriver_recorder.py:137-142 | through the driver proxy, assigning `orientation` is `setattr(driver, 'orientation', val)` and changes nothing else; when the driver holds `orientation` as a plain attribute it reads back the value; assigning `title` raises AttributeError |
| `WebdriverRecorder.Recorder.Start` | webdriver_recorder.py:12-15 | an empty page list and no open page; the result is a new driver proxy for this recorder and driver, with the driver's forwarded surface |
| `WebdriverRecorder.Recorder.Close` | webdriver_recorder.py:17-18 | the open page is appended to the page list, stays open, and the new entry aliases it |
| `WebdriverRecorder.Recorder.OnNavigateToUrl` | webdriver_recorder.py:20-24 | an open page is appended to the page list (no page opened yet appends nothing), and an empty page for the URL is opened that no entry aliases |
| `WebdriverRecorder.Recorder.AddEvent` | webdriver_recorder.py:33-35 | with a page open, the event is appended to its events and the URL is kept; the page list keeps its length, entries before the aliased ones are unchanged, and the aliased ones read as the updated page |
| `WebdriverRecorder.Recorder.OnClick` | webdriver_recorder.py:37-38 | a click at the element's centre is appended to the open page, and so to the entries that alias it |
| `WebdriverRecorder.Recorder.OnSendKeys` | webdriver_recorder.py:40-41 | a send_keys event with the text at the element's centre is appended to the open page, and so to the entries that alias it |
| `WebdriverRecorder.Recorder.Export` | webdriver_recorder.py:43-44 | the document is the encoding of the page list as it reads now (an open page only through the entries `close` appended), and it reads back as that list |
| `WebdriverRecorder.RecordingWebElement.constructor` | webdriver_recorder.py:59-74 | the proxy wraps the element, reports to the recorder, keeps the driver proxy, and its surface is the element's forwarded interface |
| `WebdriverRecorder.RecordingWebElement.Center` | webdriver_recorder.py:26-31 | the event location of the element is the centre of its current box: as far from the left edge as from the right, and from the top as from the bottom |
| `WebdriverRecorder.RecordingWebElement.FindElement` | webdriver_recorder.py:76-85 | one lookup below the element; nothing found is passed through, and a found element comes back as a new proxy around it |
| `WebdriverRecorder.RecordingWebElement.FindElements` | webdriver_recorder.py:87-99 | one lookup below the element; the result has the real result's length and order, each item a new proxy around the element at its position (an empty result stays empty) |
| `WebdriverRecorder.RecordingWebElement.Click` | webdriver_recorder.py:101-104 | a click at the element's centre from before the real click is recorded on the open page and the entries aliasing it; the real click happens once; that page is then appended and an empty page for the driver's URL after the click is opened |
| `WebdriverRecorder.RecordingWebElement.SendKeys` | webdriver_recorder.py:106-113 | the in-order rendering of the values is recorded at the element's centre from before typing, on the open page and the entries aliasing it; the real element receives the original values once; with no aliasing entry the page list is unchanged |
| `WebdriverRecorder.RecordingWebDriver.constructor` | webdriver_recorder.py:128-135 | the proxy keeps the recorder and driver, and its surface is the driver's interface with both property lists ignored |
| `WebdriverRecorder.RecordingWebDriver.Get` | webdriver_recorder.py:144-146 | the recorder sees the navigation to the URL, and the driver navigates to it once |
| `WebdriverRecorder.RecordingWebDriver.FindElement` | webdriver_recorder.py:148-157 | one document lookup; nothing found is passed through, and a found element comes back as a new proxy around it |
| `WebdriverRecorder.RecordingWebDriver.FindElements` | webdriver_recorder.py:159-171 | one document lookup; same length and order, each item a new proxy around the element at its position |
| `WebdriverRecorder.RecordingWebDriver.FindElementById` | webdriver_recorder.py:173-174 | behaves as `find_element` with the id strategy |
| `WebdriverRecorder.RecordingWebDriver.FindElementsById` | webdriver_recorder.py:176-177 | behaves as `find_elements` with the id strategy |
| `WebdriverRecorder.RecordingWebDriver.FindElementByXpath` | webdriver_recorder.py:179-180 | behaves as `find_element` with the XPath strategy |
| `WebdriverRecorder.RecordingWebDriver.FindElementsByXpath` | webdriver_recorder.py:182-183 | behaves as `find_elements` with the XPath strategy |
| `WebdriverRecorder.RecordingWebDriver.FindElementByLinkText` | webdriver_recorder.py:185-186 | behaves as `find_element` with the link-text strategy |
| `WebdriverRecorder.RecordingWebDriver.FindElementsByLinkText` | webdriver_recorder.py:188-189 | behaves as `find_elements` with the link-text strategy |
| `WebdriverRecorder.RecordingWebDriver.FindElementByPartialLinkText` | webdriver_recorder.py:191-192 | behaves as `find_element` with the partial-link-text strategy |
| `WebdriverRecorder.RecordingWebDriver.FindElementsByPartialLinkText` | webdriver_recorder.py:194-195 | behaves as `find_elements` with the partial-link-text strategy |
| `WebdriverRecorder.RecordingWebDriver.FindElementByName` | webdriver_recorder.py:197-198 | behaves as `find_element` with the name strategy |
| `WebdriverRecorder.RecordingWebDriver.FindElementsByName` | webdriver_recorder.py:200-201 | behaves as `find_elements` with the name strategy |
| `WebdriverRecorder.RecordingWebDriver.FindElementByTagName` | webdriver_recorder.py:203-204 | behaves as `find_element` with the tag-name strategy |
| `WebdriverRecorder.RecordingWebDriver.FindElementsByTagName` | webdriver_recorder.py:206-207 | behaves as `find_elements` with the tag-name strategy |
| `WebdriverRecorder.RecordingWebDriver.FindElementByClassName` | webdriver_recorder.py:209-210 | behaves as `find_element` with the class-name strategy |
| `WebdriverRecorder.RecordingWebDriver.FindElementsByClassName` | webdriver_recorder.py:212-213 | behaves as `find_elements` with the class-name strategy |
| `WebdriverRecorder.RecordingWebDriver.FindElementByCssSelector` | webdriver_recorder.py:215-216 | behaves as `find_element` with the CSS-selector strategy |
| `WebdriverRecorder.RecordingWebDriver.FindElementsByCssSelector` | webdriver_recorder.py:218-219 | behaves as `find_elements` with the CSS-selector strategy |
| `WebdriverRecorder.ClickScenario` | webdriver_recorder.py:101-104 | start, `get`, look up by id, click, close, export twice: two pages, the first holding one click at (60, 40) and the second empty; both exports equal and read back as the trace |
| `WebdriverRecorder.TypingScenario` | webdriver_recorder.py:106-113 | start, `get`, look up by id, type `("a", 3, "b")`, close, export: one page holding one send_keys event with text `"a3b"` at (60, 40) |
| `WebdriverRecorder.ExportTwice` | webdriver_recorder.py:43-44 | two exports in a row give the same document, which reads back as the page list |
| `WebdriverRecorder.TypeAfterCloseScenario` | webdriver_recorder.py:17-41 | start, `get`, look up by id, `close`, type `("a", 3, "b")`: the page list is one page holding the send_keys event `"a3b"` at (60, 40) |

## Left out

- The Selenium driver and its elements are not part of this model. They are replaced by
  the `Selenium.Browser` stand-in, whose lookups come from an oracle and whose real clicks
  and key presses may change the URL and page arbitrarily. The `By` constants' string
  values are not modelled.
- `json.dumps` text formatting is not modelled. `export` yields a JSON value with keys in
  insertion order. The decoder exists only to prove that nothing is lost.
- `Metaprog.SetThenGet` and `WebdriverRecorder.DriverPropertyAssignment`: the read-back
  holds for a target that stores the name as a plain attribute, which is how every object
  is modelled here. On a real Selenium driver or element, `orientation` and the other names
  are themselves properties whose getters and setters talk to the browser, may raise, and
  need not return what was assigned. For those, only the forwarding is promised.
- Keyword arguments: `Metaprog.Call` passes positional and keyword arguments through
  unchanged, as `forwarded_method` does. How a native method binds them to its parameters
  is part of the `Natives` oracle.
- Python reflection mechanics are not modelled: the order of `dir`, `getattr` side effects
  when probing properties, and `types.MethodType` binding. An object is its attribute table,
  `create_proxy_interface` visits the names in any order, and a forwarded method keeps only
  its target and name.
- The list `_pages` is not a list of references in the model. It is the records that can no
  longer change, followed by a count of entries that are `_current_page` itself. That is the
  only aliasing the recorder creates, so the list reads the same as in the source.
- `Metaprog.CreateProxyInterface`: works on values. It returns the updated table instead of
  calling `setattr` on `from_` in place, so aliasing of `from_` is not captured.
- Class-level `setattr` of properties, shared by all instances, is described by the tables
  `ElementProperties` and `DriverProperties`. The guard in webdriver_recorder.py:138-141
  installs them only once, but every construction installs the same table, so the guard's
  effect is not modelled separately.
- The monkey-patching of `element.find_element` and `element.find_elements` is not modelled
  (webdriver_recorder.py:63-68). The element proxy performs the original lookup below its
  element. In the source, the real element's own lookup helpers (such as
  `find_element_by_id`), which the proxy forwards, call the patched methods and so return
  wrapped elements. In the model those forwarded calls return whatever the element's
  native method returns, unwrapped. Restoring the original methods is not modelled either.
- Floating-point division in the location is replaced by exact real arithmetic (Python 3
  true division without rounding). Python 2 integer division is not modelled.
- The UTF-8 `encode`/`decode` round trip in `send_keys` is treated as the identity on text.
  Only `str`, `int` and `bool` arguments are modelled.
- Errors raised by the driver or element are not modelled. They propagate uncaught in the
  source.
- `WebdriverRecorder.RecordingWebDriver.Get`: since driver errors are not modelled, the
  contract does not show that the recorder is notified before the real `get`. The body
  performs the two steps in that order.
- `WebdriverRecorder.RecordingWebElement.Click`: the contract shows the click was recorded
  first only through the location. The location is taken from the element's geometry
  before the real click. That an event stays recorded when the real click fails is not
  modelled.
- `WebdriverRecorder.RecordingWebElement.SendKeys`: the same applies as for `Click`. The
  page list is promised unchanged only when no entry aliases the open page. After a
  `close`, the entries it appended receive the typed event too, as in the source.
- The default `value=None` of `find_element`/`find_elements` is not modelled: callers pass a
  string. The default `by=By.ID` is the default parameter value `Selenium.DEFAULT_BY`.
- A lookup that finds nothing is modelled as `None` for one element and `[]` for many. The
  `NoSuchElementException` that Selenium's `find_element` may raise is not modelled.
- Calling any recorder method before `start` raises AttributeError in Python, because the
  fields do not exist yet. In the model this is the precondition `started`.
- Concurrency: there is none in the source.
- basic_script.py drives a real browser and is not part of this model.
