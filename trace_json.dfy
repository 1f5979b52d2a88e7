/**
 * `Recorder.export` (webdriver_recorder.py:43-44) hands `_pages` to `json.dumps`.  The
 * document is modelled as a JSON value with its members in the order the recorder inserts
 * them; the text layout `json.dumps` chooses is not.  A decoder shows that the export
 * loses nothing: the recorded pages can be read back from it.
 */
module TraceJson {
  import opened Wrappers
  import opened Trace

  datatype Json =
    | JString(str: string)
    | JNumber(num: real)
    | JArray(items: seq<Json>)
    | JObject(members: seq<(string, Json)>)

  function LocationToJson(l: Location): Json
  {
    JObject([("x", JNumber(l.x)), ("y", JNumber(l.y))])
  }

  /** `event_type` first; then `text` for send_keys; `location` last, as `_add_event` adds it. */
  function EventToJson(e: Event): Json
  {
    match e
    case Click(l) => JObject([("event_type", JString("click")), ("location", LocationToJson(l))])
    case SendKeys(t, l) =>
      JObject([("event_type", JString("send_keys")), ("text", JString(t)), ("location", LocationToJson(l))])
  }

  function EventsToJson(events: seq<Event>): seq<Json>
    decreases |events|
  {
    if events == [] then [] else [EventToJson(events[0])] + EventsToJson(events[1..])
  }

  function PageToJson(p: Page): Json
  {
    match p
    case NoPage => JObject([])
    case Visited(u, evs) => JObject([("url", JString(u)), ("recorded_events", JArray(EventsToJson(evs)))])
  }

  function PagesToJson(pages: seq<Page>): seq<Json>
    decreases |pages|
  {
    if pages == [] then [] else [PageToJson(pages[0])] + PagesToJson(pages[1..])
  }

  /** The exported document: a list with one object per entry of `_pages`. */
  function ExportJson(pages: seq<Page>): Json
  {
    JArray(PagesToJson(pages))
  }

  // ---------------------------------------------------------------------------------------
  // Reading an export back

  function LocationFromJson(j: Json): Option<Location>
  {
    match j
    case JObject(ms) =>
      if |ms| == 2 && ms[0].0 == "x" && ms[0].1.JNumber? && ms[1].0 == "y" && ms[1].1.JNumber?
      then Some(Location(ms[0].1.num, ms[1].1.num)) else None
    case _ => None
  }

  function EventFromJson(j: Json): Option<Event>
  {
    match j
    case JObject(ms) =>
      if |ms| == 2 && ms[0] == ("event_type", JString("click")) && ms[1].0 == "location" then
        match LocationFromJson(ms[1].1)
        case Some(l) => Some(Click(l))
        case None => None
      else if |ms| == 3 && ms[0] == ("event_type", JString("send_keys")) && ms[1].0 == "text"
              && ms[1].1.JString? && ms[2].0 == "location" then
        match LocationFromJson(ms[2].1)
        case Some(l) => Some(SendKeys(ms[1].1.str, l))
        case None => None
      else None
    case _ => None
  }

  function EventsFromJson(js: seq<Json>): Option<seq<Event>>
    decreases |js|
  {
    if js == [] then Some([])
    else match (EventFromJson(js[0]), EventsFromJson(js[1..]))
      case (Some(e), Some(es)) => Some([e] + es)
      case _ => None
  }

  function PageFromJson(j: Json): Option<Page>
  {
    match j
    case JObject(ms) =>
      if ms == [] then Some(NoPage)
      else if |ms| == 2 && ms[0].0 == "url" && ms[0].1.JString? && ms[1].0 == "recorded_events"
              && ms[1].1.JArray? then
        match EventsFromJson(ms[1].1.items)
        case Some(evs) => Some(Visited(ms[0].1.str, evs))
        case None => None
      else None
    case _ => None
  }

  function PagesFromJson(js: seq<Json>): Option<seq<Page>>
    decreases |js|
  {
    if js == [] then Some([])
    else match (PageFromJson(js[0]), PagesFromJson(js[1..]))
      case (Some(p), Some(ps)) => Some([p] + ps)
      case _ => None
  }

  function ImportJson(j: Json): Option<seq<Page>>
  {
    if j.JArray? then PagesFromJson(j.items) else None
  }

  lemma {:induction false} EventsRoundTrip(events: seq<Event>)
    ensures EventsFromJson(EventsToJson(events)) == Some(events)
    decreases |events|
  {
    if events != [] {
      EventsRoundTrip(events[1..]);
      assert [events[0]] + events[1..] == events;
    }
  }

  lemma {:induction false} PagesRoundTrip(pages: seq<Page>)
    ensures PagesFromJson(PagesToJson(pages)) == Some(pages)
    decreases |pages|
  {
    if pages != [] {
      if pages[0].Visited? {
        EventsRoundTrip(pages[0].recordedEvents);
      }
      PagesRoundTrip(pages[1..]);
      assert [pages[0]] + pages[1..] == pages;
    }
  }

  /** The export keeps every page and every event, in order: reading it back gives the recorded pages. */
  lemma {:induction false} ExportRoundTrip(pages: seq<Page>)
    ensures ImportJson(ExportJson(pages)) == Some(pages)
  {
    PagesRoundTrip(pages);
  }

  /** Different recordings export to different documents. */
  lemma {:induction false} ExportInjective(p1: seq<Page>, p2: seq<Page>)
    requires ExportJson(p1) == ExportJson(p2)
    ensures p1 == p2
  {
    ExportRoundTrip(p1);
    ExportRoundTrip(p2);
  }
}
