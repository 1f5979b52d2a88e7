/**
 * The recording produced by `Recorder` in webdriver_recorder.py, as values: pages, events,
 * and the recorder's state with the transitions its methods perform.  The class `Recorder`
 * (module WebdriverRecorder) updates its fields exactly as these transitions say; the
 * lemmas here are what the transitions guarantee over whole recording sessions.
 */
module Trace {
  import opened Wrappers
  import opened Selenium

  /** The centre of an element's bounding box; exact, where Python 3 uses float division. */
  datatype Location = Location(x: real, y: real)

  /** A recorded event: `{'event_type': 'click', ...}` or `{'event_type': 'send_keys', 'text': ...}`. */
  datatype Event = Click(location: Location) | SendKeys(text: string, location: Location)

  /**
   * A page record.  `NoPage` is the empty dict `{}` that stands for "no page open" and that
   * `close` appends when no navigation has happened.
   */
  datatype Page = NoPage | Visited(url: string, recordedEvents: seq<Event>)

  /**
   * The recorder's two fields.  `close` appends the open page's dict itself, not a copy, and
   * that dict stays `_current_page`; so `_pages` is a prefix of page records that can no longer
   * change (`finalized`) followed by `aliases` entries that are the open page itself, and an
   * event recorded later shows up in each of them.  A navigation rebinds `_current_page` to a
   * new dict, which ends the aliasing.
   */
  datatype Session = Session(finalized: seq<Page>, current: Page, aliases: nat)

  /** The list `_pages` as it reads at this point: the finalized records, then the aliased ones. */
  function Pages(s: Session): (pages: seq<Page>)
    ensures |pages| == |s.finalized| + s.aliases
    ensures pages[..|s.finalized|] == s.finalized
    ensures forall i :: |s.finalized| <= i < |pages| ==> pages[i] == s.current
  {
    s.finalized + seq(s.aliases, i => s.current)
  }

  /** With no entry aliasing the open page, `_pages` is just the finalized records. */
  lemma NoAliasesPages(s: Session)
    requires s.aliases == 0
    ensures Pages(s) == s.finalized
  {
  }

  /** The state `start` sets up: no page recorded and no page open. */
  const STARTED: Session := Session([], NoPage, 0)

  /**
   * `_get_event_location`: position plus half the size on each axis, i.e. the point as far
   * from the left edge as from the right one, and as far from the top as from the bottom.
   */
  function EventLocation(position: Point, size: Size): (centre: Location)
    ensures centre.x - position.x as real == (position.x + size.width) as real - centre.x
    ensures centre.y - position.y as real == (position.y + size.height) as real - centre.y
  {
    Location(position.x as real + (size.width as real) / 2.0, position.y as real + (size.height as real) / 2.0)
  }

  /** The centre of a box with non-negative size lies inside the box. */
  lemma EventLocationInsideBox(position: Point, size: Size)
    requires size.width >= 0 && size.height >= 0
    ensures var c := EventLocation(position, size);
            && position.x as real <= c.x <= (position.x + size.width) as real
            && position.y as real <= c.y <= (position.y + size.height) as real
  {
  }

  /** Example: an element at (10, 20) of size 100 by 40 is recorded at (60, 40). */
  lemma EventLocationExample()
    ensures EventLocation(Point(10, 20), Size(100, 40)) == Location(60.0, 40.0)
  {
  }

  /**
   * `on_navigate_to_url`: the open page, if any, goes to the end of `_pages` (everything
   * already there is kept), and an empty page for `url` is opened that no entry aliases.
   */
  function Navigate(s: Session, url: string): (t: Session)
    ensures Pages(t) == Pages(s) + (if s.current.Visited? then [s.current] else [])
    ensures t.current == Visited(url, []) && t.aliases == 0
  {
    Session(Pages(s) + (if s.current.Visited? then [s.current] else []), Visited(url, []), 0)
  }

  /**
   * `_add_event`: append one event to the open page's events (a KeyError when none is open).
   * The list `_pages` keeps its length; its finalized records are unchanged and the entries
   * that alias the open page now read as the updated page.
   */
  function Record(s: Session, e: Event): (t: Session)
    requires s.current.Visited?
    ensures t.current.Visited? && t.current.url == s.current.url
    ensures t.current.recordedEvents == s.current.recordedEvents + [e]
    ensures |Pages(t)| == |Pages(s)|
    ensures forall i :: 0 <= i < |Pages(s)| ==> Pages(t)[i] == (if i < |s.finalized| then Pages(s)[i] else t.current)
  {
    Session(s.finalized, Visited(s.current.url, s.current.recordedEvents + [e]), s.aliases)
  }

  /** `close`: append the open page itself to `_pages`; it stays open. */
  function Close(s: Session): (t: Session)
    ensures Pages(t) == Pages(s) + [s.current]
    ensures t.current == s.current
  {
    var t := Session(s.finalized, s.current, s.aliases + 1);
    assert Pages(t) == Pages(s) + [s.current];
    t
  }

  /**
   * Until the next `close`, recording changes only the open page: when nothing aliases it,
   * `_pages` is unchanged, and the open page's earlier events stay in front of the new one.
   */
  lemma RecordOnlyAppends(s: Session, e: Event)
    requires s.current.Visited? && s.aliases == 0
    ensures var t := Record(s, e);
            && Pages(t) == Pages(s)
            && t.current.Visited? && t.current.url == s.current.url
            && |t.current.recordedEvents| == |s.current.recordedEvents| + 1
            && t.current.recordedEvents[..|s.current.recordedEvents|] == s.current.recordedEvents
            && t.current.recordedEvents[|s.current.recordedEvents|] == e
  {
    var t := Record(s, e);
    NoAliasesPages(s);
    NoAliasesPages(t);
  }

  /**
   * An event recorded after `close` reaches the page `close` appended: recording then closing
   * and closing then recording leave the same `_pages`.
   */
  lemma RecordAfterCloseReachesClosedPage(s: Session, e: Event)
    requires s.current.Visited?
    ensures Pages(Record(Close(s), e)) == Pages(Close(Record(s, e)))
    ensures Pages(Record(Close(s), e)) == Pages(Record(s, e)) + [Record(s, e).current]
  {
    assert Record(Close(s), e) == Close(Record(s, e));
  }

  /** Example: get("u"), close(), then one event gives one page for "u" holding that event. */
  lemma RecordAfterCloseExample(u: string, e: Event)
    ensures Pages(Record(Close(Navigate(STARTED, u)), e)) == [Visited(u, [e])]
  {
    var s := Navigate(STARTED, u);
    assert Pages(s) == [];
    RecordAfterCloseReachesClosedPage(s, e);
    assert Pages(Record(s, e)) == [];
    assert Record(s, e).current == Visited(u, [] + [e]);
    assert [] + [e] == [e];
  }

  /** Closing twice appends the same page twice, as `close` never resets the open page. */
  lemma CloseTwiceRepeatsPage(s: Session)
    ensures Pages(Close(Close(s))) == Pages(s) + [s.current, s.current]
  {
  }

  /** Closing before any navigation appends the empty page `{}`. */
  lemma CloseBeforeNavigation()
    ensures Pages(Close(STARTED)) == [NoPage]
  {
  }

  /** Two navigations without events in between keep the first as a page with no events. */
  lemma NavigationsKeepEmptyPages(s: Session, u1: string, u2: string)
    ensures Pages(Navigate(Navigate(s, u1), u2))
            == Pages(s) + (if s.current.Visited? then [s.current] else []) + [Visited(u1, [])]
    ensures Navigate(Navigate(s, u1), u2).current == Visited(u2, [])
  {
  }

  // ---------------------------------------------------------------------------------------
  // Whole recording sessions

  /** What the proxies report to the recorder: a navigation, or an event on the open page. */
  datatype Action = Nav(url: string) | Fire(event: Event)

  /** Feeding actions to the recorder; `None` when an event arrives with no page open (KeyError). */
  function Run(s: Session, actions: seq<Action>): Option<Session>
    decreases |actions|
  {
    if actions == [] then Some(s)
    else match actions[0]
      case Nav(u) => Run(Navigate(s, u), actions[1..])
      case Fire(e) => if s.current.Visited? then Run(Record(s, e), actions[1..]) else None
  }

  /** The events at the front of `actions`, before its first navigation. */
  function LeadingEvents(actions: seq<Action>): seq<Event>
    decreases |actions|
  {
    if actions == [] || actions[0].Nav? then [] else [actions[0].event] + LeadingEvents(actions[1..])
  }

  /** What is left of `actions` from its first navigation on. */
  function FromNextNav(actions: seq<Action>): (rest: seq<Action>)
    ensures |rest| <= |actions|
    ensures rest != [] ==> rest[0].Nav?
    decreases |actions|
  {
    if actions == [] || actions[0].Nav? then actions else FromNextNav(actions[1..])
  }

  /**
   * Reference definition of the trace a script of actions should produce: one page per
   * navigation, in navigation order, each holding the events that follow it up to the next
   * navigation, in call order.
   */
  function Grouped(actions: seq<Action>): seq<Page>
    requires actions != [] ==> actions[0].Nav?
    decreases |actions|
  {
    if actions == [] then []
    else [Visited(actions[0].url, LeadingEvents(actions[1..]))] + Grouped(FromNextNav(actions[1..]))
  }

  /** A script run from an open page nothing aliases, then closed: the pages the script builds. */
  lemma {:induction false} RunFromOpenPage(pages: seq<Page>, url: string, events: seq<Event>, actions: seq<Action>)
    ensures Run(Session(pages, Visited(url, events), 0), actions).Some?
    ensures Pages(Close(Run(Session(pages, Visited(url, events), 0), actions).value))
            == pages + [Visited(url, events + LeadingEvents(actions))] + Grouped(FromNextNav(actions))
    decreases |actions|
  {
    var s := Session(pages, Visited(url, events), 0);
    NoAliasesPages(s);
    if actions == [] {
      assert events + [] == events;
    } else {
      var rest := actions[1..];
      match actions[0]
      case Nav(u) =>
        assert Run(s, actions) == Run(Session(pages + [Visited(url, events)], Visited(u, []), 0), rest);
        RunFromOpenPage(pages + [Visited(url, events)], u, [], rest);
        assert LeadingEvents(actions) == [] && FromNextNav(actions) == actions;
        assert Grouped(actions) == [Visited(u, LeadingEvents(rest))] + Grouped(FromNextNav(rest));
        assert [] + LeadingEvents(rest) == LeadingEvents(rest);
        assert events + [] == events;
      case Fire(e) =>
        assert Run(s, actions) == Run(Session(pages, Visited(url, events + [e]), 0), rest);
        RunFromOpenPage(pages, url, events + [e], rest);
        assert LeadingEvents(actions) == [e] + LeadingEvents(rest);
        assert FromNextNav(actions) == FromNextNav(rest);
        assert events + [e] + LeadingEvents(rest) == events + LeadingEvents(actions);
    }
  }

  /**
   * Event ordering: a script that starts with a navigation is recorded, after `close`, as
   * its pages in navigation order with each page's events in call order.
   */
  lemma {:induction false} RecordingFollowsScript(actions: seq<Action>)
    requires actions != [] && actions[0].Nav?
    ensures Run(STARTED, actions).Some?
    ensures Pages(Close(Run(STARTED, actions).value)) == Grouped(actions)
  {
    var rest := actions[1..];
    assert Pages(STARTED) == [];
    assert Run(STARTED, actions) == Run(Session([], Visited(actions[0].url, []), 0), rest);
    RunFromOpenPage([], actions[0].url, [], rest);
    assert [] + LeadingEvents(rest) == LeadingEvents(rest);
    assert Grouped(actions) == [Visited(actions[0].url, LeadingEvents(rest))] + Grouped(FromNextNav(rest));
  }

  lemma {:induction false} RunKeepsPageOpen(s: Session, actions: seq<Action>)
    requires s.current.Visited?
    ensures Run(s, actions).Some?
    decreases |actions|
  {
    if actions != [] {
      match actions[0]
      case Nav(u) => RunKeepsPageOpen(Navigate(s, u), actions[1..]);
      case Fire(e) => RunKeepsPageOpen(Record(s, e), actions[1..]);
    }
  }

  /** A fresh recorder fails exactly on scripts whose first action is an event: nothing is open yet. */
  lemma {:induction false} RunFailsIffEventFirst(actions: seq<Action>)
    ensures Run(STARTED, actions).None? <==> (actions != [] && actions[0].Fire?)
  {
    if actions != [] && actions[0].Nav? {
      RunKeepsPageOpen(Navigate(STARTED, actions[0].url), actions[1..]);
    }
  }

  /**
   * Navigations are not coalesced: u1 then u2 with no events gives, after close, an empty
   * page for u1 followed by one for u2.
   */
  lemma NavigationsNotCoalesced(u1: string, u2: string)
    ensures Run(STARTED, [Nav(u1), Nav(u2)]).Some?
    ensures Pages(Close(Run(STARTED, [Nav(u1), Nav(u2)]).value)) == [Visited(u1, []), Visited(u2, [])]
  {
    var script := [Nav(u1), Nav(u2)];
    assert script[1..] == [Nav(u2)] && [Nav(u2)][1..] == [];
    RecordingFollowsScript(script);
    assert Grouped([Nav(u2)]) == [Visited(u2, [])];
    assert Grouped(script) == [Visited(u1, [])] + Grouped([Nav(u2)]);
  }
}
