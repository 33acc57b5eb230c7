/** The business-management component driven by a sequence of user events,
    handled one after another as the framework dispatches them: breadcrumb
    clicks, menu clicks (each with the answers its remote calls get) and
    cancelling the agent modal. Only the display state is kept. */
module BusinessRun {
  import opened Js
  import opened Breadcrumbs
  import opened Menu
  import opened Remote
  import opened Business
  import opened BusinessMenu

  datatype Event =
    | BreadcrumbClick(id: string, caption: string)
    | MenuClick(id: string, caption: string, embed: Response<EmbedData>, company: Response<()>)
    | CancelAgentModal

  /** The display state after one event. */
  function Apply(ui: Ui, h: Helpers, locationHref: string, titleLabel: string, e: Event): (r: Ui)
    ensures e.BreadcrumbClick? ==> r.breadcrumb <= ui.breadcrumb
    ensures e.CancelAgentModal? ==> r.breadcrumb <= ui.breadcrumb
    ensures e.MenuClick? ==>
              r.breadcrumb == ui.breadcrumb || r.breadcrumb == ui.breadcrumb + [Crumb(e.id, e.caption)]
  {
    match e
    case BreadcrumbClick(id, caption) => HandlerBreadcrumbNavigation(ui, h, titleLabel, id, caption)
    case MenuClick(id, caption, embed, company) => HandlerButtonLarge(ui, h, locationHref, id, caption, embed, company).ui
    case CancelAgentModal => HandlerCloseAgentModal(ui)
  }

  /** The display state after every event, in order. */
  function Run(ui: Ui, h: Helpers, locationHref: string, titleLabel: string, events: seq<Event>): Ui
    decreases |events|
  {
    if |events| == 0 then ui
    else Run(Apply(ui, h, locationHref, titleLabel, events[0]), h, locationHref, titleLabel, events[1..])
  }

  /** The entries the menu clicks of a run would push. */
  function Clicked(events: seq<Event>): (r: set<Crumb>)
    ensures forall i :: 0 <= i < |events| && events[i].MenuClick? ==>
              Crumb(events[i].id, events[i].caption) in r
    ensures forall c :: c in r ==>
              exists i :: 0 <= i < |events| && events[i].MenuClick? && c == Crumb(events[i].id, events[i].caption)
    decreases |events|
  {
    if |events| == 0 then {}
    else
      var rest := Clicked(events[1..]);
      assert forall i :: 1 <= i < |events| ==> events[i] == events[1..][i - 1];
      if events[0].MenuClick? then {Crumb(events[0].id, events[0].caption)} + rest else rest
  }

  /** Each event deepens the path by at most one entry. */
  lemma {:induction false} RunDepthBound(ui: Ui, h: Helpers, locationHref: string, titleLabel: string, events: seq<Event>)
    ensures |Run(ui, h, locationHref, titleLabel, events).breadcrumb| <= |ui.breadcrumb| + |events|
    decreases |events|
  {
    if |events| > 0 {
      var next := Apply(ui, h, locationHref, titleLabel, events[0]);
      RunDepthBound(next, h, locationHref, titleLabel, events[1..]);
    }
  }

  /** Breadcrumb clicks and cancellations never deepen the path: after any run
      of them the path is a prefix of the one it started from. */
  lemma {:induction false} BackwardRunShortens(ui: Ui, h: Helpers, locationHref: string, titleLabel: string, events: seq<Event>)
    requires forall i :: 0 <= i < |events| ==> !events[i].MenuClick?
    ensures Run(ui, h, locationHref, titleLabel, events).breadcrumb <= ui.breadcrumb
    decreases |events|
  {
    if |events| > 0 {
      var next := Apply(ui, h, locationHref, titleLabel, events[0]);
      assert forall i :: 0 <= i < |events[1..]| ==> events[1..][i] == events[i + 1];
      BackwardRunShortens(next, h, locationHref, titleLabel, events[1..]);
    }
  }

  /** Every entry on the path after a run was either on it at the start or
      pushed by one of the run's menu clicks. */
  lemma {:induction false} PathEntriesHaveOrigin(ui: Ui, h: Helpers, locationHref: string, titleLabel: string, events: seq<Event>)
    ensures forall c :: c in Run(ui, h, locationHref, titleLabel, events).breadcrumb ==>
              c in ui.breadcrumb || c in Clicked(events)
    decreases |events|
  {
    if |events| > 0 {
      var next := Apply(ui, h, locationHref, titleLabel, events[0]);
      PathEntriesHaveOrigin(next, h, locationHref, titleLabel, events[1..]);
      forall c | c in next.breadcrumb
        ensures c in ui.breadcrumb || c in Clicked(events)
      {
        if events[0].MenuClick? && c !in ui.breadcrumb {
          assert c == Crumb(events[0].id, events[0].caption);
        } else if !events[0].MenuClick? {
          var k :| 0 <= k < |next.breadcrumb| && next.breadcrumb[k] == c;
          assert ui.breadcrumb[k] == c;
        }
      }
      assert forall i :: 0 <= i < |events[1..]| ==> events[1..][i] == events[i + 1];
    }
  }

  /** From the freshly constructed component, every entry on the path was
      pushed by one of the run's menu clicks, and the path is no deeper than
      the number of events. */
  lemma FromInitialEveryEntryWasClicked(storedUser: Val, h: Helpers, locationHref: string, titleLabel: string,
                                        events: seq<Event>)
    ensures var r := Run(Initial(storedUser, titleLabel), h, locationHref, titleLabel, events);
            && (forall c :: c in r.breadcrumb ==> c in Clicked(events))
            && |r.breadcrumb| <= |events|
  {
    PathEntriesHaveOrigin(Initial(storedUser, titleLabel), h, locationHref, titleLabel, events);
    RunDepthBound(Initial(storedUser, titleLabel), h, locationHref, titleLabel, events);
  }
}
