/** Properties of the business-management component that relate several
    transitions: how breadcrumb clicks, menu clicks, the agent modal and the
    stored path undo or repeat each other. */
module BusinessLaws {
  import opened Js
  import opened Breadcrumbs
  import opened Menu
  import opened Remote
  import opened Business
  import opened BusinessMenu

  /** A breadcrumb click repeated on the same entry changes nothing more. */
  lemma BreadcrumbNavigationIdempotent(ui: Ui, h: Helpers, titleLabel: string, id: string, caption: string)
    ensures var once := HandlerBreadcrumbNavigation(ui, h, titleLabel, id, caption);
            HandlerBreadcrumbNavigation(once, h, titleLabel, id, caption) == once
  {
    if id != RootId {
      TruncateIdempotent(ui.breadcrumb, id);
    }
  }

  /** Drilling into a branch and then clicking the breadcrumb entry it created
      (an id not yet on the path) leaves the path ending at that entry. */
  lemma BreadcrumbBackToDrilledBranch(ui: Ui, h: Helpers, locationHref: string, titleLabel: string,
                                      id: string, caption: string, embed: Response<EmbedData>, company: Response<()>)
    requires id != RootId && !HasId(ui.breadcrumb, id)
    requires var found := h.findDeep(ui.breadcrumb + [Crumb(id, caption)], ui.options);
             found.Some? && !Truthy(found.value.url)
    ensures var clicked := HandlerButtonLarge(ui, h, locationHref, id, caption, embed, company);
            var back := HandlerBreadcrumbNavigation(clicked.ui, h, titleLabel, id, caption);
            back.breadcrumb == ui.breadcrumb + [Crumb(id, caption)]
            && back.optionsList == h.objectList(ui.breadcrumb + [Crumb(id, caption)], ui.options)
            && back.title == caption
  {
    TruncateAtPushed(ui.breadcrumb, Crumb(id, caption));
  }

  /** Cancelling the agent modal after a menu click restores the path the click
      started from, for every click but a new-tab leaf (which restored it
      already). */
  lemma CancelRestoresPath(ui: Ui, h: Helpers, locationHref: string, id: string, caption: string,
                           embed: Response<EmbedData>, company: Response<()>)
    requires var found := h.findDeep(ui.breadcrumb + [Crumb(id, caption)], ui.options);
             !(found.Some? && Truthy(found.value.url) && KindOf(found.value.option) == NuevaVentana)
    ensures var clicked := HandlerButtonLarge(ui, h, locationHref, id, caption, embed, company);
            HandlerCloseAgentModal(clicked.ui).breadcrumb == ui.breadcrumb
  {
  }

  /** A click on a closed modal opens it only on a `TECNORED` or
      `OFICINAVIRTUAL` leaf, never after a failed answer, after a success only
      when it brought agents and no URL, and an open modal never shows a frame.
      (A rejected call keeps the previous URL and agents, so those decide.) */
  lemma ModalOnlyFromAgentAnswer(ui: Ui, h: Helpers, locationHref: string, id: string, caption: string,
                                 embed: Response<EmbedData>, company: Response<()>)
    requires !ui.showModal
    ensures var s := HandlerButtonLarge(ui, h, locationHref, id, caption, embed, company);
            s.ui.showModal ==>
              && var found := h.findDeep(ui.breadcrumb + [Crumb(id, caption)], ui.options);
              && found.Some? && Truthy(found.value.url)
              && KindOf(found.value.option) in {Tecnored, OficinaVirtual}
              && !embed.NotOk?
              && (embed.Ok? ==> !Truthy(embed.data.url)
                                && embed.data.agents.Some? && |embed.data.agents.value| > 0)
              && !Truthy(s.ui.showIframe)
  {
  }

  /** The converse, for a success answer: a `TECNORED` or `OFICINAVIRTUAL`
      leaf opens the agent modal exactly when the answer brought a non-empty
      agent list and no URL. */
  lemma ModalIffAgentsWithoutUrl(ui: Ui, h: Helpers, locationHref: string, id: string, caption: string,
                                 data: EmbedData, company: Response<()>)
    requires var found := h.findDeep(ui.breadcrumb + [Crumb(id, caption)], ui.options);
             found.Some? && Truthy(found.value.url) && KindOf(found.value.option) in {Tecnored, OficinaVirtual}
    ensures var s := HandlerButtonLarge(ui, h, locationHref, id, caption, Ok(data), company);
            s.ui.showModal <==> !Truthy(data.url) && data.agents.Some? && |data.agents.value| > 0
  {
  }

  /** Only the answer of the call a click actually makes matters: a drill-down
      ignores both answers, a validated leaf ignores the embed answer and an
      embedded leaf ignores the validation answer. */
  lemma OnlyTheCalledEndpointMatters(ui: Ui, h: Helpers, locationHref: string, id: string, caption: string,
                                     embed1: Response<EmbedData>, embed2: Response<EmbedData>,
                                     company1: Response<()>, company2: Response<()>)
    ensures var found := h.findDeep(ui.breadcrumb + [Crumb(id, caption)], ui.options);
            found.Some? && Truthy(found.value.url) && KindOf(found.value.option) == DefaultKind ==>
              HandlerButtonLarge(ui, h, locationHref, id, caption, embed1, company1)
              == HandlerButtonLarge(ui, h, locationHref, id, caption, embed2, company1)
    ensures var found := h.findDeep(ui.breadcrumb + [Crumb(id, caption)], ui.options);
            found.Some? && Truthy(found.value.url) && KindOf(found.value.option) != DefaultKind ==>
              HandlerButtonLarge(ui, h, locationHref, id, caption, embed1, company1)
              == HandlerButtonLarge(ui, h, locationHref, id, caption, embed1, company2)
    ensures var found := h.findDeep(ui.breadcrumb + [Crumb(id, caption)], ui.options);
            !(found.Some? && Truthy(found.value.url)) ==>
              HandlerButtonLarge(ui, h, locationHref, id, caption, embed1, company1)
              == HandlerButtonLarge(ui, h, locationHref, id, caption, embed2, company2)
  {
  }

  /** The request sent after the agent choice is the leaf's first request
      rebuilt: for `TECNORED` the same object with the chosen account; for
      `OFICINAVIRTUAL` the same object without the user ONE, with the chosen
      account and the role's id. */
  lemma SelectionRebuildsLeafRequest(ui: Ui, h: Helpers, locationHref: string, node: MenuNode,
                                     agent: Val, role: Option<RoleChoice>)
    ensures KindOf(node.option) == Tecnored ==>
              Fields(SelectionRequest(ui, h, node, agent, role).value)
              == Fields(LeafRequest(ui, h, locationHref, node))["account" := agent]
    ensures KindOf(node.option) == OficinaVirtual && role.Some? ==>
              Fields(SelectionRequest(ui, h, node, agent, role).value)
              == (Fields(LeafRequest(ui, h, locationHref, node)) - {"oneUser"})["account" := agent]["role" := role.value.id]
  {
  }

  /** A failed embed answer and a failed validation answer clear the same
      display state the same way. */
  lemma FailuresClearAlike(ui: Ui, req1: Request, req2: Request, status1: Status, status2: Status, message: Val)
    ensures var e := AddEmbedded(ui, req1, NotOk(status1, message)).ui;
            var v := ValidateCompanyAccess(ui, req2, NotOk(status2, message)).ui;
            e.optionUrl == v.optionUrl == Undefined && e.optionsList == v.optionsList == []
            && e.agentsList == v.agentsList == [] && e.optionError == v.optionError == message
  {
  }

  /** A new-tab leaf stores the path the click started from; a later visit with
      a `redirect` parameter restores exactly that path and, with the corrected
      continuation, never ends on the error page (for the continuation as
      written see `NewTabPathRoundTripAsWritten`). */
  lemma NewTabPathRoundTrip(ui: Ui, h: Helpers, locationHref: string, titleLabel: string, id: string, caption: string,
                            embed: Response<EmbedData>, company: Response<()>,
                            later: Ui, data: MenuData, redirect: Val)
    requires var found := h.findDeep(ui.breadcrumb + [Crumb(id, caption)], ui.options);
             found.Some? && Truthy(found.value.url) && KindOf(found.value.option) == NuevaVentana
    requires Truthy(redirect)
    ensures var clicked := HandlerButtonLarge(ui, h, locationHref, id, caption, embed, company);
            && clicked.ui.breadcrumb == ui.breadcrumb
            && StoreBreadcrumb(ui.breadcrumb) in clicked.effects
            && var loaded := GetMenuAndCookiesList(later, h, titleLabel, later.userOne, Ok(data), redirect, Some(ui.breadcrumb));
            && loaded.ui.breadcrumb == ui.breadcrumb
            && NavigateErrorPage(None) !in loaded.effects
  {
    var clicked := HandlerButtonLarge(ui, h, locationHref, id, caption, embed, company);
    assert clicked.ui.breadcrumb == ui.breadcrumb && StoreBreadcrumb(ui.breadcrumb) in clicked.effects;
    var loaded := GetMenuAndCookiesList(later, h, titleLabel, later.userOne, Ok(data), redirect, Some(ui.breadcrumb));
    assert forall i :: 0 <= i < |loaded.effects| ==> !loaded.effects[i].NavigateErrorPage?;
  }

  /** The round trip through the code as written: a new-tab leaf clicked below
      the top level stores a non-empty path, and choosing a user on a later
      visit with a `redirect` parameter restores exactly that path without the
      error page. */
  lemma NewTabPathRoundTripAsWritten(ui: Ui, h: Helpers, locationHref: string, titleLabel: string, id: string,
                                     caption: string, embed: Response<EmbedData>, company: Response<()>,
                                     later: Ui, user: Val, data: MenuData, redirect: Val)
    requires var found := h.findDeep(ui.breadcrumb + [Crumb(id, caption)], ui.options);
             found.Some? && Truthy(found.value.url) && KindOf(found.value.option) == NuevaVentana
    requires Truthy(redirect) && ui.breadcrumb != []
    ensures var clicked := HandlerButtonLarge(ui, h, locationHref, id, caption, embed, company);
            && StoreBreadcrumb(ui.breadcrumb) in clicked.effects
            && var loaded := HandlerSelectedUser(later, h, titleLabel, user, Ok(data), redirect, Some(ui.breadcrumb));
            && loaded.ui.breadcrumb == ui.breadcrumb
            && loaded.ui.title == ui.breadcrumb[|ui.breadcrumb| - 1].caption
            && NavigateErrorPage(None) !in loaded.effects
  {
  }

  /** The continuation as written and the corrected one differ only on the
      defect: a success answer restoring an empty path. */
  lemma AsWrittenAgreesOffTheDefect(ui: Ui, h: Helpers, titleLabel: string, userOne: Val,
                                    resp: Response<MenuData>, redirect: Val, stored: Option<seq<Crumb>>)
    ensures !(resp.Ok? && Truthy(redirect) && stored == Some([])) <==>
              GetMenuAndCookiesListAsWritten(ui, h, titleLabel, userOne, resp, redirect, stored)
              == GetMenuAndCookiesList(ui, h, titleLabel, userOne, resp, redirect, stored)
  {
  }

  /** The defect of the continuation as written: the path a new-tab leaf stores
      when clicked at the top level is empty, and restoring it ends on the
      error page instead of the top-level menu. */
  lemma EmptyStoredPathReachesErrorPage(ui: Ui, h: Helpers, titleLabel: string, data: MenuData, redirect: Val)
    requires Truthy(redirect)
    ensures var asWritten := GetMenuAndCookiesListAsWritten(ui, h, titleLabel, ui.userOne, Ok(data), redirect, Some([]));
            asWritten.effects[|asWritten.effects| - 1] == NavigateErrorPage(None)
    ensures var corrected := GetMenuAndCookiesList(ui, h, titleLabel, ui.userOne, Ok(data), redirect, Some([]));
            NavigateErrorPage(None) !in corrected.effects && corrected.ui.title == titleLabel
  {
  }

  /** The defect of the new-tab leaf as written: when the embed call is
      rejected the handler goes to the error page and still opens a tab, on
      the URL a previous click left behind. */
  lemma RejectedNewTabUsesStaleUrl(ui: Ui, h: Helpers, locationHref: string, id: string, caption: string,
                                   company: Response<()>)
    requires var found := h.findDeep(ui.breadcrumb + [Crumb(id, caption)], ui.options);
             found.Some? && Truthy(found.value.url) && KindOf(found.value.option) == NuevaVentana
    requires ui.optionUrl != Undefined
    ensures var s := HandlerButtonLarge(ui, h, locationHref, id, caption, Rejected, company);
            NavigateErrorPage(None) in s.effects && OpenTab(ui.optionUrl) in s.effects
  {
  }

  /** The corrected new-tab leaf agrees with the code whenever the embed call
      is answered, and differs only by opening no tab after a rejection. */
  lemma NewTabLeafAgreesUnlessRejected(ui: Ui, h: Helpers, locationHref: string, node: MenuNode,
                                       embed: Response<EmbedData>, company: Response<()>)
    requires Truthy(node.url) && KindOf(node.option) == NuevaVentana
    ensures !embed.Rejected? ==> NewTabLeaf(ui, h, locationHref, node, embed) == Leaf(ui, h, locationHref, node, embed, company)
    ensures embed.Rejected? ==> !OpensTab(NewTabLeaf(ui, h, locationHref, node, embed).effects)
  {
  }

  /** When the backend knows exactly one user ONE, that user is selected on
      load and closing the user picker stays on the page. */
  lemma SingleUserIsSelected(ui: Ui, h: Helpers, titleLabel: string, pageName: string, user: string,
                             menu: Response<MenuData>, redirect: Val, stored: Option<seq<Crumb>>)
    requires user != ""
    ensures var s := Connected(ui, h, titleLabel, pageName, Ok([user]), menu, redirect, stored);
            s.ui.userOne == Str(user) && HandlerCloseUserModal(s.ui) == []
  {
  }

  /** Cookie names round-trip: the name of `name=value` is `name` whenever the
      name itself has no `=`. */
  lemma CookieNameOfPair(name: string, value: string)
    requires '=' !in name
    ensures NameOfCookie(name + "=" + value) == name
  {
    SplitHeadOfJoin(name, '=', value);
  }

  /** The three menu pages have distinct root captions. */
  lemma RootCaptionsDistinct(p: string, q: string)
    requires Root(p) != Undefined && Root(p) == Root(q)
    ensures p == q
  {
  }

  /** The community page name is the menu page followed by `__c`; stripping
      the suffix gives the menu page back whenever the page itself has no
      `__c`, so the root caption is that page's. */
  lemma PageNameRoundTrip(p: string)
    requires forall j :: !OccursAt(p, "__c", j)
    ensures SplitHead(p + "__c", "__c") == p
    ensures Root(SplitHead(p + "__c", "__c")) == Root(p)
  {
    var s := p + "__c";
    var head := SplitHead(s, "__c");
    assert OccursAt(s, "__c", |p|) by {
      assert s[|p|..|p| + 3] == "__c";
    }
    forall j | 0 <= j < |p|
      ensures !OccursAt(s, "__c", j)
    {
      if j + 3 <= |p| {
        assert s[j..j + 3] == p[j..j + 3];
        assert !OccursAt(p, "__c", j);
      } else {
        assert s[j + 2] == '_';
        assert s[j..j + 3][2] == s[j + 2];
      }
    }
    assert |head| == |p|;
    assert head == s[..|p|] == p;
  }
}
