/** Menu clicks of the business-management component: drill-down into a branch,
    dispatch of a leaf on its option code, and the agent/role modal that an
    embed answer with several agent accounts opens. */
module BusinessMenu {
  import opened Js
  import opened Breadcrumbs
  import opened Menu
  import opened Remote
  import opened Business

  /** The agent/role modal's role choice; only its `id` is sent. */
  datatype RoleChoice = RoleChoice(id: Val)

  /** The request a leaf sends on a menu click, chosen by its option code. Every
      request carries the node's company (`icons[0]`); the four named kinds also
      carry its option code and URL and go to embed resolution; any other code
      sends the company alone, to company-access validation. */
  function LeafRequest(ui: Ui, h: Helpers, locationHref: string, node: MenuNode): (req: Request)
    ensures KindOf(node.option) == DefaultKind <==> req.CompanyRequest?
    ensures "company" in Fields(req) && Fields(req)["company"] == Head(node.icons)
    ensures KindOf(node.option) != DefaultKind ==>
              && "option" in Fields(req) && Fields(req)["option"] == node.option
              && "url" in Fields(req) && Fields(req)["url"] == node.url
    ensures KindOf(node.option) == Tecnored ==>
              && Fields(req).Keys == {"option", "url", "account", "company"}
              && Fields(req)["account"] == Null
    ensures KindOf(node.option) == OficinaVirtual ==>
              && Fields(req).Keys == {"option", "url", "account", "role", "oneUser", "userApplication", "company"}
              && Fields(req)["account"] == Null && Fields(req)["role"] == Null
              && Fields(req)["oneUser"] == ui.userOne
              && Fields(req)["userApplication"] == h.userApplication(ui.appsList, node)
    ensures KindOf(node.option) == CotizadorGlm ==>
              && Fields(req).Keys == {"option", "url", "community", "userApplication", "company"}
              && Fields(req)["community"] == Str(locationHref)
              && Fields(req)["userApplication"] == h.userApplication(ui.appsList, node)
    ensures KindOf(node.option) == NuevaVentana ==> Fields(req).Keys == {"option", "url", "company"}
    ensures KindOf(node.option) == DefaultKind ==> Fields(req).Keys == {"company"}
  {
    var company := Head(node.icons);
    match KindOf(node.option)
    case Tecnored => TecnoredRequest(node.option, node.url, Null, company)
    case OficinaVirtual =>
      OficinaVirtualRequest(node.option, node.url, Null, Null, ui.userOne,
                            h.userApplication(ui.appsList, node), company)
    case CotizadorGlm =>
      CotizadorRequest(node.option, node.url, Str(locationHref), h.userApplication(ui.appsList, node), company)
    case NuevaVentana => NuevaVentanaRequest(node.option, node.url, company)
    case DefaultKind => CompanyRequest(company)
  }

  /** The endpoint a leaf's request goes to. */
  function EndpointOf(k: OptionKind): Endpoint
  {
    if k == DefaultKind then ValidateCompanyAccessApex else AddEmbeddedApex
  }

  /** Some effect opens a browser tab. */
  predicate OpensTab(effects: seq<Effect>)
  {
    exists i :: 0 <= i < |effects| && effects[i].OpenTab?
  }

  /** No effect after the first one is a remote call. */
  predicate NoLaterCall(effects: seq<Effect>)
  {
    forall i :: 1 <= i < |effects| ==> !effects[i].CallApex?
  }

  /** After an embed answer for `TECNORED` or `OFICINAVIRTUAL`: the frame shows
      the returned URL, and the agent modal opens exactly when agents came back
      without a URL. */
  function ShowEmbedOrModal(s: Step): (r: Step)
    ensures r.ui.showIframe == r.ui.iframeUrl == r.ui.optionUrl == s.ui.optionUrl
    ensures r.ui.showModal <==> |s.ui.agentsList| > 0 && !Truthy(s.ui.optionUrl)
    ensures r.effects == s.effects
    ensures r.ui == s.ui.(showIframe := r.ui.showIframe, iframeUrl := r.ui.iframeUrl, showModal := r.ui.showModal)
  {
    Step(s.ui.(showIframe := s.ui.optionUrl, iframeUrl := s.ui.optionUrl,
               showModal := |s.ui.agentsList| > 0 && !Truthy(s.ui.optionUrl)), s.effects)
  }

  /** `NUEVAVENTANA` after its embed answer: the pushed entry is popped again,
      the restored path is stored, and a tab opens on the returned URL unless
      that URL is `undefined`. */
  function OpenInNewTab(e: Step): (s: Step)
    ensures s.ui == e.ui.(breadcrumb := Pop(e.ui.breadcrumb))
    ensures |s.effects| > |e.effects| && s.effects[..|e.effects|] == e.effects
    ensures StoreBreadcrumb(s.ui.breadcrumb) in s.effects[|e.effects|..]
    ensures forall i :: |e.effects| <= i < |s.effects| ==> !s.effects[i].CallApex?
    ensures OpensTab(s.effects[|e.effects|..]) <==> e.ui.optionUrl != Undefined
    ensures forall i :: |e.effects| <= i < |s.effects| && s.effects[i].OpenTab? ==> s.effects[i].url == e.ui.optionUrl
  {
    var back := Pop(e.ui.breadcrumb);
    var tab := if e.ui.optionUrl != Undefined then [OpenTab(e.ui.optionUrl)] else [];
    var later := [StoreBreadcrumb(back)] + tab;
    assert later[0] == StoreBreadcrumb(back);
    assert tab != [] ==> later[1] == OpenTab(e.ui.optionUrl);
    assert (e.effects + later)[|e.effects|..] == later;
    Step(e.ui.(breadcrumb := back), e.effects + later)
  }

  /** The effects of the `NUEVAVENTANA` branch as written: the embed call (and
      the error page when it was rejected), then the store of the popped path
      and a tab on `url` unless it is `undefined`. */
  function NewTabEffects(req: Request, rejected: bool, back: seq<Crumb>, url: Val): (effects: seq<Effect>)
    ensures |effects| > 0 && effects[0] == CallApex(AddEmbeddedApex, req)
    ensures NoLaterCall(effects)
    ensures StoreBreadcrumb(back) in effects
    ensures OpensTab(effects) <==> url != Undefined
    ensures forall i :: 0 <= i < |effects| && effects[i].OpenTab? ==> effects[i].url == url
    ensures rejected <==> NavigateErrorPage(None) in effects
  {
    var call := CallApex(AddEmbeddedApex, req);
    var tab := if url != Undefined then [OpenTab(url)] else [];
    var effects := (if rejected then [call, NavigateErrorPage(None)] else [call]) + [StoreBreadcrumb(back)] + tab;
    assert tab != [] ==> effects[|effects| - 1] == OpenTab(url);
    effects
  }

  /** The whole `NUEVAVENTANA` branch as written: the embed call, then the pop,
      the store and the tab on whatever `optionUrl` then holds. */
  function NewTabAfterEmbed(ui: Ui, req: Request, embed: Response<EmbedData>): (s: Step)
    ensures |s.effects| > 0 && s.effects[0] == CallApex(AddEmbeddedApex, req)
    ensures NoLaterCall(s.effects)
    ensures s.ui == AddEmbedded(ui, req, embed).ui.(breadcrumb := Pop(ui.breadcrumb))
    ensures StoreBreadcrumb(s.ui.breadcrumb) in s.effects
    ensures OpensTab(s.effects) <==> s.ui.optionUrl != Undefined
    ensures forall i :: 0 <= i < |s.effects| && s.effects[i].OpenTab? ==> s.effects[i].url == s.ui.optionUrl
    ensures embed.Rejected? <==> NavigateErrorPage(None) in s.effects
  {
    var e := AddEmbedded(ui, req, embed);
    var back := Pop(e.ui.breadcrumb);
    Step(e.ui.(breadcrumb := back), NewTabEffects(req, embed.Rejected?, back, e.ui.optionUrl))
  }

  /** The default branch after its validation answer: on a valid company the
      frame shows the node's own URL, otherwise it is hidden. */
  function ShowIfValidCompany(v: Step, node: MenuNode): (s: Step)
    ensures s.ui.showIframe == Bool(Truthy(v.ui.isValidCompany))
    ensures Truthy(v.ui.isValidCompany) ==> s.ui.iframeUrl == node.url
    ensures s.ui == v.ui.(showIframe := s.ui.showIframe, iframeUrl := s.ui.iframeUrl)
    ensures s.effects == v.effects
  {
    if Truthy(v.ui.isValidCompany) then Step(v.ui.(iframeUrl := node.url, showIframe := Bool(true)), v.effects)
    else Step(v.ui.(showIframe := Bool(false)), v.effects)
  }

  /** The `switch` of `handlerButtonLarge` on a leaf (a node with a URL), after
      the click has been pushed onto the path. Exactly one remote call is made,
      first, to the endpoint the option code selects:
      - `TECNORED`, `OFICINAVIRTUAL`: the frame follows the returned URL and the
        agent modal opens when agents came back without a URL;
      - `COTIZADORGLM`: the frame shows, whatever the answer;
      - `NUEVAVENTANA`: the pushed entry is popped again, the path is stored, and
        a tab opens on the returned URL unless it is `undefined`; no frame or
        modal change;
      - any other code: on a valid company the frame shows the node's own URL,
        otherwise it is hidden; the modal is untouched. */
  function Leaf(ui: Ui, h: Helpers, locationHref: string, node: MenuNode,
                embed: Response<EmbedData>, company: Response<()>): (s: Step)
    requires Truthy(node.url)
    ensures |s.effects| > 0
    ensures s.effects[0] == CallApex(EndpointOf(KindOf(node.option)), LeafRequest(ui, h, locationHref, node))
    ensures NoLaterCall(s.effects)
    ensures !s.ui.loading
    ensures s.ui.title == ui.title
    ensures KindOf(node.option) in {Tecnored, OficinaVirtual} ==>
              && s.ui.showIframe == s.ui.iframeUrl == s.ui.optionUrl
              && (s.ui.showModal <==> |s.ui.agentsList| > 0 && !Truthy(s.ui.optionUrl))
              && s.ui.breadcrumb == ui.breadcrumb
    ensures KindOf(node.option) == CotizadorGlm ==>
              && s.ui.showIframe == Bool(true) && s.ui.iframeUrl == s.ui.optionUrl
              && s.ui.showModal == ui.showModal && s.ui.breadcrumb == ui.breadcrumb
    ensures KindOf(node.option) == NuevaVentana ==>
              && s.ui.breadcrumb == Pop(ui.breadcrumb)
              && StoreBreadcrumb(s.ui.breadcrumb) in s.effects
              && (OpensTab(s.effects) <==> s.ui.optionUrl != Undefined)
              && s.ui.showIframe == ui.showIframe && s.ui.iframeUrl == ui.iframeUrl
              && s.ui.showModal == ui.showModal
    ensures KindOf(node.option) != DefaultKind ==>
              && (embed.Ok? ==>
                    && s.ui.optionUrl == embed.data.url && s.ui.optionError == Undefined
                    && s.ui.agentsList == (if embed.data.agents.Some? then embed.data.agents.value else []))
              && (embed.NotOk? ==>
                    && s.ui.optionUrl == Undefined && s.ui.agentsList == [] && s.ui.optionsList == []
                    && s.ui.optionError == embed.message)
              && (embed.Rejected? ==>
                    && s.ui.optionUrl == ui.optionUrl && s.ui.agentsList == ui.agentsList
                    && NavigateErrorPage(None) in s.effects)
    ensures KindOf(node.option) == NuevaVentana ==>
              forall i :: 0 <= i < |s.effects| && s.effects[i].OpenTab? ==> s.effects[i].url == s.ui.optionUrl
    ensures KindOf(node.option) == DefaultKind ==>
              && s.ui.showIframe == Bool(Truthy(s.ui.isValidCompany))
              && (Truthy(s.ui.isValidCompany) ==> s.ui.iframeUrl == node.url)
              && (company.Ok? ==> s.ui.showIframe == Bool(true) && s.ui.iframeUrl == node.url)
              && (company.NotOk? ==> s.ui.showIframe == Bool(false) && s.ui.optionsList == [])
              && s.ui.showModal == ui.showModal && s.ui.breadcrumb == ui.breadcrumb
  {
    var req := LeafRequest(ui, h, locationHref, node);
    match KindOf(node.option)
    case Tecnored => ShowEmbedOrModal(AddEmbedded(ui, req, embed))
    case OficinaVirtual => ShowEmbedOrModal(AddEmbedded(ui, req, embed))
    case CotizadorGlm =>
      var e := AddEmbedded(ui, req, embed);
      Step(e.ui.(iframeUrl := e.ui.optionUrl, showIframe := Bool(true)), e.effects)
    case NuevaVentana => NewTabAfterEmbed(ui, req, embed)
    case DefaultKind => ShowIfValidCompany(ValidateCompanyAccess(ui, req, company), node)
  }

  /** The `NUEVAVENTANA` leaf as evidently intended: a rejected embed call
      leaves for the error page and opens no tab, so a tab only ever opens on
      the URL this click's own answer returned. The path is popped and stored
      as in the code. */
  function NewTabLeaf(ui: Ui, h: Helpers, locationHref: string, node: MenuNode, embed: Response<EmbedData>): (s: Step)
    requires KindOf(node.option) == NuevaVentana
    ensures |s.effects| > 0 && s.effects[0] == CallApex(AddEmbeddedApex, LeafRequest(ui, h, locationHref, node))
    ensures NoLaterCall(s.effects)
    ensures s.ui.breadcrumb == Pop(ui.breadcrumb) && StoreBreadcrumb(s.ui.breadcrumb) in s.effects
    ensures OpensTab(s.effects) <==> embed.Ok? && embed.data.url != Undefined
    ensures forall i :: 0 <= i < |s.effects| && s.effects[i].OpenTab? ==> embed.Ok? && s.effects[i].url == embed.data.url
    ensures embed.Rejected? <==> NavigateErrorPage(None) in s.effects
  {
    var e := AddEmbedded(ui, LeafRequest(ui, h, locationHref, node), embed);
    if embed.Rejected? then
      var back := Pop(e.ui.breadcrumb);
      var s := Step(e.ui.(breadcrumb := back), e.effects + [StoreBreadcrumb(back)]);
      assert s.effects == [e.effects[0], NavigateErrorPage(None), StoreBreadcrumb(back)];
      s
    else
      var s := OpenInNewTab(e);
      assert |e.effects| == 1 && s.effects[0] == e.effects[0];
      assert forall i :: 0 <= i < |s.effects| ==> !s.effects[i].NavigateErrorPage?;
      s
  }

  /** `handlerButtonLarge`: the clicked `{id, label}` is pushed onto the path
      and the node it leads to is looked up (a path that leads nowhere makes the
      lookup's result unusable and the handler throw). A node without a URL
      makes no remote call and shows its children; a node with one is
      dispatched as a leaf. Either way the title becomes the clicked label, and
      the path keeps the pushed entry unless the leaf opens a new tab. */
  function HandlerButtonLarge(ui: Ui, h: Helpers, locationHref: string, id: string, caption: string,
                              embed: Response<EmbedData>, company: Response<()>): (s: Step)
    ensures var pushed := ui.breadcrumb + [Crumb(id, caption)];
            h.findDeep(pushed, ui.options).None? ==>
              s == Step(ui.(breadcrumb := pushed), [Uncaught])
    ensures var pushed := ui.breadcrumb + [Crumb(id, caption)];
            var found := h.findDeep(pushed, ui.options);
            found.Some? ==>
              && s.ui.title == caption
              && (!Truthy(found.value.url) ==>
                    s == Step(ui.(breadcrumb := pushed, optionsList := h.listByKey(found.value), title := caption), []))
              && (Truthy(found.value.url) ==>
                    && |s.effects| > 0
                    && s.effects[0] == CallApex(EndpointOf(KindOf(found.value.option)),
                                                LeafRequest(ui, h, locationHref, found.value))
                    && NoLaterCall(s.effects))
              && (Truthy(found.value.url) && KindOf(found.value.option) == NuevaVentana ==>
                    s.ui.breadcrumb == ui.breadcrumb && StoreBreadcrumb(ui.breadcrumb) in s.effects)
              && (!Truthy(found.value.url) || KindOf(found.value.option) != NuevaVentana ==>
                    s.ui.breadcrumb == pushed)
    ensures var found := h.findDeep(ui.breadcrumb + [Crumb(id, caption)], ui.options);
            found.Some? && Truthy(found.value.url) && KindOf(found.value.option) != DefaultKind ==>
              && (embed.Ok? ==>
                    && s.ui.optionUrl == embed.data.url
                    && s.ui.agentsList == (if embed.data.agents.Some? then embed.data.agents.value else []))
              && (embed.NotOk? ==>
                    s.ui.optionUrl == Undefined && s.ui.agentsList == [] && s.ui.optionsList == [])
              && (embed.Rejected? ==>
                    && s.ui.optionUrl == ui.optionUrl && s.ui.agentsList == ui.agentsList
                    && NavigateErrorPage(None) in s.effects)
    ensures var found := h.findDeep(ui.breadcrumb + [Crumb(id, caption)], ui.options);
            found.Some? && Truthy(found.value.url) && KindOf(found.value.option) in {Tecnored, OficinaVirtual} ==>
              && s.ui.showIframe == s.ui.iframeUrl == s.ui.optionUrl
              && (s.ui.showModal <==> |s.ui.agentsList| > 0 && !Truthy(s.ui.optionUrl))
    ensures var found := h.findDeep(ui.breadcrumb + [Crumb(id, caption)], ui.options);
            found.Some? && Truthy(found.value.url) && KindOf(found.value.option) == NuevaVentana ==>
              forall i :: 0 <= i < |s.effects| && s.effects[i].OpenTab? ==> s.effects[i].url == s.ui.optionUrl
  {
    var pushed := ui.breadcrumb + [Crumb(id, caption)];
    var clicked := ui.(breadcrumb := pushed);
    match h.findDeep(pushed, ui.options)
    case None => Step(clicked, [Uncaught])
    case Some(node) =>
      if !Truthy(node.url) then Step(clicked.(optionsList := h.listByKey(node), title := caption), [])
      else
        PopAfterPush(ui.breadcrumb, Crumb(id, caption));
        assert LeafRequest(clicked, h, locationHref, node) == LeafRequest(ui, h, locationHref, node);
        var leaf := Leaf(clicked, h, locationHref, node, embed, company);
        Step(leaf.ui.(title := caption), leaf.effects)
  }

  /** `handlerCloseAgentModal`: cancelling the agent choice drops the last path
      entry (the leaf that opened the modal) and hides the modal. */
  function HandlerCloseAgentModal(ui: Ui): (r: Ui)
    ensures !r.showModal
    ensures ui.breadcrumb != [] ==> r.breadcrumb + [ui.breadcrumb[|ui.breadcrumb| - 1]] == ui.breadcrumb
    ensures ui.breadcrumb == [] ==> r.breadcrumb == []
    ensures r == ui.(breadcrumb := r.breadcrumb, showModal := false)
  {
    ui.(breadcrumb := Pop(ui.breadcrumb), showModal := false)
  }

  /** The request re-sent once an agent (and role) is chosen, for the leaf at
      the end of the path: a `TECNORED` leaf sends its first request again with
      the chosen account; any other leaf also sends the role's id and its user
      application but no user ONE. A missing role on a non-`TECNORED` leaf
      cannot be read (`None`: the handler throws). */
  function SelectionRequest(ui: Ui, h: Helpers, node: MenuNode, agent: Val, role: Option<RoleChoice>): (r: Option<Request>)
    ensures r.None? <==> KindOf(node.option) != Tecnored && role.None?
    ensures r.Some? ==>
              && {"option", "url", "account", "company"} <= Fields(r.value).Keys
              && Fields(r.value)["option"] == node.option && Fields(r.value)["url"] == node.url
              && Fields(r.value)["account"] == agent && Fields(r.value)["company"] == Head(node.icons)
              && "oneUser" !in Fields(r.value)
    ensures r.Some? && KindOf(node.option) == Tecnored ==>
              Fields(r.value).Keys == {"option", "url", "account", "company"}
    ensures r.Some? && KindOf(node.option) != Tecnored ==>
              && Fields(r.value).Keys == {"option", "url", "account", "role", "userApplication", "company"}
              && Fields(r.value)["role"] == role.value.id
              && Fields(r.value)["userApplication"] == h.userApplication(ui.appsList, node)
  {
    var company := Head(node.icons);
    if KindOf(node.option) == Tecnored then Some(TecnoredRequest(node.option, node.url, agent, company))
    else if role.None? then None
    else Some(AgentRoleRequest(node.option, node.url, agent, role.value.id,
                               h.userApplication(ui.appsList, node), company))
  }

  /** `handlerSelectedAgentAndRole`: the leaf at the end of the path is looked
      up again, its request re-sent with the chosen agent, the frame follows the
      returned URL and the modal closes; the path does not change. */
  function HandlerSelectedAgentAndRole(ui: Ui, h: Helpers, agent: Val, role: Option<RoleChoice>,
                                       embed: Response<EmbedData>): (s: Step)
    ensures s.ui.breadcrumb == ui.breadcrumb
    ensures var found := h.findDeep(ui.breadcrumb, ui.options);
            found.None? || SelectionRequest(ui, h, found.value, agent, role).None? ==>
              s == Step(ui, [Uncaught])
    ensures var found := h.findDeep(ui.breadcrumb, ui.options);
            found.Some? && SelectionRequest(ui, h, found.value, agent, role).Some? ==>
              && !s.ui.showModal
              && s.ui.showIframe == s.ui.iframeUrl == s.ui.optionUrl
              && |s.effects| > 0
              && s.effects[0] == CallApex(AddEmbeddedApex, SelectionRequest(ui, h, found.value, agent, role).value)
              && NoLaterCall(s.effects)
              && (embed.Ok? ==> s.ui.optionUrl == embed.data.url)
  {
    match h.findDeep(ui.breadcrumb, ui.options)
    case None => Step(ui, [Uncaught])
    case Some(node) =>
      match SelectionRequest(ui, h, node, agent, role)
      case None => Step(ui, [Uncaught])
      case Some(req) =>
        var e := AddEmbedded(ui, req, embed);
        Step(e.ui.(showIframe := e.ui.optionUrl, iframeUrl := e.ui.optionUrl, showModal := false), e.effects)
  }
}
