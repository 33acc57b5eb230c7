/** The home business tile component: a flat list of records, each opened in
    a modal frame, through embed resolution, or by navigating to the quoting
    page, depending on its option code and label. */
module Home {
  import opened Js
  import opened Menu
  import opened Remote

  /** One entry of the home menu. */
  datatype HomeRecord = HomeRecord(caption: Val, option: Val, url: Val, company: Val)

  /** The `data` of the home menu answer. */
  datatype HomeData = HomeData(menu: seq<HomeRecord>, cookies: seq<string>, apps: seq<AppEntry>, oneUsers: seq<Val>)

  /** The helpers the component imports from its own `./helper` module. */
  datatype HomeHelpers = HomeHelpers(
    appsByKey: seq<AppEntry> -> seq<Item>,
    userApplication: (seq<Item>, HomeRecord) -> Val)

  datatype HomeUi = HomeUi(
    options: seq<HomeRecord>,
    openModal: bool,
    firstCharge: bool,
    iframeUrl: Val,
    userOne: Val,
    apps: seq<AppEntry>,
    appsList: seq<Item>,
    componentWidth: Option<real>,
    className: string)

  datatype HomeStep = HomeStep(ui: HomeUi, effects: seq<Effect>)

  /** The label that navigates to the quoting page instead of opening the modal. */
  const QuotingLabel := "Autos Lineas Personales"
  const QuotingPage := "OmniFromHome__c"
  /** Below this width the compact layout is used. */
  const SmallWidth: real := 789.0

  /** Before the menu answer arrives the list is empty; a click on an empty
      list fails the same way a click on a missing option does. */
  function InitialHome(): (r: HomeUi)
    ensures !r.openModal && !r.firstCharge && r.options == [] && r.className == "business"
    ensures forall value :: FindByLabel(r.options, value).None?
  {
    HomeUi([], false, false, Undefined, Undefined, [], [], None, "business")
  }

  /** `options.find(o => o.label === value)`: the first record with that label. */
  function FindByLabel(options: seq<HomeRecord>, value: string): (r: Option<HomeRecord>)
    ensures r.None? <==> forall i :: 0 <= i < |options| ==> options[i].caption != Str(value)
    ensures r.Some? ==> exists i :: 0 <= i < |options| && options[i] == r.value
                                     && options[i].caption == Str(value)
                                     && forall j :: 0 <= j < i ==> options[j].caption != Str(value)
  {
    if |options| == 0 then None
    else if options[0].caption == Str(value) then Some(options[0])
    else
      var r := FindByLabel(options[1..], value);
      assert forall i :: 1 <= i < |options| ==> options[i] == options[1..][i - 1];
      r
  }

  /** The `OFICINAVIRTUAL` request of the home component: no account or role,
      the selected user ONE, the record's own company and its application. */
  function HomeRequest(ui: HomeUi, hh: HomeHelpers, rec: HomeRecord): (req: Request)
    ensures Fields(req).Keys == {"option", "url", "account", "role", "oneUser", "userApplication", "company"}
    ensures Fields(req)["option"] == rec.option && Fields(req)["url"] == rec.url
    ensures Fields(req)["account"] == Null && Fields(req)["role"] == Null
    ensures Fields(req)["oneUser"] == ui.userOne && Fields(req)["company"] == rec.company
    ensures Fields(req)["userApplication"] == hh.userApplication(ui.appsList, rec)
  {
    OficinaVirtualRequest(rec.option, rec.url, Null, Null, ui.userOne, hh.userApplication(ui.appsList, rec), rec.company)
  }

  /** `handlerClickOpenModal`. The option code is checked before the label:
      an `OFICINAVIRTUAL` record asks for an embed URL (its answer must carry
      data); otherwise the quoting label navigates to the quoting page; any
      other record uses its own URL. Unless the label is the quoting label, the
      frame takes the resolved URL and the modal opens. A label no record has
      cannot be looked up and the handler throws. */
  function HandlerClickOpenModal(ui: HomeUi, hh: HomeHelpers, value: string, embed: Response<EmbedData>): (s: HomeStep)
    ensures FindByLabel(ui.options, value).None? ==> s == HomeStep(ui, [Uncaught])
    ensures value == QuotingLabel ==> s.ui == ui
    ensures value == QuotingLabel && FindByLabel(ui.options, value).Some?
            && FindByLabel(ui.options, value).value.option != Str("OFICINAVIRTUAL") ==>
              s.effects == [NavigateNamedPage(QuotingPage)]
    ensures var found := FindByLabel(ui.options, value);
            found.Some? && found.value.option == Str("OFICINAVIRTUAL") ==>
              && |s.effects| > 0
              && s.effects[0] == CallApex(AddEmbeddedApex, HomeRequest(ui, hh, found.value))
              && (embed.Ok? && value != QuotingLabel ==>
                    s == HomeStep(ui.(iframeUrl := embed.data.url, openModal := true), s.effects))
              && (!embed.Ok? ==> s.ui == ui && s.effects[|s.effects| - 1] == Uncaught)
    ensures var found := FindByLabel(ui.options, value);
            found.Some? && found.value.option != Str("OFICINAVIRTUAL") && value != QuotingLabel ==>
              s == HomeStep(ui.(iframeUrl := found.value.url, openModal := true), [])
    ensures s.ui.openModal != ui.openModal ==> s.ui.openModal && value != QuotingLabel
  {
    match FindByLabel(ui.options, value)
    case None => HomeStep(ui, [Uncaught])
    case Some(rec) =>
      if rec.option == Str("OFICINAVIRTUAL") then
        var call := [CallApex(AddEmbeddedApex, HomeRequest(ui, hh, rec))];
        match embed
        case Ok(data) =>
          if value != QuotingLabel then HomeStep(ui.(iframeUrl := data.url, openModal := true), call)
          else HomeStep(ui, call)
        case NotOk(_, _) => HomeStep(ui, call + [Uncaught])
        case Rejected => HomeStep(ui, call + [Uncaught])
      else if value == QuotingLabel then HomeStep(ui, [NavigateNamedPage(QuotingPage)])
      else HomeStep(ui.(iframeUrl := rec.url, openModal := true), [])
  }

  /** `handlerCloseModal`: hides the modal and nothing else. */
  function HandlerCloseModal(ui: HomeUi): (r: HomeUi)
    ensures !r.openModal
    ensures r == ui.(openModal := false)
  {
    ui.(openModal := false)
  }

  /** `renderedCallback`: the first render measures the component and switches
      it to the compact class when narrower than 789; later renders change
      nothing. */
  function RenderedCallback(ui: HomeUi, width: real): (r: HomeUi)
    ensures r.firstCharge
    ensures ui.firstCharge ==> r == ui
    ensures !ui.firstCharge ==> r.componentWidth == Some(width)
    ensures r.className != ui.className ==> !ui.firstCharge && width < SmallWidth && r.className == "business-small"
    ensures !ui.firstCharge && width < SmallWidth ==> r.className == "business-small"
    ensures r == ui.(firstCharge := true, componentWidth := r.componentWidth, className := r.className)
  {
    if ui.firstCharge then ui
    else
      var measured := ui.(firstCharge := true, componentWidth := Some(width));
      if width < SmallWidth then measured.(className := "business-small") else measured
  }

  /** `getMenuOptions`: an answer with data replaces the menu, forwards the
      cookies, replaces the applications and selects the first user ONE
      (`undefined` when there is none); any other answer changes nothing. */
  function GetMenuOptions(ui: HomeUi, hh: HomeHelpers, resp: Response<HomeData>): (s: HomeStep)
    ensures |s.effects| > 0 && s.effects[0] == CallApex(GetMenuOptionsApex, NoArguments)
    ensures resp.Ok? ==>
              && s.ui == ui.(options := resp.data.menu, apps := resp.data.apps,
                             appsList := hh.appsByKey(resp.data.apps), userOne := Head(resp.data.oneUsers))
              && s.effects[1..] == seq(|resp.data.cookies|, i requires 0 <= i < |resp.data.cookies| => SetCookie(resp.data.cookies[i]))
    ensures !resp.Ok? ==> s == HomeStep(ui, [CallApex(GetMenuOptionsApex, NoArguments)])
  {
    var call := [CallApex(GetMenuOptionsApex, NoArguments)];
    match resp
    case Ok(data) =>
      HomeStep(ui.(options := data.menu, apps := data.apps, appsList := hh.appsByKey(data.apps),
                   userOne := Head(data.oneUsers)),
               call + seq(|data.cookies|, i requires 0 <= i < |data.cookies| => SetCookie(data.cookies[i])))
    case NotOk(_, _) => HomeStep(ui, call)
    case Rejected => HomeStep(ui, call)
  }
}
