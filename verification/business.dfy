/** The agent business-management component: a menu navigator whose state is
    a breadcrumb path plus display state. Every event handler and every remote
    continuation is one atomic transition from a `Ui` to a `Step`; the answer
    of the remote call a transition makes is one of its parameters. */
module Business {
  import opened Js
  import opened Breadcrumbs
  import opened Menu
  import opened Remote

  /** The component's tracked fields and the private fields the handlers read. */
  datatype Ui = Ui(
    userList: seq<Choice>,
    userOne: Val,
    loading: bool,
    optionsList: seq<Item>,
    breadcrumb: seq<Crumb>,
    agentsList: seq<Choice>,
    appsList: seq<Item>,
    optionUrl: Val,
    iframeUrl: Val,
    optionError: Val,
    showIframe: Val,
    showModal: bool,
    messageError: Val,
    options: MenuNode,
    apps: seq<AppEntry>,
    currentPage: string,
    isValidCompany: Val,
    title: string)

  /** The state after a transition and the effects it asked for, in order. */
  datatype Step = Step(ui: Ui, effects: seq<Effect>)

  /** The breadcrumb id that stands for the menu root. */
  const RootId := "root"

  const OptionClass := "business-menu__option"
  const TwoColumnClass := OptionClass + " " + OptionClass + "--two-column"

  /** The menu tree before the backend has answered. */
  const EmptyMenu := MenuNode(Undefined, Undefined, Undefined, [], [])

  /** The state right after construction: `userOne` comes from session storage
      and the title is the custom label. The path is empty, the frame and the
      modal hidden, the option list empty (so it has no column class), and no
      user is listed yet: without a stored user, closing the user picker
      leaves for the error page. */
  function Initial(storedUser: Val, titleLabel: string): (r: Ui)
    ensures r.breadcrumb == [] && !Truthy(r.showIframe) && !r.showModal
    ensures MenuColumnClass(r.optionsList) == Undefined
    ensures r.userOne == storedUser && r.title == titleLabel
    ensures !Truthy(storedUser) ==> HandlerCloseUserModal(r) == [NavigateErrorPage(None)]
  {
    Ui([], storedUser, false, [], [], [], [], Undefined, Undefined, Undefined, Bool(false), false,
       Undefined, EmptyMenu, [], "", Undefined, titleLabel)
  }

  // ---------------------------------------------------------------- getters

  /** The `root` getter: the root breadcrumb caption of the three menu pages;
      `undefined` on any other page. */
  function Root(currentPage: string): (r: Val)
    ensures r.Undefined? || (r.Str? && r.s != "")
    ensures r != Undefined <==> currentPage in {"servicios", "negocios", "informes"}
  {
    match currentPage
    case "servicios" => Str("Solicitudes de Servicio")
    case "negocios" => Str("Gestion de Negocios")
    case "informes" => Str("Informes")
    case _ => Undefined
  }

  /** The `menuColumnClass` getter: no class for an empty menu, the two-column
      modifier beyond five options, the base class otherwise. */
  function MenuColumnClass(optionsList: seq<Item>): (r: Val)
    ensures r == Undefined <==> |optionsList| == 0
    ensures r == Str(TwoColumnClass) <==> |optionsList| > 5
    ensures r == Str(OptionClass) <==> 0 < |optionsList| <= 5
  {
    if |optionsList| > 0 then
      (if |optionsList| > 5 then Str(TwoColumnClass) else Str(OptionClass))
    else Undefined
  }

  // ---------------------------------------------------------------- users

  /** `oneUsers.map(user => ({label: user, value: user}))`. */
  function UserChoices(users: seq<string>): (r: seq<Choice>)
    ensures |r| == |users|
    ensures forall i :: 0 <= i < |r| ==> r[i].caption == users[i] && r[i].value == users[i]
  {
    seq(|users|, i requires 0 <= i < |users| => Choice(users[i], users[i]))
  }

  /** `getOneUserList`: the user list is the answer's users, each as its own
      label and value, and is empty on every other outcome; the warning
      message is kept for the error page. */
  function GetOneUserList(ui: Ui, resp: Response<seq<string>>): (s: Step)
    ensures s.effects == [CallApex(GetOneUsersApex, NoArguments)]
    ensures resp.Ok? ==> |s.ui.userList| == |resp.data|
    ensures resp.Ok? ==> forall i :: 0 <= i < |resp.data| ==> s.ui.userList[i] == Choice(resp.data[i], resp.data[i])
    ensures !resp.Ok? ==> s.ui.userList == []
    ensures resp.NotOk? && resp.status == Warning ==> s.ui.messageError == resp.message
    ensures resp.Ok? || (resp.NotOk? && resp.status == Error) ==> s.ui.messageError == Bool(false)
    ensures resp.Rejected? ==> s.ui.messageError == ui.messageError
    ensures s.ui == ui.(userList := s.ui.userList, messageError := s.ui.messageError, loading := false)
  {
    var call := [CallApex(GetOneUsersApex, NoArguments)];
    match resp
    case Ok(users) => Step(ui.(userList := UserChoices(users), messageError := Bool(false), loading := false), call)
    case NotOk(status, message) =>
      var err := if status == Warning then message else Bool(false);
      Step(ui.(userList := [], messageError := err, loading := false), call)
    case Rejected => Step(ui.(userList := [], loading := false), call)
  }

  /** `userList.some(user => user.value === userOne)`. */
  function ListsUser(list: seq<Choice>, user: Val): (b: bool)
    ensures b <==> exists i :: 0 <= i < |list| && Str(list[i].value) == user
  {
    if |list| == 0 then false
    else if Str(list[0].value) == user then true
    else
      var rest := ListsUser(list[1..], user);
      assert forall i :: 1 <= i < |list| ==> list[i] == list[1..][i - 1];
      rest
  }

  /** `handlerCloseUserModal`: closing the user picker leaves for the error page
      unless a user is selected and that user is one of the listed users. */
  function HandlerCloseUserModal(ui: Ui): (effects: seq<Effect>)
    ensures effects == [] || effects == [NavigateErrorPage(None)]
    ensures effects == [] <==>
              Truthy(ui.userOne) && exists i :: 0 <= i < |ui.userList| && Str(ui.userList[i].value) == ui.userOne
  {
    if !Truthy(ui.userOne) || !ListsUser(ui.userList, ui.userOne) then [NavigateErrorPage(None)] else []
  }

  // ---------------------------------------------------------------- breadcrumb

  /** `handlerBreadcrumbNavigation`: every click hides the frame and clears the
      option error. `root` empties the path and shows the top-level menu under
      the title label; any other id keeps the path up to and including its
      first entry with that id (nothing when no entry has it) and shows the
      list at the end of that path under the clicked caption. */
  function HandlerBreadcrumbNavigation(ui: Ui, h: Helpers, titleLabel: string, id: string, caption: string): (r: Ui)
    ensures r.showIframe == Bool(false) && r.optionError == Undefined
    ensures id == RootId ==>
              r.breadcrumb == [] && r.optionsList == h.listByKey(ui.options) && r.title == titleLabel
    ensures id != RootId ==>
              && r.breadcrumb <= ui.breadcrumb
              && (r.breadcrumb == [] <==> !HasId(ui.breadcrumb, id))
              && (r.breadcrumb != [] ==> r.breadcrumb[|r.breadcrumb| - 1].id == id)
              && (forall j :: 0 <= j < |r.breadcrumb| - 1 ==> r.breadcrumb[j].id != id)
              && r.optionsList == h.objectList(r.breadcrumb, ui.options)
              && r.title == caption
    ensures r == ui.(showIframe := Bool(false), optionError := Undefined, breadcrumb := r.breadcrumb,
                     optionsList := r.optionsList, title := r.title)
  {
    var cleared := ui.(showIframe := Bool(false), optionError := Undefined);
    if id == RootId then
      cleared.(optionsList := h.listByKey(ui.options), breadcrumb := [], title := titleLabel)
    else
      var path := TruncateAt(ui.breadcrumb, id);
      cleared.(breadcrumb := path, optionsList := h.objectList(path, ui.options), title := caption)
  }

  // ---------------------------------------------------------------- remote continuations

  /** The `addEmbedded` continuation. Success records the returned URL and the
      returned agents (none when the answer has no agent list) and clears the
      error; any other answer records the message, forgets the URL and empties
      both the options and the agents lists; a rejected call leaves for the
      error page and changes nothing else. Loading always ends. */
  function AddEmbedded(ui: Ui, req: Request, resp: Response<EmbedData>): (s: Step)
    ensures !s.ui.loading
    ensures |s.effects| > 0 && s.effects[0] == CallApex(AddEmbeddedApex, req)
    ensures resp.Ok? ==>
              && s.ui.optionUrl == resp.data.url
              && s.ui.agentsList == (if resp.data.agents.Some? then resp.data.agents.value else [])
              && s.ui.optionError == Undefined
              && s.ui.optionsList == ui.optionsList
              && |s.effects| == 1
    ensures resp.NotOk? ==>
              && s.ui.optionUrl == Undefined
              && s.ui.optionsList == [] && s.ui.agentsList == []
              && s.ui.optionError == resp.message
              && |s.effects| == 1
    ensures resp.Rejected? ==> s.ui == ui.(loading := false) && s.effects[1..] == [NavigateErrorPage(None)]
    ensures s.ui == ui.(loading := false, optionUrl := s.ui.optionUrl, agentsList := s.ui.agentsList,
                        optionError := s.ui.optionError, optionsList := s.ui.optionsList)
  {
    var call := [CallApex(AddEmbeddedApex, req)];
    match resp
    case Ok(data) =>
      var agents := if data.agents.Some? then data.agents.value else [];
      Step(ui.(optionUrl := data.url, agentsList := agents, optionError := Undefined, loading := false), call)
    case NotOk(_, message) =>
      Step(ui.(optionError := message, optionUrl := Undefined, optionsList := [], agentsList := [], loading := false), call)
    case Rejected =>
      Step(ui.(loading := false), call + [NavigateErrorPage(None)])
  }

  /** The `validateCompanyAccess` continuation: success marks the company valid;
      any other answer marks it invalid and clears like a failed embed call; a
      rejected call leaves for the error page and keeps the previous verdict. */
  function ValidateCompanyAccess(ui: Ui, req: Request, resp: Response<()>): (s: Step)
    ensures !s.ui.loading
    ensures |s.effects| > 0 && s.effects[0] == CallApex(ValidateCompanyAccessApex, req)
    ensures resp.Ok? ==> s.ui == ui.(isValidCompany := Bool(true), loading := false) && |s.effects| == 1
    ensures resp.NotOk? ==>
              && s.ui.isValidCompany == Bool(false)
              && s.ui.optionUrl == Undefined
              && s.ui.optionsList == [] && s.ui.agentsList == []
              && s.ui.optionError == resp.message
              && |s.effects| == 1
    ensures resp.Rejected? ==> s.ui == ui.(loading := false) && s.effects[1..] == [NavigateErrorPage(None)]
    ensures s.ui == ui.(loading := false, isValidCompany := s.ui.isValidCompany, optionUrl := s.ui.optionUrl,
                        agentsList := s.ui.agentsList, optionError := s.ui.optionError,
                        optionsList := s.ui.optionsList)
  {
    var call := [CallApex(ValidateCompanyAccessApex, req)];
    match resp
    case Ok(_) => Step(ui.(isValidCompany := Bool(true), loading := false), call)
    case NotOk(_, message) =>
      Step(ui.(isValidCompany := Bool(false), optionError := message, optionUrl := Undefined,
               optionsList := [], agentsList := [], loading := false), call)
    case Rejected => Step(ui.(loading := false), call + [NavigateErrorPage(None)])
  }

  // ---------------------------------------------------------------- session and cookies

  /** `cookies.map(cookie => cookie.split('=')[0])`: the name of every cookie. */
  function CookieNames(cookies: seq<string>): (names: seq<string>)
    ensures |names| == |cookies|
    ensures forall i :: 0 <= i < |names| ==> names[i] <= cookies[i] && '=' !in names[i]
    ensures forall i :: 0 <= i < |names| && |names[i]| < |cookies[i]| ==> cookies[i][|names[i]|] == '='
  {
    seq(|cookies|, i requires 0 <= i < |cookies| => NameOfCookie(cookies[i]))
  }

  /** The name part of one `name=value` cookie string. */
  function NameOfCookie(cookie: string): (name: string)
    ensures name <= cookie && '=' !in name
    ensures |name| < |cookie| ==> cookie[|name|] == '='
  {
    var name := SplitHead(cookie, "=");
    assert forall j :: 0 <= j < |name| ==> name[j] != '=' by {
      forall j | 0 <= j < |name|
        ensures name[j] != '='
      {
        assert !OccursAt(cookie, "=", j);
        assert cookie[j..j + 1] == [cookie[j]];
      }
    }
    assert |name| < |cookie| ==> cookie[|name|] == '=' by {
      if |name| < |cookie| {
        assert OccursAt(cookie, "=", |name|);
        assert cookie[|name|..|name| + 1] == [cookie[|name|]];
      }
    }
    name
  }

  /** `setCookiesAndSessionStorage`: one cookie event per cookie, verbatim and
      in order, then the cookie names and the application mapping are stored. */
  function SetCookiesAndSessionStorage(cookies: seq<string>, apps: seq<AppEntry>): (effects: seq<Effect>)
    ensures |effects| == |cookies| + 2
    ensures forall i :: 0 <= i < |cookies| ==> effects[i] == SetCookie(cookies[i])
    ensures effects[|cookies|] == StoreCookieNames(CookieNames(cookies))
    ensures effects[|cookies| + 1] == StoreApps(apps)
  {
    seq(|cookies|, i requires 0 <= i < |cookies| => SetCookie(cookies[i]))
      + [StoreCookieNames(CookieNames(cookies)), StoreApps(apps)]
  }

  // ---------------------------------------------------------------- menu and cookies

  /** The menu request of `getMenuAndCookiesList`. */
  function MenuCall(ui: Ui, userOne: Val): Effect
  {
    CallApex(GetMenuAndCookiesApex, MenuRequest(userOne, ui.currentPage))
  }

  /** `getMenuAndCookiesList` as the code is written. A successful answer
      replaces the tree, the applications and their list and forwards the
      cookies. With a `redirect` parameter and a stored path it then restores
      that path and takes the title from its last entry, which does not exist
      when the stored path is empty: reading it throws, the `catch` leaves for
      the error page, and the title and the error message stay as they were.
      Without both, it shows the top level with an empty path. A failed answer
      only records its message; a rejected call leaves for the error page. */
  function GetMenuAndCookiesListAsWritten(ui: Ui, h: Helpers, titleLabel: string, userOne: Val,
                                         resp: Response<MenuData>, redirect: Val,
                                         stored: Option<seq<Crumb>>): (s: Step)
    ensures !s.ui.loading
    ensures |s.effects| > 0 && s.effects[0] == MenuCall(ui, userOne)
    ensures s.ui.userList == ui.userList && s.ui.userOne == ui.userOne && s.ui.showIframe == ui.showIframe
    ensures NavigateErrorPage(None) in s.effects <==>
              resp.Rejected? || (resp.Ok? && Truthy(redirect) && stored == Some([]))
    ensures resp.Ok? ==>
              && s.ui.options == resp.data.menu && s.ui.apps == resp.data.apps
              && s.ui.appsList == h.appsByKey(resp.data.apps)
              && |s.effects| >= |resp.data.cookies| + 3
              && s.effects[1..|resp.data.cookies| + 3] == SetCookiesAndSessionStorage(resp.data.cookies, resp.data.apps)
    ensures resp.Ok? && Truthy(redirect) && stored.Some? ==>
              s.ui.breadcrumb == stored.value && s.ui.optionsList == h.objectList(stored.value, resp.data.menu)
    ensures resp.Ok? && Truthy(redirect) && stored == Some([]) ==>
              && s.effects[|s.effects| - 1] == NavigateErrorPage(None)
              && s.ui.title == ui.title && s.ui.optionError == ui.optionError
    ensures resp.Ok? && Truthy(redirect) && stored.Some? && stored.value != [] ==>
              s.ui.title == stored.value[|stored.value| - 1].caption && s.ui.optionError == Undefined
    ensures resp.Ok? && !(Truthy(redirect) && stored.Some?) ==>
              && s.ui.breadcrumb == [] && s.ui.optionsList == h.listByKey(resp.data.menu)
              && s.ui.title == titleLabel && s.ui.optionError == Undefined
    ensures resp.NotOk? ==> s.ui == ui.(optionError := resp.message, loading := false) && |s.effects| == 1
    ensures resp.Rejected? ==> s.ui == ui.(loading := false) && s.effects[1..] == [NavigateErrorPage(None)]
  {
    match resp
    case Ok(data) =>
      var applied := ui.(apps := data.apps, options := data.menu, appsList := h.appsByKey(data.apps));
      var forwarded := SetCookiesAndSessionStorage(data.cookies, data.apps);
      var effects := [MenuCall(ui, userOne)] + forwarded;
      assert effects[1..] == forwarded;
      assert forall i :: 0 <= i < |effects| ==> !effects[i].NavigateErrorPage?;
      if Truthy(redirect) && stored.Some? then
        var path := stored.value;
        var restored := applied.(breadcrumb := path, optionsList := h.objectList(path, data.menu));
        if |path| == 0 then
          var failed := effects + [NavigateErrorPage(None)];
          assert failed[1..|data.cookies| + 3] == forwarded;
          Step(restored.(loading := false), failed)
        else
          Step(restored.(title := path[|path| - 1].caption, optionError := Undefined, loading := false), effects)
      else
        Step(applied.(title := titleLabel, optionsList := h.listByKey(data.menu), breadcrumb := [],
                      optionError := Undefined, loading := false), effects)
    case NotOk(_, message) => Step(ui.(optionError := message, loading := false), [MenuCall(ui, userOne)])
    case Rejected => Step(ui.(loading := false), [MenuCall(ui, userOne), NavigateErrorPage(None)])
  }

  /** `getMenuAndCookiesList` with the restore corrected: an empty restored path
      takes the title label, as an unrestored menu does. A successful answer
      never leaves for the error page; it either restores the stored path (when
      the page carries a `redirect` parameter and a path was stored) or shows
      the top level with an empty path. A failed answer only records its
      message; a rejected call leaves for the error page. */
  function GetMenuAndCookiesList(ui: Ui, h: Helpers, titleLabel: string, userOne: Val,
                                 resp: Response<MenuData>, redirect: Val,
                                 stored: Option<seq<Crumb>>): (s: Step)
    ensures !s.ui.loading
    ensures |s.effects| > 0 && s.effects[0] == MenuCall(ui, userOne)
    ensures resp.Ok? ==>
              && (forall i :: 0 <= i < |s.effects| ==> !s.effects[i].NavigateErrorPage?)
              && s.effects[1..] == SetCookiesAndSessionStorage(resp.data.cookies, resp.data.apps)
              && s.ui.options == resp.data.menu && s.ui.apps == resp.data.apps
              && s.ui.appsList == h.appsByKey(resp.data.apps)
              && s.ui.optionError == Undefined
    ensures resp.Ok? && Truthy(redirect) && stored.Some? ==>
              && s.ui.breadcrumb == stored.value
              && s.ui.optionsList == h.objectList(stored.value, resp.data.menu)
              && s.ui.title == (if stored.value == [] then titleLabel else stored.value[|stored.value| - 1].caption)
    ensures resp.Ok? && !(Truthy(redirect) && stored.Some?) ==>
              s.ui.breadcrumb == [] && s.ui.optionsList == h.listByKey(resp.data.menu) && s.ui.title == titleLabel
    ensures resp.NotOk? ==> s.ui == ui.(optionError := resp.message, loading := false) && |s.effects| == 1
    ensures resp.Rejected? ==> s.ui == ui.(loading := false) && s.effects[1..] == [NavigateErrorPage(None)]
    ensures s.ui.userList == ui.userList && s.ui.userOne == ui.userOne && s.ui.showIframe == ui.showIframe
  {
    match resp
    case Ok(data) =>
      var applied := ui.(apps := data.apps, options := data.menu, appsList := h.appsByKey(data.apps));
      var effects := [MenuCall(ui, userOne)] + SetCookiesAndSessionStorage(data.cookies, data.apps);
      if Truthy(redirect) && stored.Some? then
        var path := stored.value;
        var title := if |path| == 0 then titleLabel else path[|path| - 1].caption;
        Step(applied.(breadcrumb := path, optionsList := h.objectList(path, data.menu), title := title,
                      optionError := Undefined, loading := false), effects)
      else
        Step(applied.(title := titleLabel, optionsList := h.listByKey(data.menu), breadcrumb := [],
                      optionError := Undefined, loading := false), effects)
    case NotOk(_, message) => Step(ui.(optionError := message, loading := false), [MenuCall(ui, userOne)])
    case Rejected => Step(ui.(loading := false), [MenuCall(ui, userOne), NavigateErrorPage(None)])
  }

  /** `handlerSelectedUser`: the chosen user is stored, the frame hidden and the
      menu of that user loaded, by the continuation as written. */
  function HandlerSelectedUser(ui: Ui, h: Helpers, titleLabel: string, user: Val, resp: Response<MenuData>,
                               redirect: Val, stored: Option<seq<Crumb>>): (s: Step)
    ensures s.ui.userOne == user && s.ui.userList == ui.userList
    ensures s.ui.showIframe == Bool(false)
    ensures |s.effects| > 1 && s.effects[0] == StoreUserOne(user)
    ensures s.effects[1] == CallApex(GetMenuAndCookiesApex, MenuRequest(user, ui.currentPage))
    ensures resp.Ok? ==>
              && s.ui.options == resp.data.menu && s.ui.apps == resp.data.apps
              && s.ui.appsList == h.appsByKey(resp.data.apps)
    ensures resp.Ok? && Truthy(redirect) && stored.Some? ==> s.ui.breadcrumb == stored.value
    ensures resp.Ok? && !(Truthy(redirect) && stored.Some?) ==>
              s.ui.breadcrumb == [] && s.ui.title == titleLabel && s.ui.optionError == Undefined
    ensures NavigateErrorPage(None) in s.effects <==>
              resp.Rejected? || (resp.Ok? && Truthy(redirect) && stored == Some([]))
    ensures resp.NotOk? ==> s.ui.optionError == resp.message && |s.effects| == 2
  {
    var chosen := ui.(userOne := user, showIframe := Bool(false));
    var loaded := GetMenuAndCookiesListAsWritten(chosen, h, titleLabel, user, resp, redirect, stored);
    assert ([StoreUserOne(user)] + loaded.effects)[1..] == loaded.effects;
    Step(loaded.ui, [StoreUserOne(user)] + loaded.effects)
  }

  /** The user choice of `connectedCallback` once the list has arrived: no
      user leaves for the error page with the warning message, exactly one user
      is selected and stored, several leave the choice to the user picker. */
  function PickUser(listed: Step): (p: Step)
    ensures |p.effects| >= |listed.effects| && p.effects[..|listed.effects|] == listed.effects
    ensures forall i :: |listed.effects| <= i < |p.effects| ==> !p.effects[i].CallApex?
    ensures p.ui == listed.ui.(userOne := p.ui.userOne)
    ensures |listed.ui.userList| == 0 ==>
              p.ui == listed.ui && p.effects == listed.effects + [NavigateErrorPage(Some(listed.ui.messageError))]
    ensures |listed.ui.userList| == 1 ==>
              && p.ui.userOne == Str(listed.ui.userList[0].value)
              && p.effects == listed.effects + [StoreUserOne(p.ui.userOne)]
    ensures |listed.ui.userList| > 1 ==> p == listed
  {
    var u := listed.ui;
    if |u.userList| == 0 then Step(u, listed.effects + [NavigateErrorPage(Some(u.messageError))])
    else if |u.userList| == 1 then
      Step(u.(userOne := Str(u.userList[0].value)), listed.effects + [StoreUserOne(Str(u.userList[0].value))])
    else listed
  }

  /** `connectedCallback`: the page name without its `__c` suffix becomes the
      current page; the user list is fetched; no user leaves for the error page
      with the warning message, exactly one user is selected and stored; then
      the menu is loaded, by the continuation as written, whenever a user is
      selected. */
  function Connected(ui: Ui, h: Helpers, titleLabel: string, pageName: string, users: Response<seq<string>>,
                     menu: Response<MenuData>, redirect: Val, stored: Option<seq<Crumb>>): (s: Step)
    ensures s.ui.currentPage == SplitHead(pageName, "__c")
    ensures users.Ok? && |users.data| == 1 ==> s.ui.userOne == Str(users.data[0])
    ensures !users.Ok? || |users.data| == 0 ==>
              s.ui.userList == [] && NavigateErrorPage(Some(s.ui.messageError)) in s.effects
    ensures users.Ok? ==> |s.ui.userList| == |users.data|
    ensures |s.effects| > 0 && s.effects[0] == CallApex(GetOneUsersApex, NoArguments)
    ensures Truthy(s.ui.userOne) <==> exists i :: 0 <= i < |s.effects| && s.effects[i].CallApex? && s.effects[i].endpoint == GetMenuAndCookiesApex
    ensures Truthy(s.ui.userOne) && menu.Ok? ==> s.ui.options == menu.data.menu && s.ui.apps == menu.data.apps
    ensures Truthy(s.ui.userOne) && menu.Ok? && Truthy(redirect) && stored == Some([]) ==>
              NavigateErrorPage(None) in s.effects
  {
    var named := ui.(currentPage := SplitHead(pageName, "__c"));
    var listed := GetOneUserList(named, users);
    var picked := PickUser(listed);
    assert forall i :: 0 <= i < |picked.effects| ==> !picked.effects[i].CallApex? || picked.effects[i].endpoint == GetOneUsersApex by {
      forall i | 0 <= i < |picked.effects|
        ensures !picked.effects[i].CallApex? || picked.effects[i].endpoint == GetOneUsersApex
      {
        if i < |listed.effects| {
          assert picked.effects[i] == picked.effects[..|listed.effects|][i];
        }
      }
    }
    if Truthy(picked.ui.userOne) then
      var loaded := GetMenuAndCookiesListAsWritten(picked.ui, h, titleLabel, picked.ui.userOne, menu, redirect, stored);
      assert (picked.effects + loaded.effects)[|picked.effects|] == loaded.effects[0];
      assert NavigateErrorPage(None) in loaded.effects ==> NavigateErrorPage(None) in picked.effects + loaded.effects;
      Step(loaded.ui, picked.effects + loaded.effects)
    else picked
  }
}
