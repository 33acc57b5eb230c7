/** What crosses the component boundary: the envelopes the backend answers
    with, the request objects sent to it, and the side effects a transition
    asks of its environment. */
module Remote {
  import opened Js
  import opened Breadcrumbs
  import opened Menu

  /** A non-success `state` of the envelope. */
  datatype Status = Warning | Error

  /** The outcome of a remote call as the continuation sees it:
      `state` is success and `data` is present, or `state` is not success and
      `message` explains it, or the promise was rejected (the `catch` branch). */
  datatype Response<+D> = Ok(data: D) | NotOk(status: Status, message: Val) | Rejected

  /** A `{label, value}` choice: a user ONE or an agent account. */
  datatype Choice = Choice(caption: string, value: string)

  /** The `data` of an embed-resolution answer; `agents` may be absent. */
  datatype EmbedData = EmbedData(url: Val, agents: Option<seq<Choice>>)

  /** The `data` of a menu answer. */
  datatype MenuData = MenuData(menu: MenuNode, apps: seq<AppEntry>, cookies: seq<string>)

  /** The backend operations the components call. */
  datatype Endpoint =
    | GetOneUsersApex | GetMenuAndCookiesApex | AddEmbeddedApex | ValidateCompanyAccessApex | GetMenuOptionsApex

  /** The `requestWrapper` objects, one constructor per object shape the code builds. */
  datatype Request =
    | NoArguments
    | MenuRequest(oneUser: Val, pageName: string)
    | TecnoredRequest(option: Val, url: Val, account: Val, company: Val)
    | OficinaVirtualRequest(option: Val, url: Val, account: Val, role: Val, oneUser: Val, userApplication: Val, company: Val)
    | CotizadorRequest(option: Val, url: Val, community: Val, userApplication: Val, company: Val)
    | NuevaVentanaRequest(option: Val, url: Val, company: Val)
    | AgentRoleRequest(option: Val, url: Val, account: Val, role: Val, userApplication: Val, company: Val)
    | CompanyRequest(company: Val)

  /** The JavaScript object a request is sent as: its keys and their values. */
  function Fields(req: Request): map<string, Val>
  {
    match req
    case NoArguments => map[]
    case MenuRequest(u, p) => map["oneUser" := u, "pageName" := Str(p)]
    case TecnoredRequest(o, u, a, c) =>
      map["option" := o, "url" := u, "account" := a, "company" := c]
    case OficinaVirtualRequest(o, u, a, r, one, app, c) =>
      map["option" := o, "url" := u, "account" := a, "role" := r, "oneUser" := one,
          "userApplication" := app, "company" := c]
    case CotizadorRequest(o, u, com, app, c) =>
      map["option" := o, "url" := u, "community" := com, "userApplication" := app, "company" := c]
    case NuevaVentanaRequest(o, u, c) => map["option" := o, "url" := u, "company" := c]
    case AgentRoleRequest(o, u, a, r, app, c) =>
      map["option" := o, "url" := u, "account" := a, "role" := r, "userApplication" := app,
          "company" := c]
    case CompanyRequest(c) => map["company" := c]
  }

  /** What a transition asks of its environment, in order. */
  datatype Effect =
    | CallApex(endpoint: Endpoint, request: Request)  // a remote call is issued
    | NavigateErrorPage(message: Option<Val>)         // go to the error page (with a message parameter when one is set)
    | NavigateNamedPage(name: string)                 // go to a named community page
    | OpenTab(url: Val)                               // `window.open`
    | StoreBreadcrumb(path: seq<Crumb>)               // session storage `breadcrumbList`
    | StoreCookieNames(names: seq<string>)            // session storage `cookieNames`
    | StoreApps(apps: seq<AppEntry>)                  // session storage `apps`
    | StoreUserOne(user: Val)                         // session storage `userOne`
    | SetCookie(cookie: string)                       // the `cookieRequest` event
    | Uncaught                                        // an exception escapes the handler
}
