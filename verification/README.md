# Agent business navigation — a Dafny model

This project models the navigation logic of two Lightning web components that
insurance agents use to reach their business tools.

- **agentBusinessManagement** is a menu navigator. Its state is a breadcrumb
  path of `{id, label}` entries plus display state: the visible options list,
  the frame URL and its flag, the agent modal flag, the option error and the
  title. A click on a menu node pushes the node onto the path. A branch node
  shows its children. A leaf node builds one request, chosen by its option code
  (`TECNORED`, `OFICINAVIRTUAL`, `COTIZADORGLM`, `NUEVAVENTANA` or anything
  else), and sends it either to embed resolution or to company-access
  validation. A breadcrumb click truncates the path. Cancelling the agent modal
  pops the path.
- **agentHomeBusiness** is a flat list of tiles. A click on a tile opens the
  tile's URL in a modal frame, resolves an embed URL first, or navigates to the
  quoting page.

Every event handler and every remote continuation is a pure function of the
component state (`Business.Ui`, `Home.HomeUi`). Handlers that call out return a
`Step`, which holds the new state and the effects asked for, in order. Handlers
that only change state (`Business.HandlerBreadcrumbNavigation`,
`BusinessMenu.HandlerCloseAgentModal`, `Home.HandlerCloseModal`,
`Home.RenderedCallback`) return the new state. `Business.HandlerCloseUserModal`
changes no state and returns only its effects. The effects are:

- remote calls issued
- session-storage writes
- cookie events
- navigation
- new tabs
- uncaught exceptions

The answer of a remote call is a parameter (`Remote.Response`): a success with
data, a non-success state with a message, or a rejected promise. Every handler
is atomic.

The tree helpers `findDeepObject`, `getObjectList`, `getObjectListByKey` and
`getUserApplication` live in the components' `./helper` modules. Those modules
are not part of this model. The helpers are function-valued fields of
`Menu.Helpers` and `Home.HomeHelpers`, and the model promises nothing about
their results.

JavaScript values that the code treats loosely are `Js.Val` (`undefined`,
`null`, a boolean or a string), with JavaScript truthiness. This covers the URL
fields, the frame flag (assigned a URL string), the error message and the
request fields.

Modules and files:

| file | module | contents |
|---|---|---|
| js.dfy | Js | values, truthiness, `arr[0]`, `split(sep)[0]` |
| breadcrumbs.dfy | Breadcrumbs | the path: `findIndex`, truncation, push and pop |
| menu.dfy | Menu | the menu tree, option codes, helper signatures |
| remote.dfy | Remote | answers, request objects, effects |
| business.dfy | Business | state, getters, user list, remote continuations, menu loading |
| business_menu.dfy | BusinessMenu | menu click dispatch and the agent modal |
| business_laws.dfy | BusinessLaws | properties relating several transitions |
| business_run.dfy | BusinessRun | the path across any sequence of breadcrumb clicks, menu clicks and cancellations |
| home.dfy, home_laws.dfy | Home, HomeLaws | the home tile component |

Three details of the code that the model keeps:

- The agent modal opens when at least one agent comes back without a URL
  (agentBusinessManagement.js:490-491).
- The `COTIZADORGLM` request carries `userApplication`
  (agentBusinessManagement.js:511-521).
- A failed validation answer empties the options and agents lists
  (agentBusinessManagement.js:416-421).

## Model

| member | source | states |
|---|---|---|
| Js.SplitHead | lwc/agentBusinessManagement/agentBusinessManagement.js:446 | `s.split(sep)[0]` is the prefix of `s` before the first occurrence of `sep`, and all of `s` when `sep` does not occur |
| Js.IndexOfFrom | lwc/agentBusinessManagement/agentBusinessManagement.js:164 | the first position at or after `i` where the separator starts, with no occurrence before it |
| Js.SplitHeadOfJoin | lwc/agentBusinessManagement/agentBusinessManagement.js:446 | splitting `name + c + rest` on `c` gives back `name` when `c` is not in `name` |
| Breadcrumbs.FindIndex | lwc/agentBusinessManagement/agentBusinessManagement.js:287-289 | `findIndex` returns the first position whose id matches, or -1 exactly when no entry has that id |
| Breadcrumbs.TruncateAt | lwc/agentBusinessManagement/agentBusinessManagement.js:287-290 | the path becomes a prefix that ends at the first entry with the id; it is empty exactly when no entry has the id (the -1 case) |
| Breadcrumbs.Pop | lwc/agentBusinessManagement/agentBusinessManagement.js:573 | `pop` drops exactly the last entry, and an empty path stays empty |
| Breadcrumbs.PopAfterPush | lwc/agentBusinessManagement/agentBusinessManagement.js:476-533 | a pop after a push restores the path |
| Breadcrumbs.TruncateIdempotent | lwc/agentBusinessManagement/agentBusinessManagement.js:287-290 | truncating twice at one id equals truncating once |
| Breadcrumbs.TruncateAtPushed | lwc/agentBusinessManagement/agentBusinessManagement.js:287-290 | truncating at a freshly pushed id keeps the whole path, including the new entry |
| Menu.KindOf | lwc/agentBusinessManagement/agentBusinessManagement.js:480-553 | the option switch is total: a named kind only for its exact code string; every other value, absent or not a string, goes to the default |
| Menu.KindOfCode | lwc/agentBusinessManagement/agentBusinessManagement.js:481-526 | each of the four codes selects its own branch, so no two branches share a code |
| Business.Initial | lwc/agentBusinessManagement/agentBusinessManagement.js:32-148 | the constructed component has an empty path, a hidden frame and modal, no column class, the stored user and the title label; with no stored user, closing the user picker goes to the error page |
| Business.Root | lwc/agentBusinessManagement/agentBusinessManagement.js:180-192 | the root caption is defined exactly on the three menu pages and is a non-empty string there |
| Business.MenuColumnClass | lwc/agentBusinessManagement/agentBusinessManagement.js:303-313 | no class for an empty list; the two-column modifier exactly when there are more than 5 options; the base class for 1 to 5 |
| Business.UserChoices | lwc/agentBusinessManagement/agentBusinessManagement.js:206-209 | each backend user becomes one choice whose label and value are that user, in order |
| Business.GetOneUserList | lwc/agentBusinessManagement/agentBusinessManagement.js:200-218 | on success the user list matches the backend users one for one; any other outcome gives an empty list; the warning message is kept only for a warning; loading ends |
| Business.ListsUser | lwc/agentBusinessManagement/agentBusinessManagement.js:261 | `some(user => user.value === userOne)` holds exactly when some listed user has that value |
| Business.HandlerCloseUserModal | lwc/agentBusinessManagement/agentBusinessManagement.js:257-265 | closing the user picker goes to the error page exactly when no user is selected or the selected user is not listed |
| Business.HandlerBreadcrumbNavigation | lwc/agentBusinessManagement/agentBusinessManagement.js:277-294 | every breadcrumb click hides the frame and clears the option error; `root` gives an empty path, the top-level list and the title label; any other id truncates to its first entry (to nothing when absent); nothing else changes |
| Business.AddEmbedded | lwc/agentBusinessManagement/agentBusinessManagement.js:379-400 | success sets the URL and the returned agents (or none); a non-success answer forgets the URL and empties both the options and the agents lists; a rejected call goes to the error page and changes nothing else; loading ends |
| Business.ValidateCompanyAccess | lwc/agentBusinessManagement/agentBusinessManagement.js:408-428 | success marks the company valid and changes nothing else; a failure marks it invalid and clears like a failed embed; a rejected call keeps the previous verdict and goes to the error page |
| Business.CookieNames | lwc/agentBusinessManagement/agentBusinessManagement.js:446 | each stored cookie name is the cookie's prefix up to its first `=` and contains no `=` |
| Business.NameOfCookie | lwc/agentBusinessManagement/agentBusinessManagement.js:446 | the name of one cookie is a prefix without `=`, followed in the cookie by `=` unless it is the whole cookie |
| Business.SetCookiesAndSessionStorage | lwc/agentBusinessManagement/agentBusinessManagement.js:437-449 | every cookie is forwarded verbatim and in order, then the names and the application mapping are stored |
| Business.GetMenuAndCookiesListAsWritten | lwc/agentBusinessManagement/agentBusinessManagement.js:321-363 | the code as written: a success replaces the tree and applications and forwards the cookies; it restores the stored path under a `redirect` parameter, else shows the top level; it goes to the error page exactly on a rejected call or when the restored path is empty, and then keeps the old title and error |
| Business.GetMenuAndCookiesList | lwc/agentBusinessManagement/agentBusinessManagement.js:321-363 | a successful menu answer never goes to the error page; it restores the stored path (when there is a `redirect` parameter) or shows the top level with an empty path; a failure records its message; user fields stay as they were |
| Business.HandlerSelectedUser | lwc/agentBusinessManagement/agentBusinessManagement.js:228-234 | the frame is always hidden; the chosen user is stored first and its menu requested next; a success loads that menu and restores or clears the path; the error page is reached exactly on a rejected call or an empty restored path |
| Business.PickUser | lwc/agentBusinessManagement/agentBusinessManagement.js:166-174 | after the user list arrives, no user goes to the error page with the message, exactly one user is selected and stored, and several leave the state alone; no remote call is added |
| Business.Connected | lwc/agentBusinessManagement/agentBusinessManagement.js:163-178 | the page name loses its `__c` suffix; no user goes to the error page with the message; a single user is selected; the menu is requested exactly when a user is selected and a success loads it; an empty restored path reaches the error page |
| BusinessMenu.LeafRequest | lwc/agentBusinessManagement/agentBusinessManagement.js:480-553 | each option code yields exactly one request object with exactly its keys; every request carries `icons[0]` as company; the default sends only `{company}` |
| BusinessMenu.ShowEmbedOrModal | lwc/agentBusinessManagement/agentBusinessManagement.js:489-491 | the frame flag and frame URL equal the returned URL; the modal opens exactly when agents came back and no URL |
| BusinessMenu.OpenInNewTab | lwc/agentBusinessManagement/agentBusinessManagement.js:532-540 | the pushed entry is popped; the restored path is stored; a tab opens on the returned URL exactly when it is not `undefined` |
| BusinessMenu.NewTabAfterEmbed | lwc/agentBusinessManagement/agentBusinessManagement.js:526-540 | the `NUEVAVENTANA` branch as written: one embed call, the pushed entry popped and stored, a tab exactly when `optionUrl` is not `undefined` and on that URL, and the error page exactly when the call was rejected |
| BusinessMenu.ShowIfValidCompany | lwc/agentBusinessManagement/agentBusinessManagement.js:546-552 | the frame shows the node's own URL exactly when the company is valid |
| BusinessMenu.Leaf | lwc/agentBusinessManagement/agentBusinessManagement.js:480-554 | exactly one remote call, made first, to the endpoint the option code selects; for the four embed kinds a success sets the URL and agents from the answer, a failure clears them, and a rejection keeps the old ones and goes to the error page; the frame, modal, tab and path of each branch |
| BusinessMenu.NewTabLeaf | lwc/agentBusinessManagement/agentBusinessManagement.js:526-540 | corrected `NUEVAVENTANA` leaf: a tab opens exactly when this click's own answer returned a URL, and only on that URL; a rejection reaches the error page and opens no tab |
| BusinessMenu.HandlerButtonLarge | lwc/agentBusinessManagement/agentBusinessManagement.js:472-559 | a click pushes exactly `{id,label}` and sets the title to the label; a node without URL makes no call and shows its children; a leaf makes one call; `NUEVAVENTANA` leaves the path as before the click and stores it; a path that leads nowhere throws; for the embed kinds the URL and agents follow the answer and the modal opens exactly when agents came back without a URL |
| BusinessMenu.HandlerCloseAgentModal | lwc/agentBusinessManagement/agentBusinessManagement.js:571-575 | cancelling the modal pops exactly one entry and hides the modal; nothing else changes |
| BusinessMenu.SelectionRequest | lwc/agentBusinessManagement/agentBusinessManagement.js:590-608 | after a choice, `TECNORED` sends `{option,url,account,company}`; any other leaf adds `role` (the role's id) and `userApplication` but never `oneUser` |
| BusinessMenu.HandlerSelectedAgentAndRole | lwc/agentBusinessManagement/agentBusinessManagement.js:585-612 | the leaf is looked up again, one embed call is re-sent, the frame follows the returned URL, the modal closes, and the path does not change |
| BusinessLaws.BreadcrumbNavigationIdempotent | lwc/agentBusinessManagement/agentBusinessManagement.js:277-294 | repeating a breadcrumb click changes nothing more |
| BusinessLaws.BreadcrumbBackToDrilledBranch | lwc/agentBusinessManagement/agentBusinessManagement.js:476-556 | drilling into a branch and clicking its new breadcrumb keeps the path ending at that branch |
| BusinessLaws.CancelRestoresPath | lwc/agentBusinessManagement/agentBusinessManagement.js:472-575 | cancelling the agent modal after a click restores the path the click started from |
| BusinessLaws.ModalIffAgentsWithoutUrl | lwc/agentBusinessManagement/agentBusinessManagement.js:481-510 | after a success answer, a `TECNORED`/`OFICINAVIRTUAL` leaf opens the modal exactly when the answer has agents and no URL |
| BusinessLaws.ModalOnlyFromAgentAnswer | lwc/agentBusinessManagement/agentBusinessManagement.js:481-510 | only a `TECNORED`/`OFICINAVIRTUAL` leaf opens the modal, never after a failed answer, and an open modal never shows a frame |
| BusinessLaws.OnlyTheCalledEndpointMatters | lwc/agentBusinessManagement/agentBusinessManagement.js:479-557 | a click depends only on the answer of the one call it makes |
| BusinessLaws.SelectionRebuildsLeafRequest | lwc/agentBusinessManagement/agentBusinessManagement.js:481-608 | the request after the agent choice is the first request with the account set (and, for `OFICINAVIRTUAL`, the role set and `oneUser` removed) |
| BusinessLaws.FailuresClearAlike | lwc/agentBusinessManagement/agentBusinessManagement.js:389-421 | a failed embed answer and a failed validation answer clear the URL, options, agents and error identically |
| BusinessLaws.NewTabPathRoundTrip | lwc/agentBusinessManagement/agentBusinessManagement.js:532-537 | the path a new-tab leaf stores is the pre-click path, and the corrected `redirect` load restores exactly it without an error page |
| BusinessLaws.NewTabPathRoundTripAsWritten | lwc/agentBusinessManagement/agentBusinessManagement.js:532-537 | through the code as written, a path stored below the top level is restored exactly, with its last caption as title and no error page, when a user is chosen on a `redirect` visit |
| BusinessLaws.AsWrittenAgreesOffTheDefect | lwc/agentBusinessManagement/agentBusinessManagement.js:338-345 | the as-written and the corrected menu continuations differ exactly when a success restores an empty path |
| BusinessLaws.EmptyStoredPathReachesErrorPage | lwc/agentBusinessManagement/agentBusinessManagement.js:338-345 | an empty stored path makes the as-written load end on the error page, while the corrected load shows the title label |
| BusinessLaws.RejectedNewTabUsesStaleUrl | lwc/agentBusinessManagement/agentBusinessManagement.js:532-540 | as written, a rejected `NUEVAVENTANA` embed call reaches the error page and still opens a tab on the previous URL |
| BusinessLaws.NewTabLeafAgreesUnlessRejected | lwc/agentBusinessManagement/agentBusinessManagement.js:526-540 | the corrected new-tab leaf equals the code whenever the call is answered, and opens no tab after a rejection |
| BusinessLaws.SingleUserIsSelected | lwc/agentBusinessManagement/agentBusinessManagement.js:171-174 | with exactly one user, that user is selected on load and closing the user picker stays on the page |
| BusinessLaws.CookieNameOfPair | lwc/agentBusinessManagement/agentBusinessManagement.js:446 | the name of `name=value` is `name` when the name has no `=` |
| BusinessLaws.RootCaptionsDistinct | lwc/agentBusinessManagement/agentBusinessManagement.js:180-192 | distinct menu pages have distinct root captions |
| BusinessLaws.PageNameRoundTrip | lwc/agentBusinessManagement/agentBusinessManagement.js:164-192 | for every page without `__c`, stripping the suffix from `page__c` gives the page back, so its root caption is the page's own |
| BusinessRun.Apply | lwc/agentBusinessManagement/agentBusinessManagement.js:277-575 | a breadcrumb click or a cancellation leaves a prefix of the path; a menu click leaves the path as it was or with exactly the clicked entry pushed |
| BusinessRun.RunDepthBound | lwc/agentBusinessManagement/agentBusinessManagement.js:476 | the only push is one entry per menu click, so after any run of events the path is at most one entry deeper per event |
| BusinessRun.BackwardRunShortens | lwc/agentBusinessManagement/agentBusinessManagement.js:287-290 | breadcrumb clicks and cancellations only slice or pop, so any run of them leaves a prefix of the starting path |
| BusinessRun.PathEntriesHaveOrigin | lwc/agentBusinessManagement/agentBusinessManagement.js:476 | every entry on the path was there at the start or was pushed by one of the run's menu clicks |
| BusinessRun.FromInitialEveryEntryWasClicked | lwc/agentBusinessManagement/agentBusinessManagement.js:58 | starting from the constructed component, every path entry was pushed by a menu click and the path is no deeper than the number of events |
| Home.InitialHome | lwc/agentHomeBusiness/agentHomeBusiness.js:15-31 | the constructed tile list is empty, the modal closed, not yet rendered, class `business`, and no label finds a record |
| Home.FindByLabel | lwc/agentHomeBusiness/agentHomeBusiness.js:102-103 | `find` returns the first record with the label, or nothing exactly when no record has it |
| Home.HomeRequest | lwc/agentHomeBusiness/agentHomeBusiness.js:104-116 | the home `OFICINAVIRTUAL` request is `{option,url,account:null,role:null,oneUser,company:record.company,userApplication}` |
| Home.HandlerClickOpenModal | lwc/agentHomeBusiness/agentHomeBusiness.js:99-135 | the option code is checked before the label; the quoting label never changes the modal or frame and, for a non-`OFICINAVIRTUAL` record, navigates to the quoting page; any other label shows the resolved URL and opens the modal; an unknown label throws |
| Home.HandlerCloseModal | lwc/agentHomeBusiness/agentHomeBusiness.js:137-139 | closing only clears the modal flag |
| Home.RenderedCallback | lwc/agentHomeBusiness/agentHomeBusiness.js:50-59 | the compact class is applied only on the first render and only when the width is under 789 |
| Home.GetMenuOptions | lwc/agentHomeBusiness/agentHomeBusiness.js:66-81 | an answer with data replaces the menu and the applications, forwards the cookies and selects the first user; any other answer changes nothing |
| HomeLaws.QuotingLabelNeverOpensModal | lwc/agentHomeBusiness/agentHomeBusiness.js:119-134 | the quoting label never opens the modal, whatever the record's code |
| HomeLaws.CloseAfterOpen | lwc/agentHomeBusiness/agentHomeBusiness.js:131-139 | closing right after opening returns to a closed modal |
| HomeLaws.RenderedOnce | lwc/agentHomeBusiness/agentHomeBusiness.js:50-59 | a second render changes nothing |
| HomeLaws.FirstRenderFromInitial | lwc/agentHomeBusiness/agentHomeBusiness.js:50-59 | the first render of the constructed component records the width and picks the compact class exactly below 789 |
| HomeLaws.ClickBeforeLoadThrows | lwc/agentHomeBusiness/agentHomeBusiness.js:99-102 | a tile click before the menu has loaded finds no record and throws |

## Left out

- BusinessRun.Apply: the event runs cover only the three handlers that change the path directly. Choosing an agent keeps the path as it is. Choosing a user reloads the menu and may restore a stored path; that is stated per call on `Business.GetMenuAndCookiesList` and is not an event here.
- Remote calls: `getOneUsers`, `getMenuAndCookies`, `addEmbedded`, `validateCompanyAccess` and `getMenuOptions` run in the backend. Their answers are parameters, and the call itself is a `CallApex` effect.
- Helper functions: `findDeepObject`, `getObjectList`, `getObjectListByKey`, `getUserApplication` and `errorRefPage` are in the components' `./helper` modules, which are not part of this model. They are uninterpreted parameters.
- Environment: session storage, the `cookieRequest` event, page navigation, `window.open`, `window.location` and DOM measurement have effects. The model records them as effects, or takes the value read as a parameter (stored path, `redirect` parameter, page name, width). JSON serialization of the stored path is not modelled.
- Concurrency: async interleaving of overlapping calls is not modelled, and each handler is atomic. The intermediate `loading = true` is not observable; only the final `false` is modelled.
- Logging: `console.log` has no effect on state.
- Shared error-page state: `errorRefPage.state` is a shared mutable object. Only `connectedCallback` sets its message. Later navigations (`NavigateErrorPage(None)`) do not model the message left over from it.
- Unloaded state: before the first answers arrive, `userList` and `options` are `undefined` in the code. In the model they are an empty list and an empty menu node. A user-picker close before the user list arrives, with a user already stored, would throw in the code; the model goes to the error page. In the home component, a tile click before the menu arrives throws in the code too, and the model's empty list also throws.
- Menu icons: a menu node's `icons` is always an array in the model. An absent `icons` would throw in the code.
- Answer data: a success answer always carries `data`. In the home click handler, a non-success embed answer is taken to carry no `data`, so reading its URL throws. In the home menu load, an answer counts as carrying data only when it is a success.
- Dead code: `agentHomeBusiness.addEmbedded` (agentHomeBusiness.js:150-168) refers to `constText`, which that file never imports, so it would throw. Nothing calls it.
- `handlerSwitchUser`: it only re-runs the user list fetch, which `Business.GetOneUserList` models.
- `handlerClickNavigation` (home): a fixed navigation with no state.
- `agentDirectNavigate.js`: redirect plumbing around three remote calls.
- Js.SplitHead: requires a non-empty separator. JavaScript's `split('')` splits into characters, but the code only splits on the constants `=` and `__c`.

## Findings

| source | as written | input that shows it | evidently intended | confidence | as-written member | corrected member |
|---|---|---|---|---|---|---|
| lwc/agentBusinessManagement/agentBusinessManagement.js:343-345 | the title of a restored path is read from its last entry, even when the path is empty | a `NUEVAVENTANA` leaf clicked at the top level stores the path `[]`; a later load with a `redirect` parameter reads `[][-1].label`, which throws, and the `catch` goes to the error page (lemma `BusinessLaws.EmptyStoredPathReachesErrorPage`) | an empty restored path shows the top-level title label | medium; not executed | Business.GetMenuAndCookiesListAsWritten | Business.GetMenuAndCookiesList |
| lwc/agentBusinessManagement/agentBusinessManagement.js:532-540 | after a rejected `NUEVAVENTANA` embed call the `catch` goes to the error page, but the handler still pops, stores the path and opens a tab on `optionUrl`, which still holds the previous click's URL | a previous leaf left `optionUrl` set; a `NUEVAVENTANA` click whose embed call is rejected opens that old URL in a new tab (lemma `BusinessLaws.RejectedNewTabUsesStaleUrl`) | a rejected call opens no tab | medium; not executed | BusinessMenu.Leaf | BusinessMenu.NewTabLeaf |

`Business.Connected`, `Business.HandlerSelectedUser` and
`BusinessMenu.HandlerButtonLarge` model the code as written, defects included.
The corrected members state the intended behaviour beside them:
`BusinessLaws.AsWrittenAgreesOffTheDefect` and
`BusinessLaws.NewTabLeafAgreesUnlessRejected` show that each correction changes
only its defect. `BusinessLaws.NewTabPathRoundTrip` proves the round trip for the
corrected load. `BusinessLaws.NewTabPathRoundTripAsWritten` proves it for the
code as written, for paths stored below the top level.
