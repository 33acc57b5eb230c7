/** The menu tree returned by the backend, the presentation lists derived from
    it, the option codes a leaf may carry, and the tree helpers the components
    import from their `./helper` modules. */
module Menu {
  import opened Js
  import opened Breadcrumbs

  /** One node of the menu tree: a branch with children, or a leaf with a
      `url` and an option code. `icons[0]` names the node's company. */
  datatype MenuNode = MenuNode(
    caption: Val,
    option: Val,
    url: Val,
    icons: seq<Val>,
    children: seq<MenuChild>)

  /** A child of a node under its key; the order is the backend's. */
  datatype MenuChild = MenuChild(key: string, node: MenuNode)

  /** One entry of a presentation list (options list, apps list). */
  datatype Item = Item(id: string, caption: Val)

  /** One entry of the application mapping, keyed by application code. */
  datatype AppEntry = AppEntry(code: string, value: Val)

  /** The tree helpers whose code is not part of this model; every transition
      takes them as a parameter and promises nothing about their results.
      - listByKey:       `getObjectListByKey(node)`, the children of a node as a list
      - appsByKey:       `getObjectListByKey(apps)`, the application mapping as a list
      - objectList:      `getObjectList(path, tree)`, the list visible at the end of a path
      - findDeep:        `findDeepObject(path, tree)`, the node a path leads to, if any
      - userApplication: `getUserApplication(appsList, node)`, the application value of a node */
  datatype Helpers = Helpers(
    listByKey: MenuNode -> seq<Item>,
    appsByKey: seq<AppEntry> -> seq<Item>,
    objectList: (seq<Crumb>, MenuNode) -> seq<Item>,
    findDeep: (seq<Crumb>, MenuNode) -> Option<MenuNode>,
    userApplication: (seq<Item>, MenuNode) -> Val)

  /** The action a leaf performs, chosen by its option code. */
  datatype OptionKind = Tecnored | OficinaVirtual | CotizadorGlm | NuevaVentana | DefaultKind

  /** The option code of each named kind; the default kind has none. */
  function CodeOf(k: OptionKind): string
    requires k != DefaultKind
  {
    match k
    case Tecnored => "TECNORED"
    case OficinaVirtual => "OFICINAVIRTUAL"
    case CotizadorGlm => "COTIZADORGLM"
    case NuevaVentana => "NUEVAVENTANA"
  }

  /** The `switch (node.option)` of a menu click: strict equality against the
      four codes; any other value, absent or not a string, is the default. */
  function KindOf(code: Val): (k: OptionKind)
    ensures k != DefaultKind ==> code == Str(CodeOf(k))
    ensures k == DefaultKind ==> forall n :: n != DefaultKind ==> code != Str(CodeOf(n))
  {
    if code == Str("TECNORED") then Tecnored
    else if code == Str("OFICINAVIRTUAL") then OficinaVirtual
    else if code == Str("COTIZADORGLM") then CotizadorGlm
    else if code == Str("NUEVAVENTANA") then NuevaVentana
    else DefaultKind
  }

  /** Every named kind is recognised from its own code, so the codes are distinct. */
  lemma KindOfCode(k: OptionKind)
    requires k != DefaultKind
    ensures KindOf(Str(CodeOf(k))) == k
  {
  }
}
