/**
 * The hash router of the single-page site: the route is read off
 * `window.location.hash`, and the page is looked up in a fixed table,
 * with the home page as the fallback.
 */
module App {

  /** The page components the table refers to. */
  datatype Page =
    | HomePage | ServicesPage | WorkPage | AboutPage | PlansPage | ContactPage
    | AIGeneratorPage | MyConcepts | QuoteCalculator | LogoGeneratorPage | IdeaGeneratorPage

  /** `routes`: the own keys of the table and the component each names. */
  const Routes: map<string, Page> := map[
    "/" := HomePage,
    "/services" := ServicesPage,
    "/work" := WorkPage,
    "/about" := AboutPage,
    "/pricing" := PlansPage,
    "/contact" := ContactPage,
    "/ai-generator" := AIGeneratorPage,
    "/my-concepts" := MyConcepts,
    "/quote-calculator" := QuoteCalculator,
    "/logo-generator" := LogoGeneratorPage,
    "/idea-generator" := IdeaGeneratorPage
  ]

  /** `window.location.hash.slice(1) || '/'`. */
  function RouteOfHash(hash: string): (route: string)
    ensures route != ""
  {
    if |hash| <= 1 then "/" else hash[1..]
  }

  /** The hash a route is reached by: `#` and the route. */
  function HashOf(route: string): string {
    "#" + route
  }

  /** Reading the route back from its hash gives the route; an empty hash and a bare `#` give the root. */
  lemma RouteOfHashInverts(route: string)
    ensures route != "" ==> RouteOfHash(HashOf(route)) == route
    ensures RouteOfHash("") == "/" && RouteOfHash("#") == "/"
  {
    if route != "" {
      assert HashOf(route)[1..] == route;
    }
  }

  /**
   * The page for a route, looked up among the table's own keys, with the
   * home page for anything else.
   */
  function Resolve(route: string): (page: Page)
    ensures route in Routes ==> page == Routes[route]
    ensures route !in Routes ==> page == HomePage
  {
    if route in Routes then Routes[route] else Routes["/"]
  }

  /** The route of each page: the inverse of the table. */
  function PathOf(page: Page): (route: string)
    ensures route in Routes && Routes[route] == page
  {
    match page
    case HomePage => "/"
    case ServicesPage => "/services"
    case WorkPage => "/work"
    case AboutPage => "/about"
    case PlansPage => "/pricing"
    case ContactPage => "/contact"
    case AIGeneratorPage => "/ai-generator"
    case MyConcepts => "/my-concepts"
    case QuoteCalculator => "/quote-calculator"
    case LogoGeneratorPage => "/logo-generator"
    case IdeaGeneratorPage => "/idea-generator"
  }

  /**
   * The table is a bijection between its keys and the eleven pages: every
   * page has exactly one key, and different keys name different pages.
   */
  lemma RoutesBijective()
    ensures forall p: Page :: Resolve(PathOf(p)) == p
    ensures forall r :: r in Routes ==> PathOf(Routes[r]) == r
    ensures forall r1, r2 :: r1 in Routes && r2 in Routes && Routes[r1] == Routes[r2] ==> r1 == r2
  {
    forall r | r in Routes ensures PathOf(Routes[r]) == r {
    }
    forall r1, r2 | r1 in Routes && r2 in Routes && Routes[r1] == Routes[r2] ensures r1 == r2 {
      assert PathOf(Routes[r1]) == r1 && PathOf(Routes[r2]) == r2;
    }
  }

  /** No hash can leave the page undefined, and the root and an empty hash show the home page. */
  lemma HomeIsTheFallback(hash: string)
    ensures RouteOfHash(hash) !in Routes ==> Resolve(RouteOfHash(hash)) == HomePage
    ensures Resolve(RouteOfHash("")) == HomePage && Resolve(RouteOfHash("#/")) == HomePage
  {
    assert "#/"[1..] == "/";
  }

  // ---------------------------------------------------------------------
  // The lookup as the program writes it
  // ---------------------------------------------------------------------

  /**
   * The members every object literal inherits from `Object.prototype`;
   * `routes[name]` finds them although they are not keys of the table.
   */
  const InheritedNames: set<string> := {
    "constructor", "__proto__", "hasOwnProperty", "isPrototypeOf",
    "propertyIsEnumerable", "toLocaleString", "toString", "valueOf",
    "__defineGetter__", "__defineSetter__", "__lookupGetter__", "__lookupSetter__"
  }

  /** What `routes[name]` evaluates to. */
  datatype Lookup = Component(page: Page) | Inherited(name: string) | Undefined

  /** Property access on the table: own keys first, then the prototype. */
  function RoutesIndex(name: string): (v: Lookup)
    ensures v.Component? <==> name in Routes
    ensures v.Inherited? <==> name !in Routes && name in InheritedNames
  {
    if name in Routes then Component(Routes[name])
    else if name in InheritedNames then Inherited(name)
    else Undefined
  }

  /** `routes[activeRoute] || routes['/']`: any value but `undefined` is kept. */
  function PageAsWritten(route: string): (v: Lookup)
    ensures !v.Undefined?
  {
    var v := RoutesIndex(route);
    if v.Undefined? then RoutesIndex("/") else v
  }

  /** Away from the inherited names, the written lookup is the table lookup with its fallback. */
  lemma AsWrittenAgreesOffPrototype(route: string)
    requires route !in InheritedNames
    ensures PageAsWritten(route) == Component(Resolve(route))
  {
  }

  /** `#constructor` selects `Object` itself, not a page and not the home-page fallback. */
  lemma ConstructorHashIsNotAPage()
    ensures PageAsWritten(RouteOfHash("#constructor")) == Inherited("constructor")
  {
    assert "#constructor"[1..] == "constructor";
    assert "constructor"[0] != '/';
    assert "constructor" !in Routes;
  }

  /**
   * The `activeRoute` state of the app shell. The page it renders is the
   * corrected lookup `Resolve`; away from the inherited names that is the
   * page `routes[activeRoute] || routes['/']` gives.
   */
  class Router {
    var activeRoute: string

    /** The initial state: `useState(window.location.hash.slice(1) || '/')`. */
    constructor (hash: string)
      ensures activeRoute == RouteOfHash(hash)
    {
      activeRoute := RouteOfHash(hash);
    }

    /** `handleHashChange`, run on mount and on each `hashchange` event. */
    method HandleHashChange(hash: string)
      modifies this
      ensures activeRoute == RouteOfHash(hash)
      ensures CurrentPage() == Resolve(RouteOfHash(hash))
      ensures RouteOfHash(hash) !in InheritedNames ==> PageAsWritten(activeRoute) == Component(CurrentPage())
    {
      activeRoute := RouteOfHash(hash);
    }

    /**
     * The page the shell renders, with the own-key lookup in place of the
     * written one: a table key shows its page, anything else the home page,
     * and off the inherited names this is the written expression's page.
     */
    function CurrentPage(): (page: Page)
      reads this
      ensures activeRoute in Routes ==> page == Routes[activeRoute]
      ensures activeRoute !in Routes ==> page == HomePage
      ensures activeRoute !in InheritedNames ==> PageAsWritten(activeRoute) == Component(page)
    {
      Resolve(activeRoute)
    }
  }
}
