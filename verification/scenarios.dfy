/** The sample service `OrderAppService` and the naming cases the
    convention is built around, worked through the model. */
module Scenarios {
  import opened Wrappers
  import opened Strings
  import opened WebApiModel
  import opened AppConsts
  import opened Convention
  import ApplicationService
  import FeatureProvider
  import ConventionProperties

  const EmptySelector := Selector(None, None)

  /** `int id`: primitive-like, no binding info. */
  const IdParam := Parameter("id", None, true, {})

  /** A complex request type, assignable to no ignored type. */
  const DtoParam := Parameter("input", None, false, {"OrderDto"})

  const ServiceFlags := TypeFlags(
    implementsRemoteService := true, isPublic := true, isAbstract := false, isGeneric := false)

  /** `OrderAppService` as the framework first models it: one empty selector
      on the controller and on each of `GetAll` and `GetOrderById`. */
  const OrderAppService := Controller(
    "OrderAppService", ServiceFlags, [EmptySelector],
    [Action("GetAll", [EmptySelector], [IdParam]),
     Action("GetOrderById", [EmptySelector], [IdParam])])

  function RouteSelector(route: string, verb: string): Selector {
    Selector(Some(Template(route)), Some([HttpMethodConstraint([verb])]))
  }

  /** A name whose leading word is `word`, lower-cased to the lexicon key
      `key`, loses that word and takes the key's verb. */
  lemma LexiconWordStripped(cfg: Config, name: string, word: string, key: string, rest: string)
    requires name == word + rest
    requires |word| > 0 && forall i | 0 < i < |word| :: !IsUpper(word[i])
    requires |rest| == 0 || IsUpper(rest[0])
    requires key in HttpVerbs && ToLower(word) == key
    requires RemovePostfix(name, cfg.actionPostfixes) == name
    ensures ResolveVerb(cfg, name) == HttpVerbs[key]
    ensures RestfulActionName(cfg, name) == rest
  {
    LeadingWordOf(word, rest);
    VerbMatchesRestfulName(cfg, name);
  }

  lemma WordIsLower(word: string, lower: string)
    requires |word| == |lower| && forall i | 0 <= i < |word| :: LowerChar(word[i]) == lower[i]
    ensures ToLower(word) == lower
  {
  }

  /** `Get…` resolves to GET and drops `Get`. */
  lemma GetWord(cfg: Config, name: string, rest: string)
    requires name == "Get" + rest
    requires |rest| == 0 || IsUpper(rest[0])
    requires RemovePostfix(name, cfg.actionPostfixes) == name
    ensures ResolveVerb(cfg, name) == "GET"
    ensures RestfulActionName(cfg, name) == rest
  {
    var word := "Get";
    assert "get" in HttpVerbs && HttpVerbs["get"] == "GET";
    assert forall i | 0 < i < |word| :: !IsUpper(word[i]);
    WordIsLower(word, "get");
    LexiconWordStripped(cfg, name, word, "get", rest);
  }

  /** Parameters that are all primitive-like leave the binding step
      unchanged. */
  lemma PrimitiveParametersKept(cfg: Config, a: Action)
    requires forall k | 0 <= k < |a.parameters| :: a.parameters[k].isPrimitiveLike
    ensures ConfigureParameters(cfg, a) == a
  {
    var r := ConfigureParameters(cfg, a);
    assert r.parameters == a.parameters;
  }

  /** A `Get…` action of the `Order` controller that starts with one empty
      selector ends up with the single selector `GET /api/Order/…`. */
  lemma OrderGetAction(cfg: Config, name: string, rest: string, route: string, p: Parameter)
    requires cfg.defaultApiPrefix == "/api"
    requires name == "Get" + rest && |rest| > 0 && IsUpper(rest[0]) && HasNoSlash(rest)
    requires route == "/api/Order/" + rest
    requires RemovePostfix(name, cfg.actionPostfixes) == name
    requires p.isPrimitiveLike
    ensures ConfigureParameters(cfg, ConfigureActionSelectors(cfg, AreaName, "Order", Action(name, [EmptySelector], [p])))
            == Action(rest, [RouteSelector(route, "GET")], [p])
  {
    GetWord(cfg, name, rest);
    OrderRoute(rest);
    var a := Action(name, [EmptySelector], [p]);
    assert RemoveEmptySelectors(a.selectors) == [];
    var r := ConfigureActionSelectors(cfg, AreaName, "Order", a);
    assert r == Action(rest, [RouteSelector(route, "GET")], [p]);
    PrimitiveParametersKept(cfg, r);
  }

  /** `OrderAppService` is given the controller name `Order`. */
  lemma OrderControllerName()
    ensures ApplicationService.ControllerName("OrderAppService") == "Order"
  {
    ApplicationService.AppServicePostfixRemoved("Order");
    assert "Order" + "AppService" == "OrderAppService";
  }

  lemma GetAllAction(cfg: Config)
    requires cfg.defaultApiPrefix == "/api"
    requires forall p | p in cfg.actionPostfixes :: !IsSuffix(p, "GetAll")
    ensures ConfigureParameters(cfg, ConfigureActionSelectors(cfg, AreaName, "Order", OrderAppService.actions[0]))
            == Action("All", [RouteSelector("/api/Order/All", "GET")], [IdParam])
  {
    OrderGetAction(cfg, "GetAll", "All", "/api/Order/All", IdParam);
  }

  lemma GetOrderByIdAction(cfg: Config)
    requires cfg.defaultApiPrefix == "/api"
    requires forall p | p in cfg.actionPostfixes :: !IsSuffix(p, "GetOrderById")
    ensures ConfigureParameters(cfg, ConfigureActionSelectors(cfg, AreaName, "Order", OrderAppService.actions[1]))
            == Action("OrderById", [RouteSelector("/api/Order/OrderById", "GET")], [IdParam])
  {
    OrderGetAction(cfg, "GetOrderById", "OrderById", "/api/Order/OrderById", IdParam);
  }

  /** The sample service: it is exposed, named `Order`, and its two actions
      become `GET /api/Order/All` and `GET /api/Order/OrderById`, with `id`
      left to the default binding. */
  lemma OrderAppServiceRoutes(cfg: Config)
    requires cfg.defaultApiPrefix == "/api"
    requires forall p | p in cfg.actionPostfixes :: !IsSuffix(p, "GetAll") && !IsSuffix(p, "GetOrderById")
    ensures FeatureProvider.IsController(OrderAppService.flags)
    ensures var r := Apply(cfg, [OrderAppService]);
            && |r| == 1
            && r[0].name == "Order"
            && r[0].selectors == []
            && |r[0].actions| == 2
            && r[0].actions[0] == Action("All", [RouteSelector("/api/Order/All", "GET")], [IdParam])
            && r[0].actions[1] == Action("OrderById", [RouteSelector("/api/Order/OrderById", "GET")], [IdParam])
  {
    var c := OrderAppService.(name := "Order");
    assert RemoveEmptySelectors(c.selectors) == [];
    assert !HasRoutedSelector(RemoveEmptySelectors(c.selectors));
    var s := ConfigureControllerSelectors(cfg, c);
    assert s.actions[0] == ConfigureActionSelectors(cfg, AreaName, "Order", c.actions[0]);
    assert s.actions[1] == ConfigureActionSelectors(cfg, AreaName, "Order", c.actions[1]);
    var r := ConfigureControllerParameters(cfg, s);
    assert r.actions[0] == ConfigureParameters(cfg, s.actions[0]);
    assert r.actions[1] == ConfigureParameters(cfg, s.actions[1]);
    var applied := Apply(cfg, [OrderAppService]);
    assert applied[0] == ApplyToController(cfg, OrderAppService);
    OrderControllerName();
    assert ApplyToController(cfg, OrderAppService) == r;
    GetAllAction(cfg);
    GetOrderByIdAction(cfg);
  }

  /** The route prefix used by the scenarios below is well formed. */
  lemma ApiPrefixWellFormed()
    ensures NoDoubleSlash("/api") && !EndsWithSlash("/api") && HasNoSlash("Order")
  {
    SlashSegmentUnchanged("api");
  }

  /** Under the prefix `/api`, the `Order` controller's routes are
      `/api/Order/` followed by the action name. */
  lemma OrderRoute(action: string)
    requires HasNoSlash(action)
    ensures CreateActionRoute("/api", AreaName, "Order", action) == "/api/Order/" + action
  {
    ApiPrefixWellFormed();
    RouteWithoutArea("/api", "Order", action);
    assert "/api" + "/" + "Order" + "/" + action == "/api/Order/" + action;
  }

  lemma PostIsNotReadOnly()
    ensures "POST" !in ReadOnlyMethods
    ensures !IsReadOnlyConstraint(HttpMethodConstraint(["POST"]))
  {
    assert "POST"[0] == 'P';
    assert "GET"[0] == 'G' && "DELETE"[0] == 'D' && "TRACE"[0] == 'T' && "HEAD"[0] == 'H';
    assert "POST" in HttpMethodConstraint(["POST"]).methods;
  }

  /** `Post` is a verb word and nothing else. */
  lemma PostWord(cfg: Config)
    requires forall p | p in cfg.actionPostfixes :: !IsSuffix(p, "Post")
    ensures ResolveVerb(cfg, "Post") == "POST"
    ensures RestfulActionName(cfg, "Post") == ""
  {
    var name := "Post";
    assert "post" in HttpVerbs && HttpVerbs["post"] == "POST";
    assert forall i | 0 < i < |name| :: !IsUpper(name[i]);
    WordIsLower(name, "post");
    assert name == name + "";
    LexiconWordStripped(cfg, name, name, "post", "");
  }

  /** An action with one complex, unbound parameter of no ignored type and
      no read-only selector has that parameter bound from the body. */
  lemma SoleParameterBoundFromBody(cfg: Config, a: Action, p: Parameter)
    requires a.parameters == [p]
    requires p.binding.None? && !p.isPrimitiveLike && !IsIgnoredType(cfg, p)
    requires !HasReadOnlyMethodConstraint(a.selectors)
    ensures ConfigureParameters(cfg, a) == a.(parameters := [p.(binding := Some(FromBody))])
  {
    var r := ConfigureParameters(cfg, a);
    assert r.parameters[0] == p.(binding := Some(FromBody));
  }

  /** A selector admitting one method that is not read-only does not block
      body binding. */
  lemma WritingSelectorAdmitsBody(route: string, verb: string)
    requires verb !in ReadOnlyMethods
    ensures !HasReadOnlyMethodConstraint([RouteSelector(route, verb)])
  {
    var c := HttpMethodConstraint([verb]);
    assert verb in c.methods;
    assert !IsReadOnlyConstraint(c);
  }

  lemma DtoNotIgnored(cfg: Config)
    requires "OrderDto" !in cfg.formBodyBindingIgnoredTypes
    ensures !IsIgnoredType(cfg, DtoParam)
  {
  }

  lemma PostSelectors(cfg: Config)
    requires cfg.defaultApiPrefix == "/api"
    requires forall p | p in cfg.actionPostfixes :: !IsSuffix(p, "Post")
    ensures ConfigureActionSelectors(cfg, AreaName, "Order", Action("Post", [], [DtoParam]))
            == Action("", [RouteSelector("/api/Order/", "POST")], [DtoParam])
  {
    PostWord(cfg);
    OrderRoute("");
    assert "/api/Order/" + "" == "/api/Order/";
  }

  /** `Post(input)`: the whole name is the verb word, so the action name
      becomes empty and the route keeps its trailing slash; the complex
      parameter is bound from the body. */
  lemma PostAction(cfg: Config)
    requires cfg.defaultApiPrefix == "/api"
    requires forall p | p in cfg.actionPostfixes :: !IsSuffix(p, "Post")
    requires "OrderDto" !in cfg.formBodyBindingIgnoredTypes
    ensures ConfigureParameters(cfg, ConfigureActionSelectors(cfg, AreaName, "Order", Action("Post", [], [DtoParam])))
            == Action("", [RouteSelector("/api/Order/", "POST")], [DtoParam.(binding := Some(FromBody))])
  {
    PostSelectors(cfg);
    PostIsNotReadOnly();
    WritingSelectorAdmitsBody("/api/Order/", "POST");
    DtoNotIgnored(cfg);
    SoleParameterBoundFromBody(cfg, Action("", [RouteSelector("/api/Order/", "POST")], [DtoParam]), DtoParam);
  }

  /** `Add…` (say `AddOrder`): the lexicon key `Add` is capitalised and the
      probe `add` misses it, so the action keeps its full name and gets the
      default verb. */
  lemma AddIsNotAVerb(cfg: Config, name: string, rest: string)
    requires name == "Add" + rest && (|rest| == 0 || IsUpper(rest[0]))
    requires RemovePostfix(name, cfg.actionPostfixes) == name
    ensures ResolveVerb(cfg, name) == cfg.defaultHttpVerb
    ensures RestfulActionName(cfg, name) == name
  {
    AddProbe(name, rest);
    VerbMatchesRestfulName(cfg, name);
  }

  lemma AddProbe(name: string, rest: string)
    requires name == "Add" + rest && (|rest| == 0 || IsUpper(rest[0]))
    ensures VerbKey(name) == "add"
    ensures "add" !in HttpVerbs
  {
    assert forall i | 0 < i < |"Add"| :: !IsUpper("Add"[i]);
    LeadingWordOf("Add", rest);
    WordIsLower("Add", "add");
    LowercaseProbeMissesAdd("add");
    assert "add" !in LowercaseVerbKeys;
  }

  /** A name that is a single word is its own leading word, and its
      lexicon probe is its lower-cased form. */
  lemma WholeWordKey(word: string, key: string)
    requires |word| > 0 && forall i | 0 < i < |word| :: !IsUpper(word[i])
    requires |word| == |key| && forall i | 0 <= i < |word| :: LowerChar(word[i]) == key[i]
    ensures LeadingWord(word) == word
    ensures VerbKey(word) == key
  {
    LeadingWordOf(word, "");
    assert word + "" == word;
    WordIsLower(word, key);
  }

  lemma FetchitIsUnknown()
    ensures VerbKey("Fetchit") == "fetchit"
    ensures "fetchit" !in HttpVerbs
  {
    WholeWordKey("Fetchit", "fetchit");
  }

  lemma FetchIsKnown()
    ensures LeadingWord("Fetch") == "Fetch"
    ensures VerbKey("Fetch") == "fetch"
    ensures "fetch" in HttpVerbs
  {
    WholeWordKey("Fetch", "fetch");
  }

  lemma FetchitLosesIt()
    ensures RemovePostfix("Fetchit", ["it"]) == "Fetch"
  {
    assert IsSuffix("it", "Fetchit");
    assert "Fetchit"[..5] == "Fetch";
  }

  /** The verb is looked up before action postfixes are removed, the name
      after: with the postfix `it`, `Fetchit` gets the default verb (no
      entry for `fetchit`) but loses its whole name (`Fetch` is a key). */
  lemma VerbPrecedesPostfixRemoval(cfg: Config)
    requires cfg.actionPostfixes == ["it"]
    ensures ResolveVerb(cfg, "Fetchit") == cfg.defaultHttpVerb
    ensures RestfulActionName(cfg, "Fetchit") == ""
  {
    FetchitIsUnknown();
    FetchitLosesIt();
    FetchIsKnown();
    var r := RestfulActionName(cfg, "Fetchit");
    assert "Fetch" + r == "Fetch";
    assert |r| == 0;
  }

  /** Selectors without a constraint list never block body binding. */
  lemma UnconstrainedSelectorsAdmitBody(sels: seq<Selector>)
    requires forall i | 0 <= i < |sels| :: sels[i].constraints.None?
    ensures !HasReadOnlyMethodConstraint(sels)
  {
  }

  lemma ExplicitRouteSelectors(cfg: Config, name: string, rest: string, custom: Route, p: Parameter)
    requires cfg.defaultApiPrefix == "/api"
    requires name == "Get" + rest && (|rest| == 0 || IsUpper(rest[0]))
    requires RemovePostfix(name, cfg.actionPostfixes) == name
    ensures ConfigureActionSelectors(cfg, AreaName, "Order", Action(name, [Selector(Some(custom), None)], [p]))
            == Action(rest, [Selector(Some(Combined(Template("/api/Order/"), custom)), None)], [p])
  {
    GetWord(cfg, name, rest);
    OrderRoute("");
    assert "/api/Order/" + "" == "/api/Order/";
    var a := Action(name, [Selector(Some(custom), None)], [p]);
    assert RemoveEmptySelectors(a.selectors) == a.selectors;
  }

  /** An explicit action route is put behind the controller route
      `/api/Order/`; its (absent) constraints stay absent, so a `Get…`
      action is not made read-only and a complex parameter is bound from
      the body. */
  lemma ExplicitRouteCombined(cfg: Config, name: string, rest: string, custom: Route, p: Parameter)
    requires cfg.defaultApiPrefix == "/api"
    requires name == "Get" + rest && (|rest| == 0 || IsUpper(rest[0]))
    requires RemovePostfix(name, cfg.actionPostfixes) == name
    requires p.binding.None? && !p.isPrimitiveLike && !IsIgnoredType(cfg, p)
    ensures ConfigureParameters(cfg, ConfigureActionSelectors(cfg, AreaName, "Order", Action(name, [Selector(Some(custom), None)], [p])))
            == Action(rest, [Selector(Some(Combined(Template("/api/Order/"), custom)), None)],
                      [p.(binding := Some(FromBody))])
  {
    ExplicitRouteSelectors(cfg, name, rest, custom, p);
    var sels := [Selector(Some(Combined(Template("/api/Order/"), custom)), None)];
    UnconstrainedSelectorsAdmitBody(sels);
    SoleParameterBoundFromBody(cfg, Action(rest, sels, [p]), p);
  }

  /** One GET-only selector is enough to block body binding, even when a
      sibling selector admits POST. */
  lemma MixedSelectorsBlockBody(cfg: Config, name: string)
    ensures var a := Action(name, [Selector(None, Some([HttpMethodConstraint(["GET"])])),
                                   Selector(None, Some([HttpMethodConstraint(["POST"])]))], [DtoParam]);
            ConfigureParameters(cfg, a).parameters == [DtoParam]
  {
    var a := Action(name, [Selector(None, Some([HttpMethodConstraint(["GET"])])),
                           Selector(None, Some([HttpMethodConstraint(["POST"])]))], [DtoParam]);
    assert IsReadOnlyConstraint(a.selectors[0].constraints.value[0]);
    assert HasReadOnlyMethodConstraint(a.selectors);
  }

  /** A service called just `AppService` gets the empty controller name, and
      its routes keep a double slash: `All` is routed at `/api//All`. */
  lemma AppServiceAloneKeepsDoubleSlash()
    ensures ApplicationService.ControllerName("AppService") == ""
    ensures CreateActionRoute("/api", AreaName, ApplicationService.ControllerName("AppService"), "All") == "/api//All"
  {
    ApplicationService.AppServicePostfixRemoved("");
    assert "" + "AppService" == "AppService";
    ApiPrefixWellFormed();
    assert HasNoSlash("All");
    RouteWithEmptyController("/api", "All");
  }

  /** A method constraint with no methods counts as read-only (`All` over
      an empty list holds), so it blocks body binding. */
  lemma EmptyMethodListBlocksBody(cfg: Config)
    ensures var a := Action("Save", [Selector(None, Some([HttpMethodConstraint([])]))], [DtoParam]);
            ConfigureParameters(cfg, a).parameters == [DtoParam]
  {
    var a := Action("Save", [Selector(None, Some([HttpMethodConstraint([])]))], [DtoParam]);
    assert IsReadOnlyConstraint(a.selectors[0].constraints.value[0]);
    assert HasReadOnlyMethodConstraint(a.selectors);
  }

  /** A routed controller-level selector keeps `GetAll` exactly as the
      framework modelled it, empty selector and all, while the controller
      is still renamed. */
  lemma ControllerRouteStopsSynthesis(cfg: Config)
    ensures var c := OrderAppService.(selectors := [Selector(Some(Template("api/orders")), None)]);
            var r := ApplyToController(cfg, c);
            && r.name == "Order"
            && r.actions[0].name == "GetAll"
            && r.actions[0].selectors == [EmptySelector]
            && r.actions[0].parameters == [IdParam]
  {
    var c := OrderAppService.(selectors := [Selector(Some(Template("api/orders")), None)]);
    OrderControllerName();
    assert RemoveEmptySelectors(c.selectors) == c.selectors;
    assert HasRoutedSelector(RemoveEmptySelectors(c.selectors));
    ConventionProperties.ShortCircuitKeepsActions(cfg, c, 0);
    ConventionProperties.SimpleParametersUntouched(cfg, c, 0, 0);
    var r := ApplyToController(cfg, c);
    assert r.actions[0].parameters == [r.actions[0].parameters[0]];
  }

  /** Only a controller-level route stops synthesis: an explicit route on
      one action leaves a sibling action without selectors to be routed. */
  lemma ActionRouteDoesNotStopSynthesis(cfg: Config)
    ensures var c := Controller("OrderAppService", ServiceFlags, [],
                                [Action("GetOrderById", [Selector(Some(Template("/custom")), None)], [IdParam]),
                                 Action("GetAll", [], [IdParam])]);
            Routed(ApplyToController(cfg, c).actions[1])
  {
    var c := Controller("OrderAppService", ServiceFlags, [],
                        [Action("GetOrderById", [Selector(Some(Template("/custom")), None)], [IdParam]),
                         Action("GetAll", [], [IdParam])]);
    assert RemoveEmptySelectors(c.selectors) == [];
    assert !HasRoutedSelector(RemoveEmptySelectors(c.selectors));
    ConventionProperties.SynthesisRoutesEveryAction(cfg, c, 1);
  }
}
