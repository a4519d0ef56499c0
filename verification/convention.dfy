/** The convention that turns remote services into HTTP endpoints: it renames
    controllers and actions, synthesises or completes their route selectors
    and decides which parameters are bound from the request body. */
module Convention {
  import opened Wrappers
  import opened Strings
  import opened WebApiModel
  import opened AppConsts
  import ApplicationService

  /** Methods whose requests carry no body the convention would bind. */
  const ReadOnlyMethods: set<string> := {"GET", "DELETE", "TRACE", "HEAD"}

  /** The area segment: the convention always passes the empty string. */
  const AreaName: string := ""

  // ---------------------------------------------------------------------
  // Verb resolution and the RESTful action name
  // ---------------------------------------------------------------------

  /** The lexicon probe for a name: its leading word, lower-cased. */
  function VerbKey(name: string): string {
    ToLower(LeadingWord(name))
  }

  /** The method a synthesised selector admits. It is computed from the
      action name as it stands, before any action postfix is removed. */
  function ResolveVerb(cfg: Config, actionName: string): (verb: string)
    ensures VerbKey(actionName) in HttpVerbs ==> verb == HttpVerbs[VerbKey(actionName)]
    ensures VerbKey(actionName) !in HttpVerbs ==> verb == cfg.defaultHttpVerb
    ensures verb in {"POST", "GET", "PUT", "DELETE"} || verb == cfg.defaultHttpVerb
  {
    LexiconShape();
    var verbKey := VerbKey(actionName);
    if verbKey in HttpVerbs then HttpVerbs[verbKey] else cfg.defaultHttpVerb
  }

  /** The action name the route uses: action postfixes are removed first,
      then the leading word when the lexicon knows it. The removed word and
      the result put back together give the postfix-stripped name. */
  function RestfulActionName(cfg: Config, actionName: string): (r: string)
    ensures var n := RemovePostfix(actionName, cfg.actionPostfixes);
            VerbKey(n) in HttpVerbs ==> LeadingWord(n) + r == n && |r| < |n|
    ensures var n := RemovePostfix(actionName, cfg.actionPostfixes);
            VerbKey(n) !in HttpVerbs ==> r == n
  {
    var n := RemovePostfix(actionName, cfg.actionPostfixes);
    var verbKey := VerbKey(n);
    if verbKey in HttpVerbs then
      EmptyIsNotAKey();
      PrefixSplit(LeadingWord(n), n);
      if |n| == |verbKey| then "" else n[|verbKey|..]
    else
      n
  }

  /** When no action postfix applies, verb and name agree: the lexicon
      supplies the verb exactly when the name loses its leading word, and
      then the verb is the lexicon entry for that word. */
  lemma VerbMatchesRestfulName(cfg: Config, actionName: string)
    requires RemovePostfix(actionName, cfg.actionPostfixes) == actionName
    ensures VerbKey(actionName) in HttpVerbs <==> |RestfulActionName(cfg, actionName)| < |actionName|
    ensures VerbKey(actionName) in HttpVerbs ==>
              ResolveVerb(cfg, actionName) == HttpVerbs[VerbKey(actionName)]
              && LeadingWord(actionName) + RestfulActionName(cfg, actionName) == actionName
    ensures VerbKey(actionName) !in HttpVerbs ==>
              ResolveVerb(cfg, actionName) == cfg.defaultHttpVerb
              && RestfulActionName(cfg, actionName) == actionName
  {
  }

  // ---------------------------------------------------------------------
  // Route templates
  // ---------------------------------------------------------------------

  /** `prefix/area/controller/action`, then one pass of `Replace("//", "/")`.
      The route is the raw template itself when that holds no `//`, holds
      no `//` when the template holds no `///`, and is never longer than
      the template. */
  function CreateActionRoute(prefix: string, area: string, controller: string, action: string): (r: string)
    ensures var raw := prefix + "/" + area + "/" + controller + "/" + action;
            && |r| <= |raw|
            && (NoDoubleSlash(raw) ==> r == raw)
            && (NoTripleSlash(raw) ==> NoDoubleSlash(r))
  {
    var raw := prefix + "/" + area + "/" + controller + "/" + action;
    ReplaceChangesExactlyDoubleSlash(raw);
    if NoTripleSlash(raw) then ReplaceLeavesNoDoubleSlash(raw); ReplaceDoubleSlash(raw)
    else ReplaceDoubleSlash(raw)
  }

  /** The raw template regrouped around its first slash. */
  lemma JoinWithArea(prefix: string, area: string, controller: string, action: string)
    ensures prefix + "/" + area + "/" + controller + "/" + action
            == prefix + (("/" + area) + ("/" + controller + "/" + action))
  {
  }

  /** The raw template with the empty area: the prefix followed by `//`. */
  lemma JoinWithoutArea(prefix: string, controller: string, action: string)
    ensures prefix + "/" + "" + "/" + controller + "/" + action == prefix + ("//" + (controller + "/" + action))
    ensures prefix + ("/" + (controller + "/" + action)) == prefix + "/" + controller + "/" + action
  {
  }

  lemma JoinSlashed(controller: string, action: string)
    ensures ("/" + controller) + ("/" + action) == "/" + controller + "/" + action
    ensures controller + ("/" + action) == controller + "/" + action
  {
  }

  /** `/controller/action` with slash-free segments is left alone. */
  lemma SlashedControllerActionUnchanged(controller: string, action: string)
    requires HasNoSlash(controller) && |controller| > 0 && HasNoSlash(action)
    ensures ReplaceDoubleSlash("/" + controller + "/" + action) == "/" + controller + "/" + action
  {
    var c := "/" + controller;
    var a := "/" + action;
    SlashSegmentUnchanged(controller);
    SlashSegmentUnchanged(action);
    ReplaceAppend(c, a);
    JoinSlashed(controller, action);
  }

  /** `controller/action` with slash-free segments is left alone. */
  lemma BareControllerActionUnchanged(controller: string, action: string)
    requires HasNoSlash(controller) && |controller| > 0 && HasNoSlash(action)
    ensures ReplaceDoubleSlash(controller + "/" + action) == controller + "/" + action
  {
    var a := "/" + action;
    SlashSegmentUnchanged(action);
    assert controller[|controller| - 1] != '/';
    assert NoDoubleSlash(controller) by {
      forall i | 0 <= i < |controller| ensures !DoubleSlashAt(controller, i) {
        assert controller[i] != '/';
      }
    }
    ReplaceChangesExactlyDoubleSlash(controller);
    ReplaceAppend(controller, a);
    JoinSlashed(controller, action);
  }

  /** A leading `//` becomes `/`. */
  lemma LeadingDoubleSlash(y: string)
    ensures ReplaceDoubleSlash("//" + y) == "/" + ReplaceDoubleSlash(y)
  {
    assert ("//" + y)[2..] == y;
  }

  /** A prefix without double slashes and not ending in a slash passes
      through unchanged, whatever follows it. */
  lemma PrefixUnchanged(prefix: string, x: string)
    requires NoDoubleSlash(prefix) && !EndsWithSlash(prefix)
    ensures ReplaceDoubleSlash(prefix + x) == prefix + ReplaceDoubleSlash(x)
  {
    ReplaceChangesExactlyDoubleSlash(prefix);
    ReplaceAppend(prefix, x);
  }

  /** With slash-free segments and a prefix that neither ends in a slash nor
      holds a double slash, the route is the segments joined by single
      slashes; an empty area drops out, and an empty action leaves the
      trailing slash in place. */
  lemma RouteJoinsSegments(prefix: string, area: string, controller: string, action: string)
    requires NoDoubleSlash(prefix) && !EndsWithSlash(prefix)
    requires HasNoSlash(area) && HasNoSlash(controller) && |controller| > 0 && HasNoSlash(action)
    ensures area == "" ==> CreateActionRoute(prefix, area, controller, action)
                           == prefix + "/" + controller + "/" + action
    ensures area != "" ==> CreateActionRoute(prefix, area, controller, action)
                           == prefix + "/" + area + "/" + controller + "/" + action
    ensures action == "" ==> EndsWithSlash(CreateActionRoute(prefix, area, controller, action))
  {
    if area == "" {
      RouteWithoutArea(prefix, controller, action);
    } else {
      RouteWithArea(prefix, area, controller, action);
    }
  }

  lemma RouteWithArea(prefix: string, area: string, controller: string, action: string)
    requires NoDoubleSlash(prefix) && !EndsWithSlash(prefix)
    requires HasNoSlash(area) && |area| > 0
    requires HasNoSlash(controller) && |controller| > 0 && HasNoSlash(action)
    ensures CreateActionRoute(prefix, area, controller, action)
            == prefix + "/" + area + "/" + controller + "/" + action
  {
    var tail := "/" + controller + "/" + action;
    JoinWithArea(prefix, area, controller, action);
    SlashedControllerActionUnchanged(controller, action);
    SlashSegmentUnchanged(area);
    ReplaceAppend("/" + area, tail);
    PrefixUnchanged(prefix, ("/" + area) + tail);
  }

  lemma RouteWithoutArea(prefix: string, controller: string, action: string)
    requires NoDoubleSlash(prefix) && !EndsWithSlash(prefix)
    requires HasNoSlash(controller) && |controller| > 0 && HasNoSlash(action)
    ensures CreateActionRoute(prefix, "", controller, action) == prefix + "/" + controller + "/" + action
  {
    var y := controller + "/" + action;
    JoinWithoutArea(prefix, controller, action);
    PrefixUnchanged(prefix, "//" + y);
    LeadingDoubleSlash(y);
    BareControllerActionUnchanged(controller, action);
  }

  /** A prefix that ends in a slash leaves a double slash in the route:
      the pass halves the run of three slashes to two. */
  lemma RouteMayKeepDoubleSlash(prefix: string, controller: string, action: string)
    requires NoDoubleSlash(prefix) && !EndsWithSlash(prefix)
    requires HasNoSlash(controller) && |controller| > 0 && HasNoSlash(action)
    ensures CreateActionRoute(prefix + "/", "", controller, action) == prefix + "//" + controller + "/" + action
    ensures !NoDoubleSlash(CreateActionRoute(prefix + "/", "", controller, action))
  {
    var y := "/" + controller + "/" + action;
    var r := prefix + "//" + controller + "/" + action;
    assert prefix + "/" + "/" + "" + "/" + controller + "/" + action == prefix + ("//" + y);
    assert prefix + ("/" + y) == r;
    assert DoubleSlashAt(r, |prefix|);
    PrefixUnchanged(prefix, "//" + y);
    LeadingDoubleSlash(y);
    SlashedControllerActionUnchanged(controller, action);
  }

  /** The raw template with empty area and controller: the prefix, then
      three slashes and the action. */
  lemma JoinWithoutAreaOrController(prefix: string, action: string)
    ensures prefix + "/" + "" + "/" + "" + "/" + action == prefix + ("//" + ("/" + action))
    ensures prefix + ("/" + ("/" + action)) == prefix + "//" + action
  {
  }

  /** An empty controller name, which a service called just `AppService`
      gets, also leaves `//` in the route: the run of three slashes between
      the prefix and the action only halves to two. */
  lemma RouteWithEmptyController(prefix: string, action: string)
    requires NoDoubleSlash(prefix) && !EndsWithSlash(prefix) && HasNoSlash(action)
    ensures CreateActionRoute(prefix, "", "", action) == prefix + "//" + action
    ensures !NoDoubleSlash(CreateActionRoute(prefix, "", "", action))
  {
    var y := "/" + action;
    JoinWithoutAreaOrController(prefix, action);
    PrefixUnchanged(prefix, "//" + y);
    LeadingDoubleSlash(y);
    SlashSegmentUnchanged(action);
    assert DoubleSlashAt(prefix + "//" + action, |prefix|);
  }

  // ---------------------------------------------------------------------
  // Selectors
  // ---------------------------------------------------------------------

  /** A selector with no route and no (or an empty list of) constraints. */
  function IsEmptySelector(s: Selector): (r: bool)
    ensures s.route.Some? ==> !r
    ensures s.constraints.Some? && |s.constraints.value| > 0 ==> !r
    ensures s.route.None? && (s.constraints == None || s.constraints == Some([])) ==> r
  {
    s.route.None? && (s.constraints.None? || |s.constraints.value| == 0)
  }

  /** Drops every empty selector and keeps the others. */
  function RemoveEmptySelectors(sels: seq<Selector>): (r: seq<Selector>)
    ensures forall s :: s in r <==> s in sels && !IsEmptySelector(s)
    ensures (forall s | s in sels :: !IsEmptySelector(s)) ==> r == sels
  {
    if |sels| == 0 then []
    else if IsEmptySelector(sels[0]) then
      RemoveEmptySelectors(sels[1..])
    else
      [sels[0]] + RemoveEmptySelectors(sels[1..])
  }

  /** Each non-empty selector survives as often as it occurred; no empty
      one survives. */
  lemma {:induction false} RemoveEmptyCounts(sels: seq<Selector>)
    ensures forall s :: multiset(RemoveEmptySelectors(sels))[s]
                        == if IsEmptySelector(s) then 0 else multiset(sels)[s]
    decreases |sels|
  {
    if |sels| > 0 {
      assert sels == [sels[0]] + sels[1..];
      RemoveEmptyCounts(sels[1..]);
    }
  }

  /** The survivors keep their relative order: removal distributes over
      concatenation. */
  lemma {:induction false} RemoveEmptyKeepsOrder(a: seq<Selector>, b: seq<Selector>)
    ensures RemoveEmptySelectors(a + b) == RemoveEmptySelectors(a) + RemoveEmptySelectors(b)
    decreases |a|
  {
    if |a| == 0 {
      assert a + b == b;
    } else {
      assert (a + b)[1..] == a[1..] + b;
      RemoveEmptyKeepsOrder(a[1..], b);
    }
  }

  /** Some selector carries an attribute route. */
  predicate HasRoutedSelector(sels: seq<Selector>) {
    exists s | s in sels :: s.route.Some?
  }

  /** An action that can be reached: it has a selector and every one of its
      selectors carries a route. */
  predicate Routed(a: Action) {
    |a.selectors| > 0 && forall s | s in a.selectors :: s.route.Some?
  }

  /** The selector synthesised for an action without selectors: the
      convention route for its RESTful name and a single HTTP-method
      constraint admitting only the resolved verb. */
  function SynthesisedSelector(cfg: Config, area: string, controllerName: string, actionName: string): Selector {
    Selector(
      Some(Template(CreateActionRoute(cfg.defaultApiPrefix, area, controllerName, RestfulActionName(cfg, actionName)))),
      Some([HttpMethodConstraint([ResolveVerb(cfg, actionName)])]))
  }

  /** Renames the action and appends exactly one synthesised selector. */
  function AddAppServiceSelector(cfg: Config, area: string, controllerName: string, a: Action): (r: Action)
    ensures r.name == RestfulActionName(cfg, a.name) && r.parameters == a.parameters
    ensures |r.selectors| == |a.selectors| + 1 && r.selectors[..|a.selectors|] == a.selectors
    ensures var s := r.selectors[|a.selectors|];
            && s.route == Some(Template(CreateActionRoute(cfg.defaultApiPrefix, area, controllerName, r.name)))
            && s.constraints == Some([HttpMethodConstraint([ResolveVerb(cfg, a.name)])])
  {
    Action(RestfulActionName(cfg, a.name),
           a.selectors + [SynthesisedSelector(cfg, area, controllerName, a.name)],
           a.parameters)
  }

  /** Fills a missing route with the convention route; puts the
      controller's route in front of an existing one. */
  function NormalizeRoute(cfg: Config, area: string, controllerName: string, actionName: string, s: Selector): Selector {
    var route :=
      if s.route.None? then Template(CreateActionRoute(cfg.defaultApiPrefix, area, controllerName, actionName))
      else Combined(Template(CreateActionRoute(cfg.defaultApiPrefix, area, controllerName, "")), s.route.value);
    s.(route := Some(route))
  }

  /** Renames the action and completes the route of each of its selectors,
      leaving their number and their constraints alone. */
  function NormalizeSelectorRoutes(cfg: Config, area: string, controllerName: string, a: Action): (r: Action)
    ensures r.name == RestfulActionName(cfg, a.name) && r.parameters == a.parameters
    ensures |r.selectors| == |a.selectors|
    ensures forall i | 0 <= i < |a.selectors| :: r.selectors[i].constraints == a.selectors[i].constraints
    ensures forall i | 0 <= i < |a.selectors| && a.selectors[i].route.None? ::
              r.selectors[i].route == Some(Template(CreateActionRoute(cfg.defaultApiPrefix, area, controllerName, r.name)))
    ensures forall i | 0 <= i < |a.selectors| && a.selectors[i].route.Some? ::
              r.selectors[i].route
              == Some(Combined(Template(CreateActionRoute(cfg.defaultApiPrefix, area, controllerName, "")), a.selectors[i].route.value))
  {
    var name := RestfulActionName(cfg, a.name);
    Action(name,
           seq(|a.selectors|, i requires 0 <= i < |a.selectors| => NormalizeRoute(cfg, area, controllerName, name, a.selectors[i])),
           a.parameters)
  }

  /** The per-action selector step: after removing empty selectors the
      action is always routed, either by one synthesised selector or by its
      own selectors with their routes completed: a surviving selector without
      a route gets the convention route, one with a route gets it behind the
      controller route, and each keeps its constraints. */
  function ConfigureActionSelectors(cfg: Config, area: string, controllerName: string, a: Action): (r: Action)
    ensures r.name == RestfulActionName(cfg, a.name) && r.parameters == a.parameters
    ensures Routed(r)
    ensures RemoveEmptySelectors(a.selectors) == [] ==>
              r.selectors == [SynthesisedSelector(cfg, area, controllerName, a.name)]
    ensures var kept := RemoveEmptySelectors(a.selectors);
            kept != [] ==>
              |r.selectors| == |kept|
              && forall i | 0 <= i < |kept| :: r.selectors[i].constraints == kept[i].constraints
    ensures var kept := RemoveEmptySelectors(a.selectors);
            kept != [] ==>
              && r == NormalizeSelectorRoutes(cfg, area, controllerName, a.(selectors := kept))
              && (forall i | 0 <= i < |kept| && kept[i].route.None? ::
                    r.selectors[i].route == Some(Template(CreateActionRoute(cfg.defaultApiPrefix, area, controllerName, r.name))))
              && (forall i | 0 <= i < |kept| && kept[i].route.Some? ::
                    r.selectors[i].route
                    == Some(Combined(Template(CreateActionRoute(cfg.defaultApiPrefix, area, controllerName, "")), kept[i].route.value)))
  {
    var cleaned := a.(selectors := RemoveEmptySelectors(a.selectors));
    if |cleaned.selectors| == 0 then AddAppServiceSelector(cfg, area, controllerName, cleaned)
    else
      var r := NormalizeSelectorRoutes(cfg, area, controllerName, cleaned);
      assert forall s | s in r.selectors :: s.route.Some? by {
        forall s | s in r.selectors ensures s.route.Some? {
          var i :| 0 <= i < |r.selectors| && r.selectors[i] == s;
        }
      }
      r
  }

  /** The controller-level selector step. Empty controller selectors are
      dropped; if a routed one remains the actions are left exactly as they
      were, otherwise every action is renamed and routed. */
  function ConfigureControllerSelectors(cfg: Config, c: Controller): (r: Controller)
    ensures r.name == c.name && r.flags == c.flags && |r.actions| == |c.actions|
    ensures r.selectors == RemoveEmptySelectors(c.selectors)
    ensures HasRoutedSelector(r.selectors) ==> r.actions == c.actions
    ensures !HasRoutedSelector(r.selectors) ==>
              forall i | 0 <= i < |r.actions| ::
                && Routed(r.actions[i])
                && r.actions[i].name == RestfulActionName(cfg, c.actions[i].name)
                && r.actions[i].parameters == c.actions[i].parameters
    ensures !HasRoutedSelector(r.selectors) ==>
              forall i | 0 <= i < |c.actions| :: r.actions[i] == ConfigureActionSelectors(cfg, AreaName, c.name, c.actions[i])
  {
    var sels := RemoveEmptySelectors(c.selectors);
    if HasRoutedSelector(sels) then c.(selectors := sels)
    else
      c.(selectors := sels,
         actions := seq(|c.actions|, i requires 0 <= i < |c.actions| =>
                          ConfigureActionSelectors(cfg, AreaName, c.name, c.actions[i])))
  }

  // ---------------------------------------------------------------------
  // Parameter binding
  // ---------------------------------------------------------------------

  /** An HTTP-method constraint all of whose methods are read-only; an empty
      method list qualifies vacuously. */
  predicate IsReadOnlyConstraint(c: Constraint) {
    c.HttpMethodConstraint? && forall m | m in c.methods :: m in ReadOnlyMethods
  }

  /** Some constraint of some selector is a read-only method constraint. */
  ghost predicate HasReadOnlyMethodConstraint(sels: seq<Selector>) {
    exists i, j | 0 <= i < |sels| && sels[i].constraints.Some? && 0 <= j < |sels[i].constraints.value| ::
      IsReadOnlyConstraint(sels[i].constraints.value[j])
  }

  /** The parameter's type is assignable to one of the ignored types. */
  predicate IsIgnoredType(cfg: Config, p: Parameter) {
    exists t | t in cfg.formBodyBindingIgnoredTypes :: t in p.assignableTo
  }

  /** The inner loop: skips constraints that are not HTTP-method
      constraints and stops at the first read-only one. */
  function ScanConstraints(cs: seq<Constraint>): (found: bool)
    ensures found <==> exists j | 0 <= j < |cs| :: IsReadOnlyConstraint(cs[j])
  {
    if |cs| == 0 then false
    else if !cs[0].HttpMethodConstraint? then
      assert !IsReadOnlyConstraint(cs[0]);
      assert forall j | 1 <= j < |cs| :: cs[j] == cs[1..][j - 1];
      ScanConstraints(cs[1..])
    else if forall m | m in cs[0].methods :: m in ReadOnlyMethods then true
    else
      assert forall j | 1 <= j < |cs| :: cs[j] == cs[1..][j - 1];
      ScanConstraints(cs[1..])
  }

  /** The outer loop: skips selectors without a constraint list. */
  function ScanSelectors(sels: seq<Selector>): (found: bool)
    ensures found <==> HasReadOnlyMethodConstraint(sels)
  {
    if |sels| == 0 then false
    else
      assert forall i | 1 <= i < |sels| :: sels[i] == sels[1..][i - 1];
      var rest := ScanSelectors(sels[1..]);
      assert rest <==> HasReadOnlyMethodConstraint(sels[1..]);
      assert HasReadOnlyMethodConstraint(sels[1..]) ==> HasReadOnlyMethodConstraint(sels) by {
        if HasReadOnlyMethodConstraint(sels[1..]) {
          var i, j :| 0 <= i < |sels[1..]| && sels[1..][i].constraints.Some?
                      && 0 <= j < |sels[1..][i].constraints.value|
                      && IsReadOnlyConstraint(sels[1..][i].constraints.value[j]);
          assert sels[i + 1] == sels[1..][i];
        }
      }
      if sels[0].constraints.None? then rest
      else ScanConstraints(sels[0].constraints.value) || rest
  }

  /** Body binding is allowed unless the parameter's type is ignored or some
      selector of the action admits only read-only methods. */
  function CanUseFromBodyBinding(cfg: Config, a: Action, p: Parameter): (r: bool)
    ensures r <==> !IsIgnoredType(cfg, p) && !HasReadOnlyMethodConstraint(a.selectors)
  {
    if IsIgnoredType(cfg, p) then false
    else !ScanSelectors(a.selectors)
  }

  /** One parameter: existing binding info and primitive-like types are left
      alone; otherwise the parameter is bound from the body when allowed. */
  function ConfigureParameter(cfg: Config, a: Action, p: Parameter): (r: Parameter)
    ensures r == p || r == p.(binding := Some(FromBody))
    ensures r.(binding := p.binding) == p
    ensures p.binding.Some? || p.isPrimitiveLike ==> r == p
    ensures r.binding == Some(FromBody) && p.binding.None?
            <==> p.binding.None? && !p.isPrimitiveLike && !IsIgnoredType(cfg, p) && !HasReadOnlyMethodConstraint(a.selectors)
  {
    if p.binding.Some? then p
    else if !p.isPrimitiveLike && CanUseFromBodyBinding(cfg, a, p) then p.(binding := Some(FromBody))
    else p
  }

  /** All parameters of an action. Only bindings change; a parameter gains
      a body binding exactly when it had none, is not primitive-like, is not
      of an ignored type and no selector of the action is read-only. */
  function ConfigureParameters(cfg: Config, a: Action): (r: Action)
    ensures r.name == a.name && r.selectors == a.selectors && |r.parameters| == |a.parameters|
    ensures forall k | 0 <= k < |a.parameters| ::
              r.parameters[k].(binding := a.parameters[k].binding) == a.parameters[k]
    ensures forall k | 0 <= k < |a.parameters| && (a.parameters[k].binding.Some? || a.parameters[k].isPrimitiveLike) ::
              r.parameters[k] == a.parameters[k]
    ensures forall k | 0 <= k < |a.parameters| && (IsIgnoredType(cfg, a.parameters[k]) || HasReadOnlyMethodConstraint(a.selectors)) ::
              r.parameters[k] == a.parameters[k]
    ensures forall k | 0 <= k < |a.parameters| ::
              var p := a.parameters[k];
              (p.binding.None? && !p.isPrimitiveLike && !IsIgnoredType(cfg, p) && !HasReadOnlyMethodConstraint(a.selectors))
              <==> r.parameters[k].binding == Some(FromBody) && p.binding.None?
  {
    a.(parameters := seq(|a.parameters|, k requires 0 <= k < |a.parameters| => ConfigureParameter(cfg, a, a.parameters[k])))
  }

  function ConfigureControllerParameters(cfg: Config, c: Controller): (r: Controller)
    ensures r.name == c.name && r.flags == c.flags && r.selectors == c.selectors && |r.actions| == |c.actions|
    ensures forall i | 0 <= i < |c.actions| :: r.actions[i] == ConfigureParameters(cfg, c.actions[i])
  {
    c.(actions := seq(|c.actions|, i requires 0 <= i < |c.actions| => ConfigureParameters(cfg, c.actions[i])))
  }

  // ---------------------------------------------------------------------
  // The convention
  // ---------------------------------------------------------------------

  /** Selectors first, then parameters, so that body binding sees the
      selectors the convention produced: each action of the result is the
      parameter step applied to the selector step's action. */
  function ConfigureDynamicWebApi(cfg: Config, c: Controller): (r: Controller)
    ensures r.name == c.name && r.flags == c.flags && |r.actions| == |c.actions|
    ensures r.selectors == RemoveEmptySelectors(c.selectors)
    ensures var sc := ConfigureControllerSelectors(cfg, c);
            forall i | 0 <= i < |c.actions| :: r.actions[i] == ConfigureParameters(cfg, sc.actions[i])
    ensures HasRoutedSelector(r.selectors) ==>
              forall i | 0 <= i < |c.actions| :: r.actions[i] == ConfigureParameters(cfg, c.actions[i])
    ensures !HasRoutedSelector(r.selectors) ==>
              forall i | 0 <= i < |c.actions| ::
                r.actions[i] == ConfigureParameters(cfg, ConfigureActionSelectors(cfg, AreaName, c.name, c.actions[i]))
  {
    ConfigureControllerParameters(cfg, ConfigureControllerSelectors(cfg, c))
  }

  /** One controller: a remote service is renamed and configured; any other
      controller is left as it is. */
  function ApplyToController(cfg: Config, c: Controller): (r: Controller)
    ensures !c.flags.implementsRemoteService ==> r == c
    ensures c.flags.implementsRemoteService ==>
              && r.name == ApplicationService.ControllerName(c.name)
              && r.flags == c.flags
              && r.selectors == RemoveEmptySelectors(c.selectors)
              && |r.actions| == |c.actions|
    ensures c.flags.implementsRemoteService ==>
              forall i | 0 <= i < |c.actions| ::
                r.actions[i]
                == ConfigureParameters(cfg, if HasRoutedSelector(RemoveEmptySelectors(c.selectors)) then c.actions[i]
                                            else ConfigureActionSelectors(cfg, AreaName, ApplicationService.ControllerName(c.name), c.actions[i]))
  {
    if c.flags.implementsRemoteService then
      ConfigureDynamicWebApi(cfg, c.(name := ApplicationService.ControllerName(c.name)))
    else c
  }

  /** The convention over the whole application model: controllers keep
      their number and order, those that are not remote services are left
      alone, and each remote service is renamed. */
  function Apply(cfg: Config, controllers: seq<Controller>): (r: seq<Controller>)
    ensures |r| == |controllers|
    ensures forall i | 0 <= i < |controllers| && !controllers[i].flags.implementsRemoteService ::
              r[i] == controllers[i]
    ensures forall i | 0 <= i < |controllers| && controllers[i].flags.implementsRemoteService ::
              r[i].name == ApplicationService.ControllerName(controllers[i].name)
    ensures forall i | 0 <= i < |controllers| :: r[i] == ApplyToController(cfg, controllers[i])
  {
    if |controllers| <= 0 then controllers
    else seq(|controllers|, i requires 0 <= i < |controllers| => ApplyToController(cfg, controllers[i]))
  }
}
