/** Properties of the whole convention, stated per controller: what the
    controller-level short-circuit preserves, that synthesis routes every
    action, and how the synthesised verb decides body binding. */
module ConventionProperties {
  import opened Wrappers
  import opened WebApiModel
  import opened AppConsts
  import opened Convention

  /** A routed controller-level selector stops route synthesis for the whole
      controller: every action keeps its name and its selectors, empty ones
      included; only parameter bindings may change. */
  lemma ShortCircuitKeepsActions(cfg: Config, c: Controller, j: nat)
    requires c.flags.implementsRemoteService
    requires HasRoutedSelector(RemoveEmptySelectors(c.selectors))
    requires j < |c.actions|
    ensures var r := ApplyToController(cfg, c);
            && r.actions[j].name == c.actions[j].name
            && r.actions[j].selectors == c.actions[j].selectors
            && |r.actions[j].parameters| == |c.actions[j].parameters|
  {
    var renamed := c.(name := ApplicationService.ControllerName(c.name));
    var s := ConfigureControllerSelectors(cfg, renamed);
    assert s.actions == c.actions;
    assert ApplyToController(cfg, c).actions[j] == ConfigureParameters(cfg, s.actions[j]);
  }

  /** Without a routed controller-level selector every action of a remote
      service ends up routed under its RESTful name. */
  lemma SynthesisRoutesEveryAction(cfg: Config, c: Controller, j: nat)
    requires c.flags.implementsRemoteService
    requires !HasRoutedSelector(RemoveEmptySelectors(c.selectors))
    requires j < |c.actions|
    ensures var r := ApplyToController(cfg, c);
            && Routed(r.actions[j])
            && r.actions[j].name == RestfulActionName(cfg, c.actions[j].name)
  {
    var renamed := c.(name := ApplicationService.ControllerName(c.name));
    var s := ConfigureControllerSelectors(cfg, renamed);
    assert ApplyToController(cfg, c).actions[j] == ConfigureParameters(cfg, s.actions[j]);
  }

  /** A parameter that already has binding info, or whose type is
      primitive-like, leaves the convention exactly as it entered. */
  lemma SimpleParametersUntouched(cfg: Config, c: Controller, j: nat, k: nat)
    requires j < |c.actions| && k < |c.actions[j].parameters|
    requires c.actions[j].parameters[k].binding.Some? || c.actions[j].parameters[k].isPrimitiveLike
    ensures var r := ApplyToController(cfg, c);
            j < |r.actions| && k < |r.actions[j].parameters|
            && r.actions[j].parameters[k] == c.actions[j].parameters[k]
  {
    if c.flags.implementsRemoteService {
      var renamed := c.(name := ApplicationService.ControllerName(c.name));
      var s := ConfigureControllerSelectors(cfg, renamed);
      assert s.actions[j].parameters == c.actions[j].parameters;
      assert ApplyToController(cfg, c).actions[j] == ConfigureParameters(cfg, s.actions[j]);
    }
  }

  /** The synthesised selector of an action without selectors admits just
      the resolved verb. */
  lemma SynthesisedConstraint(cfg: Config, c: Controller, j: nat)
    requires c.flags.implementsRemoteService
    requires !HasRoutedSelector(RemoveEmptySelectors(c.selectors))
    requires j < |c.actions| && RemoveEmptySelectors(c.actions[j].selectors) == []
    ensures var r := ApplyToController(cfg, c);
            r.actions[j].selectors
            == [SynthesisedSelector(cfg, AreaName, ApplicationService.ControllerName(c.name), c.actions[j].name)]
  {
    var renamed := c.(name := ApplicationService.ControllerName(c.name));
    var s := ConfigureControllerSelectors(cfg, renamed);
    assert s.actions[j] == ConfigureActionSelectors(cfg, AreaName, renamed.name, c.actions[j]);
    assert ApplyToController(cfg, c).actions[j] == ConfigureParameters(cfg, s.actions[j]);
  }

  /** When the verb synthesised for an action is read-only (GET, DELETE,
      TRACE or HEAD) none of its parameters is bound from the body. */
  lemma ReadOnlyVerbBindsNothing(cfg: Config, c: Controller, j: nat)
    requires c.flags.implementsRemoteService
    requires !HasRoutedSelector(RemoveEmptySelectors(c.selectors))
    requires j < |c.actions| && RemoveEmptySelectors(c.actions[j].selectors) == []
    requires ResolveVerb(cfg, c.actions[j].name) in ReadOnlyMethods
    ensures ApplyToController(cfg, c).actions[j].parameters == c.actions[j].parameters
  {
    SynthesisedConstraint(cfg, c, j);
    var r := ApplyToController(cfg, c);
    var sel := r.actions[j].selectors[0];
    assert sel.constraints.value[0] == HttpMethodConstraint([ResolveVerb(cfg, c.actions[j].name)]);
    assert IsReadOnlyConstraint(sel.constraints.value[0]);
    var renamed := c.(name := ApplicationService.ControllerName(c.name));
    var s := ConfigureControllerSelectors(cfg, renamed);
    assert r.actions[j] == ConfigureParameters(cfg, s.actions[j]);
    assert HasReadOnlyMethodConstraint(s.actions[j].selectors);
    assert r.actions[j].parameters == s.actions[j].parameters;
  }

  /** When the synthesised verb is not read-only, a parameter without
      binding info, not primitive-like and of no ignored type is bound from
      the body. */
  lemma WritingVerbBindsBody(cfg: Config, c: Controller, j: nat, k: nat)
    requires c.flags.implementsRemoteService
    requires !HasRoutedSelector(RemoveEmptySelectors(c.selectors))
    requires j < |c.actions| && RemoveEmptySelectors(c.actions[j].selectors) == []
    requires ResolveVerb(cfg, c.actions[j].name) !in ReadOnlyMethods
    requires k < |c.actions[j].parameters|
    requires var p := c.actions[j].parameters[k];
             p.binding.None? && !p.isPrimitiveLike && !IsIgnoredType(cfg, p)
    ensures ApplyToController(cfg, c).actions[j].parameters[k].binding == Some(FromBody)
  {
    SynthesisedConstraint(cfg, c, j);
    var r := ApplyToController(cfg, c);
    var renamed := c.(name := ApplicationService.ControllerName(c.name));
    var s := ConfigureControllerSelectors(cfg, renamed);
    assert r.actions[j] == ConfigureParameters(cfg, s.actions[j]);
    var sels := s.actions[j].selectors;
    assert |sels| == 1 && sels[0].constraints.value == [HttpMethodConstraint([ResolveVerb(cfg, c.actions[j].name)])];
    assert !IsReadOnlyConstraint(sels[0].constraints.value[0]);
    assert !HasReadOnlyMethodConstraint(sels);
  }
}
