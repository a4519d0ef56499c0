# MyWebApi dynamic Web API convention, in Dafny

MyWebApi turns plain service classes into ASP.NET Core controllers. A
feature provider picks out every public, non-abstract, non-generic type that
implements `IRemoteService`. A convention then shapes the application
model MVC built for those types:

- it drops the `AppService`/`ApplicationService` postfix from the controller name;
- it removes empty selectors;
- unless a selector of the controller itself carries a route, it routes every action. The route is `{prefix}/{area}/{controller}/{action}`, with no slash added in front; the prefix `/api` and the empty area give `/api/Order/All`. An action left without selectors gets one new selector with that route. An action's remaining selectors get that route when they have none, and put their own route behind `{prefix}/{area}/{controller}/` when they have one;
- only the new selector gets an HTTP method, guessed from the first word of the action name (`GetAll` becomes `GET /api/Order/All`). Selectors the action already had keep their constraints;
- it binds an unbound complex parameter from the request body, unless its type is one of the ignored types or some HTTP-method constraint on some selector of the action lists only read-only methods. One GET-only selector blocks body binding even beside a POST-only one (`Scenarios.MixedSelectorsBlockBody`).

The model is functional. The application model is a tree of immutable
datatypes: `Controller`, `Action`, `Selector`, `Parameter` and `Route`, in
`model.dfy`. Each step of the convention is a pure function over that tree:

| file | module | contents |
|---|---|---|
| `wrappers.dfy` | `Wrappers` | `Option`, standing for the source's nullable references |
| `strings.dfy` | `Strings` | postfix removal, leading Pascal/camel word, ASCII lower-casing, the single-pass `Replace("//", "/")` |
| `model.dfy` | `WebApiModel` | the application-model datatypes |
| `app_consts.dfy` | `AppConsts` | the verb lexicon and the host-supplied settings (`Config`) |
| `application_service.dfy` | `ApplicationService` | the common postfixes and the controller-name rule |
| `feature_provider.dfy` | `FeatureProvider` | which types become controllers |
| `convention.dfy` | `Convention` | the convention itself: verbs, route names, routes, selectors, body binding |
| `properties.dfy` | `ConventionProperties` | whole-controller properties of the convention |
| `scenarios.dfy` | `Scenarios` | the sample `OrderAppService` and edge cases, worked out exactly |

Five behaviours of the code are easy to misread. The model follows the code each time:

- Only the *controller's own* selectors can stop route synthesis (`MyWebApiConvention.cs:99-104`). An attribute route on one action does not stop the other actions from being routed. See `Scenarios.ActionRouteDoesNotStopSynthesis`.
- `Replace("//", "/")` is a single pass, so a route can still contain `//`. This happens when the prefix ends in a slash (`Convention.RouteMayKeepDoubleSlash`). It also happens when the controller name is empty: a service called just `AppService` is renamed to the empty name and routes `All` at `/api//All` (`Convention.RouteWithEmptyController`, `Scenarios.AppServiceAloneKeepsDoubleSlash`).
- An action whose whole name is a verb word, such as `Post`, keeps a trailing slash (`/api/Order/`). See `Convention.RouteJoinsSegments` and `Scenarios.PostAction`.
- An HTTP-method constraint with an empty method list blocks body binding, because `All` holds vacuously on it (`MyWebApiConvention.cs:165`). See `Scenarios.EmptyMethodListBlocksBody`.
- Postfix stripping is not idempotent. `RemovePostFix` removes one postfix once, so a doubled postfix survives one pass. See `ApplicationService.StrippingIsNotIdempotent`.

The lexicon key `Add` is capitalised, but every lookup uses a lower-cased probe, so `Add` can never match. The model keeps the key as written and proves that it is unreachable (`AppConsts.LowercaseProbeMissesAdd`, `Scenarios.AddIsNotAVerb`).

## Model

| member | source | states |
|---|---|---|
| Strings.RemovePostfix | MyWebApi/WebApiHelper/MyWebApiConvention.cs:184 | the result is a prefix of the input; it is the input when no postfix applies; otherwise the result followed by the first matching postfix gives back the input |
| Strings.LeadingWord | MyWebApi/WebApiHelper/MyWebApiConvention.cs:187 | the word is a prefix of the name, empty only for an empty name, has no upper-case letter after its first character, and is followed by an upper-case letter or by nothing |
| Strings.LeadingWordOf | MyWebApi/WebApiHelper/MyWebApiConvention.cs:187 | conversely, any non-empty word of that shape followed by an upper-case letter or nothing is the leading word |
| Strings.ToLower | MyWebApi/WebApiHelper/MyWebApiConvention.cs:187 | lower-casing keeps the length, maps each character on its own, and leaves no upper-case letter |
| Strings.ReplaceDoubleSlash | MyWebApi/WebApiHelper/MyWebApiConvention.cs:219 | the replacement never lengthens the route and keeps its first character |
| Strings.ReplaceChangesExactlyDoubleSlash | MyWebApi/WebApiHelper/MyWebApiConvention.cs:219 | the replacement is the identity on a route without `//`, and strictly shortens any route that holds one |
| Strings.ReplaceLeavesNoDoubleSlash | MyWebApi/WebApiHelper/MyWebApiConvention.cs:219 | a route without `///` holds no `//` after the replacement |
| Strings.ReplaceIsSinglePass | MyWebApi/WebApiHelper/MyWebApiConvention.cs:219 | a run of slashes only halves: `///` becomes `//` and `a////b` becomes `a//b` |
| Strings.ReplaceAppend | MyWebApi/WebApiHelper/MyWebApiConvention.cs:219 | the replacement distributes over a concatenation whose left part does not end in a slash |
| AppConsts.LexiconShape | MyWebApi/WebApiHelper/AppConsts.cs:25-41 | the lexicon has eleven keys, ten lower-case ones plus `Add`, and maps only to POST, GET, PUT and DELETE |
| AppConsts.LexiconEntries | MyWebApi/WebApiHelper/AppConsts.cs:27-40 | `Add`, `create` and `post` map to POST; `get`, `find`, `fetch` and `query` to GET; `update` and `put` to PUT; `delete` and `remove` to DELETE |
| AppConsts.LowercaseProbeMissesAdd | MyWebApi/WebApiHelper/AppConsts.cs:27 | no lower-cased probe equals `Add`; a probe hits the lexicon exactly when it is one of the ten lower-case keys |
| ApplicationService.ControllerName | MyWebApi/WebApiHelper/MyWebApiConvention.cs:30-33 | a name ending in `AppService` loses exactly that postfix; otherwise a name ending in `ApplicationService` loses that one; any other name is kept |
| ApplicationService.AppServicePostfixRemoved | MyWebApi/WebApiHelper/ApplicationService.cs:9 | `X` followed by `AppService` is renamed to `X`, for every `X` |
| ApplicationService.ApplicationServicePostfixRemoved | MyWebApi/WebApiHelper/ApplicationService.cs:9 | `X` followed by `ApplicationService` is renamed to `X`, for every `X` |
| ApplicationService.StrippingIsNotIdempotent | MyWebApi/WebApiHelper/MyWebApiConvention.cs:32 | the postfix is removed once per pass: for every `X`, `XAppServiceAppService` is renamed to `XAppService`, and only a second renaming gives `X` |
| FeatureProvider.IsController | MyWebApi/WebApiHelper/MyWebApiControllerFeatureProvider.cs:11-22 | a controller is a remote service, public, not abstract and not generic; every such type is a controller |
| FeatureProvider.IsControllerExactly | MyWebApi/WebApiHelper/MyWebApiControllerFeatureProvider.cs:11-22 | a type is a controller if and only if it is a remote service, public, not abstract and not generic |
| FeatureProvider.BaseClassExcluded | MyWebApi/WebApiHelper/ApplicationService.cs:7 | the abstract base service is not a controller, and only its abstractness excludes it |
| Convention.ResolveVerb | MyWebApi/WebApiHelper/MyWebApiConvention.cs:128-130 | a lexicon hit on the lower-cased leading word gives that entry; a miss gives the default verb; so the verb is POST, GET, PUT, DELETE or the default |
| Convention.RestfulActionName | MyWebApi/WebApiHelper/MyWebApiConvention.cs:181-203 | after the postfix is removed, a lexicon hit splits the name into the leading word and a strictly shorter result; a miss keeps the name |
| Convention.VerbMatchesRestfulName | MyWebApi/WebApiHelper/MyWebApiConvention.cs:128-132 | without an action postfix, the lexicon supplies the verb if and only if the name loses its leading word; verb and name then come from the same entry |
| Convention.CreateActionRoute | MyWebApi/WebApiHelper/MyWebApiConvention.cs:216-221 | the route is never longer than the raw template `prefix/area/controller/action`; it is that template when the template holds no `//`, and holds no `//` when the template holds no `///`. The convention always passes the empty area, so its raw templates do hold `//`; the exact route at those calls is given by `RouteJoinsSegments` and `RouteWithoutArea` |
| Convention.RouteJoinsSegments | MyWebApi/WebApiHelper/MyWebApiConvention.cs:216-221 | with a tidy prefix and slash-free segments, the route is the segments joined by single slashes; an empty area drops out; an empty action name leaves a trailing slash |
| Convention.RouteWithoutArea | MyWebApi/WebApiHelper/MyWebApiConvention.cs:218-219 | with the empty area the convention passes, the route is `prefix/controller/action` |
| Convention.RouteMayKeepDoubleSlash | MyWebApi/WebApiHelper/MyWebApiConvention.cs:219 | a prefix ending in a slash leaves `//` in the route |
| Convention.RouteWithEmptyController | MyWebApi/WebApiHelper/MyWebApiConvention.cs:218-219 | with the empty area and the empty controller name, the route is `prefix//action`, so it keeps a double slash |
| Convention.IsEmptySelector | MyWebApi/WebApiHelper/MyWebApiConvention.cs:232-235 | a selector with a route, or with a non-empty constraint list, is not empty; one with no route and no or an empty constraint list is |
| Convention.RemoveEmptySelectors | MyWebApi/WebApiHelper/MyWebApiConvention.cs:224-235 | a selector survives if and only if it was present and is not empty; a list with no empty selector is returned as it is |
| Convention.RemoveEmptyCounts | MyWebApi/WebApiHelper/MyWebApiConvention.cs:224-235 | no empty selector survives, and every other selector survives as often as it occurred |
| Convention.RemoveEmptyKeepsOrder | MyWebApi/WebApiHelper/MyWebApiConvention.cs:224-230 | removal distributes over concatenation, so the survivors keep their order |
| Convention.AddAppServiceSelector | MyWebApi/WebApiHelper/MyWebApiConvention.cs:126-141 | the action is renamed and gains exactly one selector at the end, routed by the new name and constrained to the verb of the old name; the earlier selectors and the parameters stay |
| Convention.NormalizeSelectorRoutes | MyWebApi/WebApiHelper/MyWebApiConvention.cs:205-214 | the action is renamed; each selector keeps its constraints; a missing route becomes the convention route, and an existing route is put behind the controller route |
| Convention.ConfigureActionSelectors | MyWebApi/WebApiHelper/MyWebApiConvention.cs:113-124 | afterwards the action is renamed and routed: one synthesised selector when nothing but empty selectors was left; otherwise the surviving selectors keep their constraints, a survivor without a route gets the convention route, and one with a route gets it behind the controller route |
| Convention.ConfigureControllerSelectors | MyWebApi/WebApiHelper/MyWebApiConvention.cs:97-111 | empty controller selectors are dropped; if a routed one remains the actions are untouched, otherwise every action goes through the per-action selector step, so it is renamed and routed |
| Convention.ScanConstraints | MyWebApi/WebApiHelper/MyWebApiConvention.cs:157-168 | the inner loop reports true exactly when some constraint is a method constraint all of whose methods are read-only |
| Convention.ScanSelectors | MyWebApi/WebApiHelper/MyWebApiConvention.cs:150-170 | the outer loop reports true exactly when some selector with constraints holds such a constraint |
| Convention.CanUseFromBodyBinding | MyWebApi/WebApiHelper/MyWebApiConvention.cs:143-173 | body binding is allowed if and only if the type is not ignored and no selector admits only read-only methods |
| Convention.ConfigureParameter | MyWebApi/WebApiHelper/MyWebApiConvention.cs:50-63 | the parameter either stays exactly as it was or gains a body binding, and nothing else; a bound or primitive-like parameter is kept; the body binding is gained if and only if it was unbound, complex, not of an ignored type and no selector of the action is read-only, so an ignored type or a read-only action leaves it unbound |
| Convention.ConfigureParameters | MyWebApi/WebApiHelper/MyWebApiConvention.cs:48-64 | only bindings change; bound or primitive-like parameters are kept; a parameter gains a body binding if and only if it was unbound, complex, not ignored and the action is not read-only |
| Convention.ConfigureControllerParameters | MyWebApi/WebApiHelper/MyWebApiConvention.cs:46-66 | the controller's name, flags, selectors and action count are kept, and each action goes through the parameter step |
| Convention.ConfigureDynamicWebApi | MyWebApi/WebApiHelper/MyWebApiConvention.cs:38-44 | selectors first, then parameters: the name and flags are kept, empty controller selectors are dropped, and each action is the parameter step applied to the selector step's result (to the original action when a controller selector carries a route) |
| Convention.ApplyToController | MyWebApi/WebApiHelper/MyWebApiConvention.cs:26-34 | a controller that is not a remote service is unchanged; a remote service is renamed, keeps its flags and action count, and loses its empty selectors; each of its actions goes through the parameter step after the per-action selector step under the new controller name, or directly when a remaining controller selector carries a route |
| Convention.Apply | MyWebApi/WebApiHelper/MyWebApiConvention.cs:19-36 | controllers keep their number and order; non-remote ones are unchanged; remote ones are renamed by the postfix rule |
| ConventionProperties.ShortCircuitKeepsActions | MyWebApi/WebApiHelper/MyWebApiConvention.cs:99-104 | a routed controller selector leaves every action's name and selectors, empty ones included, exactly as they were |
| ConventionProperties.SynthesisRoutesEveryAction | MyWebApi/WebApiHelper/MyWebApiConvention.cs:106-124 | without one, every action of a remote service ends up routed under its RESTful name |
| ConventionProperties.SimpleParametersUntouched | MyWebApi/WebApiHelper/MyWebApiConvention.cs:52-57 | a parameter with binding info, or of a primitive-like type, leaves the whole convention unchanged |
| ConventionProperties.SynthesisedConstraint | MyWebApi/WebApiHelper/MyWebApiConvention.cs:133-140 | an action without selectors ends with exactly the one synthesised selector |
| ConventionProperties.ReadOnlyVerbBindsNothing | MyWebApi/WebApiHelper/MyWebApiConvention.cs:138-168 | when the synthesised verb is GET or DELETE (or TRACE or HEAD), no parameter of the action gets a body binding |
| ConventionProperties.WritingVerbBindsBody | MyWebApi/WebApiHelper/MyWebApiConvention.cs:57-61 | when the synthesised verb is not read-only, every unbound, complex, non-ignored parameter is bound from the body |
| Scenarios.LexiconWordStripped | MyWebApi/WebApiHelper/MyWebApiConvention.cs:187-196 | a name made of a lexicon word and a capitalised rest gets that word's verb and keeps only the rest |
| Scenarios.GetAllAction | MyWebApi/MyWebApi/OrderAppService.cs:22 | `GetAll(int id)` becomes `All` at `GET /api/Order/All`, with `id` unbound |
| Scenarios.GetOrderByIdAction | MyWebApi/MyWebApi/OrderAppService.cs:29-33 | `GetOrderById(int id)` becomes `OrderById` at `GET /api/Order/OrderById`, as its comment says |
| Scenarios.OrderAppServiceRoutes | MyWebApi/MyWebApi/OrderAppService.cs:10-36 | the sample service is a controller, is renamed `Order`, and has exactly these two GET actions |
| Scenarios.PostAction | MyWebApi/WebApiHelper/MyWebApiConvention.cs:190-193 | `Post(dto)` gets the empty name, the route `/api/Order/` with its trailing slash, the method POST, and a body-bound `dto` |
| Scenarios.AddIsNotAVerb | MyWebApi/WebApiHelper/AppConsts.cs:27 | every `Add…` action, such as `AddOrder`, keeps its whole name and gets the default verb |
| Scenarios.VerbPrecedesPostfixRemoval | MyWebApi/WebApiHelper/MyWebApiConvention.cs:129-132 | the verb is looked up before postfix removal and the name after it, so with the postfix `it` the name `Fetchit` gets the default verb and an empty name |
| Scenarios.ExplicitRouteCombined | MyWebApi/WebApiHelper/MyWebApiConvention.cs:210-212 | for every `Get…` action with one explicit, unconstrained route: the route is put behind `/api/Order/`, the action loses `Get`, and its complex parameter is bound from the body |
| Scenarios.MixedSelectorsBlockBody | MyWebApi/WebApiHelper/MyWebApiConvention.cs:150-168 | an action with a GET-only selector and a POST-only selector leaves its complex parameter unbound |
| Scenarios.AppServiceAloneKeepsDoubleSlash | MyWebApi/WebApiHelper/MyWebApiConvention.cs:30-33 | a service called just `AppService` gets the empty controller name, and its action `All` the route `/api//All` |
| Scenarios.EmptyMethodListBlocksBody | MyWebApi/WebApiHelper/MyWebApiConvention.cs:165 | a method constraint with no methods counts as read-only and blocks body binding |
| Scenarios.ControllerRouteStopsSynthesis | MyWebApi/WebApiHelper/MyWebApiConvention.cs:101-104 | with a routed controller selector, `GetAll` keeps its name and its empty selector, while the controller is still renamed |
| Scenarios.ActionRouteDoesNotStopSynthesis | MyWebApi/WebApiHelper/MyWebApiConvention.cs:99-110 | a route on one action does not stop a sibling action from being routed |

## Left out

- The API-explorer step (`MyWebApiConvention.cs:69-93`) only sets the group name and visibility used for documentation, and no other step reads them. It is not modelled.
- Service registration (`MyWebApiServiceExtension.cs`) copies the options into the settings and registers the provider and the convention. The settings become the `Config` parameter. `MyWebApiOptions` and its validation are not part of this model.
- `DefaultAreaName` and `ControllerPostfixes` are never read by the convention, which always passes the empty area. They are not modelled.
- `AttributeRouteModel.CombineAttributeRouteModel` belongs to the framework. It is the uninterpreted constructor `Route.Combined`.
- Strings.RemovePostfix: the `RemovePostFix` extension is not part of this model. It is given the usual meaning: remove the first listed postfix the string ends with, once.
- Strings.LeadingWord: `GetPascalOrCamelCaseFirstWord` is not part of this model. It is taken to be the first character plus everything up to the next ASCII upper-case letter.
- Strings.ToLower: this covers ASCII letters only, not culture-sensitive Unicode lower-casing.
- Reflection becomes data. `IsAssignableFrom`, public, abstract and generic become `TypeFlags`. `TypeHelper.IsPrimitiveExtendedIncludingNullable` becomes `isPrimitiveLike`. A parameter type's assignability becomes the set `assignableTo`.
- FeatureProvider.BaseClassExcluded: `IApplicationService` is not part of this model. The base class is assumed to be a remote service, as its role implies.
- The convention mutates the application model in place. The model returns a new tree instead, so aliasing between selectors is not modelled.
- Selector identity: `IList.Remove` compares selectors by reference, and each selector it removes was taken from the same list, so every empty selector occurrence goes and nothing else does. The model compares selectors by value, and the effect is identical: `RemoveEmptySelectors` drops exactly the empty selectors.
