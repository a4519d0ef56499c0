/** The abstract base class of application services and the controller-name
    postfixes it declares. */
module ApplicationService {
  import opened Strings
  import opened WebApiModel

  /** Postfixes removed from a remote service's controller name, tried in
      this order. */
  const CommonPostfixes: seq<string> := ["AppService", "ApplicationService"]

  /** The base class itself: public, abstract, non-generic, and a remote
      service through `IApplicationService`. */
  const ApplicationServiceFlags := TypeFlags(
    implementsRemoteService := true, isPublic := true, isAbstract := true, isGeneric := false)

  /** The controller name a remote service is given. */
  function ControllerName(typeName: string): (r: string)
    ensures r <= typeName
    ensures IsSuffix("AppService", typeName) ==> r + "AppService" == typeName
    ensures (!IsSuffix("AppService", typeName) && IsSuffix("ApplicationService", typeName))
              ==> r + "ApplicationService" == typeName
    ensures (!IsSuffix("AppService", typeName) && !IsSuffix("ApplicationService", typeName))
              ==> r == typeName
  {
    RemovePostfix(typeName, CommonPostfixes)
  }

  lemma SuffixOfConcat(base: string, tail: string, p: string)
    requires |p| <= |tail|
    ensures IsSuffix(p, base + tail) <==> IsSuffix(p, tail)
  {
    var s := base + tail;
    assert s[|s| - |p|..] == tail[|tail| - |p|..];
  }

  /** A name ending in `AppService` loses exactly that postfix. */
  lemma AppServicePostfixRemoved(base: string)
    ensures ControllerName(base + "AppService") == base
  {
    var n := base + "AppService";
    SuffixOfConcat(base, "AppService", "AppService");
    assert n[..|base|] == base;
  }

  /** A name ending in `ApplicationService` does not end in `AppService`, so
      the whole `ApplicationService` postfix is removed. */
  lemma ApplicationServicePostfixRemoved(base: string)
    ensures ControllerName(base + "ApplicationService") == base
  {
    var n := base + "ApplicationService";
    SuffixOfConcat(base, "ApplicationService", "AppService");
    assert "ApplicationService"[8..] == "ionService";
    SuffixOfConcat(base, "ApplicationService", "ApplicationService");
    assert n[..|base|] == base;
  }

  /** The postfix is removed once: stripping twice can differ from stripping
      once, so a type called `XAppServiceAppService` is named `XAppService`,
      and only a second renaming would give `X`. */
  lemma StrippingIsNotIdempotent(base: string)
    ensures ControllerName(base + "AppService" + "AppService") == base + "AppService"
    ensures ControllerName(ControllerName(base + "AppService" + "AppService")) == base
  {
    AppServicePostfixRemoved(base + "AppService");
    AppServicePostfixRemoved(base);
  }
}
