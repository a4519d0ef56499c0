/** Which types the application exposes as controllers. */
module FeatureProvider {
  import opened WebApiModel
  import ApplicationService

  /** A type is a controller when it is a public, concrete, non-generic
      remote service. */
  function IsController(t: TypeFlags): (r: bool)
    ensures r ==> t.implementsRemoteService && t.isPublic
    ensures r ==> !t.isAbstract && !t.isGeneric
    ensures t.implementsRemoteService && t.isPublic && !t.isAbstract && !t.isGeneric ==> r
  {
    if !t.implementsRemoteService || !t.isPublic || t.isAbstract || t.isGeneric then false
    else true
  }

  /** Each of the four conditions is necessary, and together they suffice. */
  lemma IsControllerExactly(t: TypeFlags)
    ensures !t.implementsRemoteService ==> !IsController(t)
    ensures !t.isPublic ==> !IsController(t)
    ensures t.isAbstract ==> !IsController(t)
    ensures t.isGeneric ==> !IsController(t)
    ensures t.implementsRemoteService && t.isPublic && !t.isAbstract && !t.isGeneric ==> IsController(t)
  {
  }

  /** The abstract base class is not exposed; a concrete public service
      deriving from it is. */
  lemma BaseClassExcluded()
    ensures !IsController(ApplicationService.ApplicationServiceFlags)
    ensures IsController(ApplicationService.ApplicationServiceFlags.(isAbstract := false))
  {
  }
}
