/** The convention's configuration: the verb lexicon, fixed at start-up, and
    the host-supplied defaults. */
module AppConsts {
  import opened Strings
  import opened WebApiModel

  /** Leading word of an action name to HTTP method. The key `Add` is
      capitalised while every probe is lower-cased, so it can never match. */
  const HttpVerbs: map<string, string> := map[
    "Add" := "POST",
    "create" := "POST",
    "post" := "POST",
    "get" := "GET",
    "find" := "GET",
    "fetch" := "GET",
    "query" := "GET",
    "update" := "PUT",
    "put" := "PUT",
    "delete" := "DELETE",
    "remove" := "DELETE"
  ]

  /** The keys a lower-cased probe can reach. */
  const LowercaseVerbKeys: set<string> :=
    {"create", "post", "get", "find", "fetch", "query", "update", "put", "delete", "remove"}

  /** The host-supplied settings the convention reads: the verb used when the
      lexicon has no entry, the route prefix, the action postfixes to strip
      and the types never bound from the body. */
  datatype Config = Config(
    defaultHttpVerb: string,
    defaultApiPrefix: string,
    actionPostfixes: seq<string>,
    formBodyBindingIgnoredTypes: seq<TypeName>)

  /** The lexicon has eleven entries and maps only to the four methods POST,
      GET, PUT and DELETE. */
  lemma LexiconShape()
    ensures HttpVerbs.Keys == LowercaseVerbKeys + {"Add"}
    ensures |HttpVerbs| == 11
    ensures forall k | k in HttpVerbs :: HttpVerbs[k] in {"POST", "GET", "PUT", "DELETE"}
  {
    LexiconKeys();
    LowercaseKeysCount();
    LexiconValues();
    assert "Add" !in LowercaseVerbKeys;
    assert |HttpVerbs| == |HttpVerbs.Keys|;
  }

  lemma LexiconValues()
    ensures forall k | k in HttpVerbs :: HttpVerbs[k] in {"POST", "GET", "PUT", "DELETE"}
  {
    LexiconKeys();
  }

  lemma LexiconKeys()
    ensures HttpVerbs.Keys == LowercaseVerbKeys + {"Add"}
  {
  }

  lemma LowercaseKeysCount()
    ensures |LowercaseVerbKeys| == 10
  {
  }

  lemma EmptyIsNotAKey()
    ensures "" !in HttpVerbs
  {
  }

  /** The entries of the lexicon, grouped by method. */
  lemma LexiconEntries()
    ensures forall k | k in {"Add", "create", "post"} :: k in HttpVerbs && HttpVerbs[k] == "POST"
    ensures forall k | k in {"get", "find", "fetch", "query"} :: k in HttpVerbs && HttpVerbs[k] == "GET"
    ensures forall k | k in {"update", "put"} :: k in HttpVerbs && HttpVerbs[k] == "PUT"
    ensures forall k | k in {"delete", "remove"} :: k in HttpVerbs && HttpVerbs[k] == "DELETE"
  {
  }

  /** Every key but `Add` is already lower-case, and a lower-cased probe
      that hits the lexicon hits one of those ten keys, never `Add`. */
  lemma {:induction false} LowercaseProbeMissesAdd(probe: string)
    ensures ToLower(probe) != "Add"
    ensures ToLower(probe) in HttpVerbs <==> ToLower(probe) in LowercaseVerbKeys
    ensures forall k | k in LowercaseVerbKeys :: ToLower(k) == k
  {
    var lp := ToLower(probe);
    assert |lp| > 0 ==> lp[0] != 'A' by {
      if |lp| > 0 { assert !IsUpper(lp[0]); }
    }
    forall k | k in LowercaseVerbKeys ensures ToLower(k) == k {
      ToLowerOfLower(k);
    }
  }
}
