/**
 * The list-grid fetch factory of the open admin platform: given a persistence
 * request for a list grid, it decides which fields the grid has to fetch for the
 * request's ceiling entity. Configured rules name an entity exactly or by a
 * regular expression; the first rule that matches wins, and the outcome is
 * memoised in a key-value cache under "refineFetch:" plus the entity name with
 * one trailing "Impl" removed.
 *
 * The ORM lookup of the implementation class, the sandbox check, the regular
 * expression engine and the universal field handlers are foreign code; they are
 * the function-typed fields of `Collaborators` and `FieldHandler`.
 */
module ListGridFetch {
  import opened Wrappers
  import opened Strings

  const CACHE_KEY_PREFIX: string := "refineFetch:"
  const IMPL_SUFFIX: string := "Impl"

  /** The part of a PersistencePackageRequest the factory reads. */
  datatype PackageRequest = PackageRequest(isListGridFetchRequest: bool, ceilingEntityClassname: string)

  /** A configured rule (ListGridFetchEntity); a missing target is Java's null. */
  datatype FetchEntity = FetchEntity(
    entityTarget: Option<string>,
    regexTarget: Option<string>,
    additionalFetchFields: seq<string>)

  /**
   * A ListGridFetchRequest, as a value. `entity` is the name of the implementation
   * class; `fetchFields` is `None` while it has never been set.
   */
  datatype FetchRequest = FetchRequest(
    entity: string,
    isSandboxableEntity: bool,
    useRefinedFetch: bool,
    fetchFields: Option<seq<string>>)

  /** A ListGridUniversalFieldHandler: whether it applies, and the fields it adds when it does. */
  datatype FieldHandler = FieldHandler(
    canHandleEntity: (FetchRequest, FetchEntity) -> bool,
    universalFetchFields: seq<string>)

  /** The foreign services the factory calls. */
  datatype Collaborators = Collaborators(
    // GenericEntityDao.getCeilingImplClass(name).getName()
    ceilingImplClass: string -> string,
    // SandBoxHelper.isSandBoxable(className)
    isSandBoxable: string -> bool,
    // Pattern.compile(regex).matcher(s).matches(): the regex matches the WHOLE string
    regexMatches: (string, string) -> bool)

  // ---------------------------------------------------------------------------
  // Name normalisation and the cache key

  /** The ceiling entity name with one trailing "Impl" removed, when it has one. */
  function StripImpl(name: string): (r: string)
    ensures EndsWith(name, IMPL_SUFFIX) ==> |r| == |name| - |IMPL_SUFFIX| && name == r + IMPL_SUFFIX
    ensures !EndsWith(name, IMPL_SUFFIX) ==> r == name
  {
    if EndsWith(name, IMPL_SUFFIX) then
      LastIndexOfSuffix(name, IMPL_SUFFIX);
      name[..LastIndexOf(name, IMPL_SUFFIX)]
    else
      name
  }

  /** Exactly one "Impl" is removed, however many the name ends with. */
  lemma {:induction false} StripImplRemovesOne(x: string)
    ensures StripImpl(x + IMPL_SUFFIX) == x
  {
    var s := x + IMPL_SUFFIX;
    assert s[|s| - |IMPL_SUFFIX|..] == IMPL_SUFFIX;
    var r := StripImpl(s);
    assert r == (r + IMPL_SUFFIX)[..|r|] == s[..|x|] == x;
  }

  /** The example of a doubled suffix: "FooImplImpl" becomes "FooImpl", not "Foo". */
  lemma StripImplDoubled()
    ensures StripImpl("FooImplImpl") == "FooImpl"
    ensures StripImpl(StripImpl("FooImplImpl")) == "Foo"
  {
    StripImplRemovesOne("FooImpl");
    StripImplRemovesOne("Foo");
  }

  /** The cache key of a ceiling entity name. */
  function CacheKey(name: string): string
  {
    CACHE_KEY_PREFIX + StripImpl(name)
  }

  /** Two names share a cache entry exactly when they normalise to the same name. */
  lemma CacheKeySameIff(a: string, b: string)
    ensures CacheKey(a) == CacheKey(b) <==> StripImpl(a) == StripImpl(b)
  {
    if CacheKey(a) == CacheKey(b) {
      assert StripImpl(a) == CacheKey(a)[|CACHE_KEY_PREFIX|..] == CacheKey(b)[|CACHE_KEY_PREFIX|..] == StripImpl(b);
    }
  }

  /** "X" and "XImpl" share one cache entry, unless "X" itself already ends with "Impl". */
  lemma CacheKeyShared(x: string)
    ensures CacheKey(x) == CacheKey(x + IMPL_SUFFIX) <==> !EndsWith(x, IMPL_SUFFIX)
  {
    StripImplRemovesOne(x);
    CacheKeySameIff(x, x + IMPL_SUFFIX);
  }

  // ---------------------------------------------------------------------------
  // Rule matching

  /** The regex half of a rule: the rule itself when its regex matches the whole name, otherwise null. */
  function AttemptToFindRegexTarget(ceilingEntity: string, rule: FetchEntity, regexMatches: (string, string) -> bool)
    : (r: Option<FetchEntity>)
    ensures r.Some? <==> rule.regexTarget.Some? && regexMatches(rule.regexTarget.value, ceilingEntity)
    ensures r.Some? ==> r.value == rule
  {
    match rule.regexTarget
    case None => None
    case Some(regex) => if regexMatches(regex, ceilingEntity) then Some(rule) else None
  }

  /** A rule applies to a name by its exact target or by its regex. */
  predicate RuleMatches(ceilingEntity: string, rule: FetchEntity, regexMatches: (string, string) -> bool)
  {
    rule.entityTarget == Some(ceilingEntity) || AttemptToFindRegexTarget(ceilingEntity, rule, regexMatches).Some?
  }

  /** The position of the first rule, in list order, that applies to the name. */
  function FirstMatchIndex(rules: seq<FetchEntity>, ceilingEntity: string, regexMatches: (string, string) -> bool)
    : (r: Option<nat>)
    ensures r.Some? ==> r.value < |rules| && RuleMatches(ceilingEntity, rules[r.value], regexMatches)
    ensures r.Some? ==> forall j :: 0 <= j < r.value ==> !RuleMatches(ceilingEntity, rules[j], regexMatches)
    ensures r.None? <==> forall j :: 0 <= j < |rules| ==> !RuleMatches(ceilingEntity, rules[j], regexMatches)
    decreases |rules|
  {
    if rules == [] then None
    else if RuleMatches(ceilingEntity, rules[0], regexMatches) then Some(0)
    else
      match FirstMatchIndex(rules[1..], ceilingEntity, regexMatches)
      case None => None
      case Some(k) => Some(k + 1)
  }

  /** A matching rule with no matching rule before it is the one found. */
  lemma FirstMatchIndexIs(rules: seq<FetchEntity>, ceilingEntity: string, regexMatches: (string, string) -> bool, i: nat)
    requires i < |rules| && RuleMatches(ceilingEntity, rules[i], regexMatches)
    requires forall j :: 0 <= j < i ==> !RuleMatches(ceilingEntity, rules[j], regexMatches)
    ensures FirstMatchIndex(rules, ceilingEntity, regexMatches) == Some(i)
  {
    var r := FirstMatchIndex(rules, ceilingEntity, regexMatches);
    assert r.Some?;
    assert !(r.value < i);
    assert !(i < r.value);
  }

  /** An earlier regex match beats a later exact match. */
  lemma EarlierRegexBeatsLaterExact(
    rules: seq<FetchEntity>, ceilingEntity: string, regexMatches: (string, string) -> bool, i: nat, j: nat)
    requires i < j < |rules|
    requires rules[i].regexTarget.Some? && regexMatches(rules[i].regexTarget.value, ceilingEntity)
    requires rules[j].entityTarget == Some(ceilingEntity)
    ensures FirstMatchIndex(rules, ceilingEntity, regexMatches).Some?
    ensures FirstMatchIndex(rules, ceilingEntity, regexMatches).value <= i
  {
    assert RuleMatches(ceilingEntity, rules[i], regexMatches);
  }

  /** Rules added after the list do not change a match already found in it; otherwise the search goes on into them. */
  lemma {:induction false} FirstMatchIndexAppend(
    a: seq<FetchEntity>, b: seq<FetchEntity>, ceilingEntity: string, regexMatches: (string, string) -> bool)
    ensures FirstMatchIndex(a + b, ceilingEntity, regexMatches) ==
      match FirstMatchIndex(a, ceilingEntity, regexMatches)
      case Some(i) => Some(i)
      case None =>
        match FirstMatchIndex(b, ceilingEntity, regexMatches)
        case Some(k) => Some(|a| + k)
        case None => None
    decreases |a|
  {
    if a == [] {
      assert a + b == b;
    } else {
      assert (a + b)[0] == a[0];
      if !RuleMatches(ceilingEntity, a[0], regexMatches) {
        assert (a + b)[1..] == a[1..] + b;
        FirstMatchIndexAppend(a[1..], b, ceilingEntity, regexMatches);
      }
    }
  }

  // ---------------------------------------------------------------------------
  // Fetch fields

  /** The fields one handler contributes: its universal fields when it accepts the entity. */
  function Contribution(handler: FieldHandler, request: FetchRequest, rule: FetchEntity): seq<string>
  {
    if handler.canHandleEntity(request, rule) then handler.universalFetchFields else []
  }

  /** The fields of every accepting handler, in handler order. */
  function HandlerFields(handlers: seq<FieldHandler>, request: FetchRequest, rule: FetchEntity): seq<string>
    decreases |handlers|
  {
    if handlers == [] then []
    else Contribution(handlers[0], request, rule) + HandlerFields(handlers[1..], request, rule)
  }

  /** Appending a handler appends its contribution. */
  lemma {:induction false} HandlerFieldsSnoc(
    handlers: seq<FieldHandler>, handler: FieldHandler, request: FetchRequest, rule: FetchEntity)
    ensures HandlerFields(handlers + [handler], request, rule) ==
            HandlerFields(handlers, request, rule) + Contribution(handler, request, rule)
    decreases |handlers|
  {
    if handlers == [] {
      assert [] + [handler] == [handler];
    } else {
      assert (handlers + [handler])[1..] == handlers[1..] + [handler];
      HandlerFieldsSnoc(handlers[1..], handler, request, rule);
    }
  }

  /** A field is contributed by the handlers exactly when some accepting handler lists it. */
  lemma {:induction false} HandlerFieldsMembers(
    handlers: seq<FieldHandler>, request: FetchRequest, rule: FetchEntity, field: string)
    ensures field in HandlerFields(handlers, request, rule) <==>
      exists i :: 0 <= i < |handlers| && handlers[i].canHandleEntity(request, rule)
                  && field in handlers[i].universalFetchFields
    decreases |handlers|
  {
    if handlers != [] {
      HandlerFieldsMembers(handlers[1..], request, rule, field);
      if field in HandlerFields(handlers[1..], request, rule) {
        var i :| 0 <= i < |handlers[1..]| && handlers[1..][i].canHandleEntity(request, rule)
                 && field in handlers[1..][i].universalFetchFields;
        assert handlers[i + 1] == handlers[1..][i];
      }
      if exists i :: 0 <= i < |handlers| && handlers[i].canHandleEntity(request, rule)
                     && field in handlers[i].universalFetchFields {
        var i :| 0 <= i < |handlers| && handlers[i].canHandleEntity(request, rule)
                 && field in handlers[i].universalFetchFields;
        if i > 0 {
          assert handlers[1..][i - 1] == handlers[i];
        }
      }
    }
  }

  // ---------------------------------------------------------------------------
  // The whole resolution, as a specification

  /** The request before any rule is applied: implementation class and sandbox flag only. */
  function BaseRequest(services: Collaborators, ceilingEntity: string): FetchRequest
  {
    var impl := services.ceilingImplClass(ceilingEntity);
    FetchRequest(impl, services.isSandBoxable(impl), false, None)
  }

  /** The request built for a normalised entity name from the rules, the universal fields and the handlers. */
  function Resolve(
    services: Collaborators, handlers: seq<FieldHandler>, rules: seq<FetchEntity>,
    universalFetchFields: seq<string>, ceilingEntity: string): (r: FetchRequest)
    ensures r.entity == services.ceilingImplClass(ceilingEntity)
    ensures r.isSandboxableEntity == services.isSandBoxable(r.entity)
    ensures r.useRefinedFetch <==>
      exists i :: 0 <= i < |rules| && RuleMatches(ceilingEntity, rules[i], services.regexMatches)
    ensures r.fetchFields.Some? <==> r.useRefinedFetch
    ensures match FirstMatchIndex(rules, ceilingEntity, services.regexMatches)
      case Some(i) =>
        r.fetchFields == Some(universalFetchFields + rules[i].additionalFetchFields
                              + HandlerFields(handlers, BaseRequest(services, ceilingEntity), rules[i]))
      case None => r.fetchFields.None?
  {
    var base := BaseRequest(services, ceilingEntity);
    match FirstMatchIndex(rules, ceilingEntity, services.regexMatches)
    case None => base
    case Some(i) =>
      var rule := rules[i];
      base.(useRefinedFetch := true,
            fetchFields := Some(universalFetchFields + rule.additionalFetchFields + HandlerFields(handlers, base, rule)))
  }

  /** Every fetched field is a universal field, a field of the matched rule, or a field of an accepting handler. */
  lemma ResolvedFieldsOrigin(
    services: Collaborators, handlers: seq<FieldHandler>, rules: seq<FetchEntity>,
    universalFetchFields: seq<string>, ceilingEntity: string, field: string)
    requires Resolve(services, handlers, rules, universalFetchFields, ceilingEntity).fetchFields.Some?
    ensures FirstMatchIndex(rules, ceilingEntity, services.regexMatches).Some?
    ensures var i := FirstMatchIndex(rules, ceilingEntity, services.regexMatches).value;
      field in Resolve(services, handlers, rules, universalFetchFields, ceilingEntity).fetchFields.value <==>
        field in universalFetchFields || field in rules[i].additionalFetchFields ||
        exists h :: 0 <= h < |handlers| && handlers[h].canHandleEntity(BaseRequest(services, ceilingEntity), rules[i])
                    && field in handlers[h].universalFetchFields
  {
    var i := FirstMatchIndex(rules, ceilingEntity, services.regexMatches).value;
    HandlerFieldsMembers(handlers, BaseRequest(services, ceilingEntity), rules[i], field);
  }

  // ---------------------------------------------------------------------------
  // The cache

  /**
   * One cache lookup: on a hit the cached request and the unchanged cache, on a
   * miss the created request and the cache with it stored under the key.
   */
  function Memoise(cache: map<string, FetchRequest>, key: string, created: FetchRequest)
    : (r: (FetchRequest, map<string, FetchRequest>))
    ensures key in r.1 && r.1[key] == r.0
    ensures r.1.Keys == cache.Keys + {key}
    ensures forall k :: k in cache ==> r.1[k] == cache[k]
    ensures key !in cache ==> r.0 == created
  {
    if key in cache then (cache[key], cache) else (created, cache[key := created])
  }

  /** A second lookup under the same key returns the same request and changes nothing, whatever it would create. */
  lemma MemoiseIdempotent(cache: map<string, FetchRequest>, key: string, created: FetchRequest, again: FetchRequest)
    ensures Memoise(Memoise(cache, key, created).1, key, again) == Memoise(cache, key, created)
  {
  }

  /** After looking up "X", a lookup of "XImpl" is a hit on the same entry (when "X" does not end with "Impl"). */
  lemma ImplVariantHitsSameEntry(
    cache: map<string, FetchRequest>, x: string, created: FetchRequest, again: FetchRequest)
    requires !EndsWith(x, IMPL_SUFFIX)
    ensures var (first, after) := Memoise(cache, CacheKey(x), created);
      Memoise(after, CacheKey(x + IMPL_SUFFIX), again) == (first, after)
  {
    CacheKeyShared(x);
  }

  // ---------------------------------------------------------------------------
  // The factory

  /** ListGridFetchFactoryImpl: configured rules and universal fields, and the shared cache. */
  class ListGridFetchFactory {
    var entities: seq<FetchEntity>
    var universalFetchFields: seq<string>
    var cache: map<string, FetchRequest>
    const services: Collaborators
    const listGridUniversalFieldHandlers: seq<FieldHandler>

    /** A factory with no rules and no universal fields, over the given (possibly non-empty) cache. */
    constructor (services: Collaborators, handlers: seq<FieldHandler>, cache: map<string, FetchRequest>)
      ensures entities == [] && universalFetchFields == []
      ensures this.cache == cache && this.services == services
      ensures listGridUniversalFieldHandlers == handlers
    {
      this.entities := [];
      this.universalFetchFields := [];
      this.cache := cache;
      this.services := services;
      this.listGridUniversalFieldHandlers := handlers;
    }

    /** What a cache miss creates for a normalised name under the current configuration. */
    function Resolution(ceilingEntity: string): FetchRequest
      reads this
    {
      Resolve(services, listGridUniversalFieldHandlers, entities, universalFetchFields, ceilingEntity)
    }

    /**
     * The refined-fetch request for a persistence request: null unless it is a
     * list-grid fetch; otherwise the cached request for the normalised name, or
     * a freshly created one, which is then cached.
     */
    method GetListGridFetchRequest(request: Option<PackageRequest>) returns (r: Option<FetchRequest>)
      modifies this`cache
      ensures (request.None? || !request.value.isListGridFetchRequest) ==> r.None? && cache == old(cache)
      ensures request.Some? && request.value.isListGridFetchRequest ==>
        var name := StripImpl(request.value.ceilingEntityClassname);
        var key := CACHE_KEY_PREFIX + name;
        r.Some? &&
        (key in old(cache) ==> r.value == old(cache)[key] && cache == old(cache)) &&
        (key !in old(cache) ==> r.value == Resolution(name) && cache == old(cache)[key := r.value])
      ensures request.Some? && request.value.isListGridFetchRequest ==>
        var name := request.value.ceilingEntityClassname;
        r.Some? && (r.value, cache) == Memoise(old(cache), CacheKey(name), Resolution(StripImpl(name)))
    {
      if request.None? || !request.value.isListGridFetchRequest {
        return None;
      }
      var ceilingEntity := request.value.ceilingEntityClassname;
      if EndsWith(ceilingEntity, IMPL_SUFFIX) {
        var pos := LastIndexOf(ceilingEntity, IMPL_SUFFIX);
        LastIndexOfSuffix(ceilingEntity, IMPL_SUFFIX);
        ceilingEntity := ceilingEntity[..pos];
      }
      var cacheKey := CACHE_KEY_PREFIX + ceilingEntity;
      var listGridFetchRequest: FetchRequest;
      if cacheKey in cache {
        listGridFetchRequest := cache[cacheKey];
      } else {
        listGridFetchRequest := CreateListGridFetchRequest(ceilingEntity);
        cache := cache[cacheKey := listGridFetchRequest];
      }
      return Some(listGridFetchRequest);
    }

    /** Builds the request for a normalised name: class and sandbox flag, then the first matching rule's fields. */
    method CreateListGridFetchRequest(ceilingEntity: string) returns (r: FetchRequest)
      ensures r == Resolution(ceilingEntity)
    {
      var impl := services.ceilingImplClass(ceilingEntity);
      var isSandboxable := services.isSandBoxable(impl);
      r := FetchRequest(impl, isSandboxable, false, None);
      var matchedEntity: Option<FetchEntity> := None;
      var i := 0;
      while i < |entities|
        invariant 0 <= i <= |entities|
        invariant matchedEntity.None?
        invariant forall j :: 0 <= j < i ==> !RuleMatches(ceilingEntity, entities[j], services.regexMatches)
      {
        if Some(ceilingEntity) == entities[i].entityTarget {
          matchedEntity := Some(entities[i]);
          FirstMatchIndexIs(entities, ceilingEntity, services.regexMatches, i);
          break;
        }
        matchedEntity := AttemptToFindRegexTarget(ceilingEntity, entities[i], services.regexMatches);
        if matchedEntity.Some? {
          FirstMatchIndexIs(entities, ceilingEntity, services.regexMatches, i);
          break;
        }
        i := i + 1;
      }
      r := SetAdditionalFieldsToListGridFetchRequest(r, matchedEntity);
    }

    /**
     * With a matched rule: fetch fields are the universal fields, then the rule's
     * own, then those of each accepting handler, and the fetch is refined.
     * Without one: the fetch is not refined and the fields are left as they were.
     */
    method SetAdditionalFieldsToListGridFetchRequest(request: FetchRequest, matchedEntity: Option<FetchEntity>)
      returns (r: FetchRequest)
      ensures r.entity == request.entity && r.isSandboxableEntity == request.isSandboxableEntity
      ensures r.useRefinedFetch == matchedEntity.Some?
      ensures matchedEntity.None? ==> r.fetchFields == request.fetchFields
      ensures matchedEntity.Some? ==>
        r.fetchFields == Some(universalFetchFields + matchedEntity.value.additionalFetchFields
                              + HandlerFields(listGridUniversalFieldHandlers, request, matchedEntity.value))
    {
      if matchedEntity.Some? {
        var rule := matchedEntity.value;
        var handlers := listGridUniversalFieldHandlers;
        var fetchFields: seq<string> := [];
        fetchFields := fetchFields + universalFetchFields;
        fetchFields := fetchFields + rule.additionalFetchFields;
        assert fetchFields == universalFetchFields + rule.additionalFetchFields;
        ghost var before := fetchFields;
        for i := 0 to |handlers|
          invariant fetchFields == before + HandlerFields(handlers[..i], request, rule)
        {
          if handlers[i].canHandleEntity(request, rule) {
            fetchFields := fetchFields + handlers[i].universalFetchFields;
          }
          assert handlers[..i + 1] == handlers[..i] + [handlers[i]];
          HandlerFieldsSnoc(handlers[..i], handlers[i], request, rule);
        }
        assert handlers[..|handlers|] == handlers;
        r := request.(fetchFields := Some(fetchFields), useRefinedFetch := true);
      } else {
        r := request.(useRefinedFetch := false);
      }
    }

    function GetEntities(): seq<FetchEntity>
      reads this
    {
      entities
    }

    /** Replaces the rule list; the cache is not invalidated. */
    method SetEntities(entities: seq<FetchEntity>)
      modifies this`entities
      ensures GetEntities() == entities
    {
      this.entities := entities;
    }

    function GetUniversalFetchFields(): seq<string>
      reads this
    {
      universalFetchFields
    }

    /** Replaces the universal fields; the cache is not invalidated. */
    method SetUniversalFetchFields(universalFetchFields: seq<string>)
      modifies this`universalFetchFields
      ensures GetUniversalFetchFields() == universalFetchFields
    {
      this.universalFetchFields := universalFetchFields;
    }
  }
}
