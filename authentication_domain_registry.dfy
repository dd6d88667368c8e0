/**
 * The registry that rebuilds the active authentication domains whenever
 * the authentication configuration changes
 * (ConfigBaseAuthenticationDomainRegistry).
 *
 * Factories are finite maps from a type name to a creation function that
 * may fail; the class-name fallback is an opaque function that may fail.
 * `AuthDomain.compareTo` is not part of this model, so the ordering of the
 * sorted domain set is a parameter `lt` of the registry.
 */
module AuthenticationDomainRegistry {
  import opened Support
  import InternalAuthentication

  /** `HTTPBasicAuthenticator.TYPE`, the default authenticator type. */
  const BASIC_TYPE := "basic"

  /** An integer setting: absent, a value, or text `getAsInt` cannot convert (it raises). */
  datatype IntSetting = Unset | Value(n: int32) | Malformed

  /**
   * One group under `searchguard.dynamic.authc`, its keys already
   * converted: `settings` is the whole group, and the other fields are read
   * from it (`enabled`, `http_authenticator.challenge`, `order`, the two
   * `type` keys and the two `config` sub-groups).  Only the authenticator's
   * class-name fallback is handed `settings` itself.
   */
  datatype DomainEntry = DomainEntry(
    name: string,
    enabled: Option<bool>,
    challenge: Option<bool>,
    order: IntSetting,
    backendType: Option<string>,
    backendConfig: Settings,
    authenticatorType: Option<string>,
    authenticatorConfig: Settings,
    settings: Settings)

  /** The authentication configuration: the anonymous flag and the domain groups, in iteration order. */
  datatype AuthcConfig = AuthcConfig(anonymousAuthEnabled: Option<bool>, domains: seq<DomainEntry>)

  /** A built backend or authenticator: its type name and the settings it was created with. */
  datatype Instance = Instance(typeName: string, settings: Settings)

  /** What a factory or the class-name fallback does: return an instance or raise. */
  datatype Creation = Created(instance: Instance) | CreationFailed

  type Factory = Settings -> Creation

  /** The registered factories, the global settings and the class-name fallback. */
  datatype Plugins = Plugins(
    esSettings: Settings,
    authenticators: map<string, Factory>,
    backends: map<string, Factory>,
    newInstance: (string, Settings) -> Creation)

  datatype AuthDomain = AuthDomain(backend: Instance, authenticator: Instance, challenge: bool, order: int32)

  // ---------------------------------------------------------------------
  // Building one domain
  // ---------------------------------------------------------------------

  /** `authentication_backend.type`, "internal" by default. */
  function BackendTypeOf(e: DomainEntry): (t: string)
    ensures e.backendType.None? ==> t == InternalAuthentication.TYPE
    ensures e.backendType.Some? ==> t == e.backendType.value
  {
    e.backendType.GetOr(InternalAuthentication.TYPE)
  }

  /** `http_authenticator.type`, "basic" by default. */
  function AuthenticatorTypeOf(e: DomainEntry): (t: string)
    ensures e.authenticatorType.None? ==> t == BASIC_TYPE
    ensures e.authenticatorType.Some? ==> t == e.authenticatorType.value
  {
    e.authenticatorType.GetOr(BASIC_TYPE)
  }

  /** `backendInstance`: the registered factory, else the class-name fallback, on the merged settings. */
  function BackendInstance(p: Plugins, e: DomainEntry): (r: Creation)
    ensures BackendTypeOf(e) in p.backends ==> r == p.backends[BackendTypeOf(e)](p.esSettings + e.backendConfig)
    ensures BackendTypeOf(e) !in p.backends ==> r == p.newInstance(BackendTypeOf(e), p.esSettings + e.backendConfig)
  {
    var t := BackendTypeOf(e);
    var s := p.esSettings + e.backendConfig;
    if t in p.backends then p.backends[t](s) else p.newInstance(t, s)
  }

  /**
   * `authenticatorInstance`: the registered factory on the merged settings,
   * else the class-name fallback, which is handed the entry's own settings.
   */
  function AuthenticatorInstance(p: Plugins, e: DomainEntry): (r: Creation)
    ensures AuthenticatorTypeOf(e) in p.authenticators ==> r == p.authenticators[AuthenticatorTypeOf(e)](p.esSettings + e.authenticatorConfig)
    ensures AuthenticatorTypeOf(e) !in p.authenticators ==> r == p.newInstance(AuthenticatorTypeOf(e), e.settings)
  {
    var t := AuthenticatorTypeOf(e);
    var s := p.esSettings + e.authenticatorConfig;
    if t in p.authenticators then p.authenticators[t](s) else p.newInstance(t, e.settings)
  }

  /** The body of the `try` block: None when anything in it raises. */
  function BuildDomain(p: Plugins, e: DomainEntry): (r: Option<AuthDomain>)
    ensures r.Some? <==> BackendInstance(p, e).Created? && AuthenticatorInstance(p, e).Created? && !e.order.Malformed?
    ensures r.Some? ==>
      && r.value.backend == BackendInstance(p, e).instance
      && r.value.authenticator == AuthenticatorInstance(p, e).instance
      && r.value.challenge == e.challenge.GetOr(true)
      && r.value.order == (if e.order.Value? then e.order.n else 0)
  {
    match BackendInstance(p, e)
    case CreationFailed => None
    case Created(backend) =>
      match AuthenticatorInstance(p, e)
      case CreationFailed => None
      case Created(authenticator) =>
        var challenge := e.challenge.GetOr(true);
        match e.order
        case Malformed => None
        case Unset => Some(AuthDomain(backend, authenticator, challenge, 0))
        case Value(n) => Some(AuthDomain(backend, authenticator, challenge, n))
  }

  /** The domain an entry contributes: none when it is disabled or fails to build. */
  function Contribution(p: Plugins, e: DomainEntry): (r: Option<AuthDomain>)
    ensures e.enabled == Some(false) ==> r == None
    ensures r.Some? <==>
      e.enabled.GetOr(true) && BackendInstance(p, e).Created? && AuthenticatorInstance(p, e).Created? && !e.order.Malformed?
    ensures r.Some? ==>
      && r.value.backend == BackendInstance(p, e).instance
      && r.value.authenticator == AuthenticatorInstance(p, e).instance
      && r.value.challenge == e.challenge.GetOr(true)
      && (e.order.Value? ==> r.value.order == e.order.n)
      && (e.order.Unset? ==> r.value.order == 0)
  {
    if !e.enabled.GetOr(true) then None else BuildDomain(p, e)
  }

  /** A registered factory wins over the class-name fallback, whatever that fallback would do. */
  lemma FactoryTakesPrecedence(p: Plugins, q: Plugins, e: DomainEntry)
    requires p.esSettings == q.esSettings && p.backends == q.backends && p.authenticators == q.authenticators
    requires BackendTypeOf(e) in p.backends && AuthenticatorTypeOf(e) in p.authenticators
    ensures BuildDomain(p, e) == BuildDomain(q, e)
    ensures BackendInstance(p, e) == p.backends[BackendTypeOf(e)](p.esSettings + e.backendConfig)
    ensures AuthenticatorInstance(p, e) == p.authenticators[AuthenticatorTypeOf(e)](p.esSettings + e.authenticatorConfig)
  {
  }

  /**
   * An entry that sets nothing is built, when both default factories
   * succeed, as the basic authenticator over the internal backend, with
   * challenge on and order 0.
   */
  lemma EntryDefaults(p: Plugins, e: DomainEntry)
    requires e.enabled.None? && e.challenge.None? && e.order.Unset?
    requires e.backendType.None? && e.authenticatorType.None?
    requires InternalAuthentication.TYPE in p.backends && BASIC_TYPE in p.authenticators
    requires p.backends[InternalAuthentication.TYPE](p.esSettings + e.backendConfig).Created?
    requires p.authenticators[BASIC_TYPE](p.esSettings + e.authenticatorConfig).Created?
    ensures Contribution(p, e) == Some(AuthDomain(
      p.backends["internal"](p.esSettings + e.backendConfig).instance,
      p.authenticators["basic"](p.esSettings + e.authenticatorConfig).instance,
      true, 0))
  {
  }

  // ---------------------------------------------------------------------
  // The sorted set of domains
  // ---------------------------------------------------------------------

  /** Neither domain comes before the other: the sorted set keeps only one of them. */
  predicate Equivalent(lt: (AuthDomain, AuthDomain) -> bool, a: AuthDomain, b: AuthDomain) {
    !lt(a, b) && !lt(b, a)
  }

  ghost predicate Transitive(lt: (AuthDomain, AuthDomain) -> bool) {
    forall a, b, c :: lt(a, b) && lt(b, c) ==> lt(a, c)
  }

  predicate Sorted(lt: (AuthDomain, AuthDomain) -> bool, s: seq<AuthDomain>) {
    forall i, j :: 0 <= i < j < |s| ==> lt(s[i], s[j])
  }

  /** `TreeSet.add`: d goes in at its place unless an equivalent domain is already there. */
  function Insert(lt: (AuthDomain, AuthDomain) -> bool, s: seq<AuthDomain>, d: AuthDomain): (r: seq<AuthDomain>)
    ensures forall x :: x in s ==> x in r
    ensures forall x :: x in r ==> x in s || x == d
    ensures d in r || exists x :: x in s && Equivalent(lt, x, d)
    decreases |s|
  {
    if s == [] then [d]
    else if lt(d, s[0]) then [d] + s
    else if lt(s[0], d) then [s[0]] + Insert(lt, s[1..], d)
    else assert s[0] in s && Equivalent(lt, s[0], d); s
  }

  /** Inserting into a sorted set keeps it sorted. */
  lemma {:induction false} InsertKeepsSorted(lt: (AuthDomain, AuthDomain) -> bool, s: seq<AuthDomain>, d: AuthDomain)
    requires Transitive(lt) && Sorted(lt, s)
    ensures Sorted(lt, Insert(lt, s, d))
    decreases |s|
  {
    if s != [] && !lt(d, s[0]) && lt(s[0], d) {
      InsertKeepsSorted(lt, s[1..], d);
      var r := Insert(lt, s, d);
      forall i, j | 0 <= i < j < |r| ensures lt(r[i], r[j]) {
        if i == 0 {
          assert r[j] in Insert(lt, s[1..], d);
          if r[j] != d {
            assert r[j] in s[1..];
          }
        } else {
          assert r[i] == Insert(lt, s[1..], d)[i - 1] && r[j] == Insert(lt, s[1..], d)[j - 1];
        }
      }
    }
  }

  /** Add an entry's contribution, if any, to the set built so far. */
  function Add(p: Plugins, lt: (AuthDomain, AuthDomain) -> bool, acc: seq<AuthDomain>, e: DomainEntry): seq<AuthDomain> {
    match Contribution(p, e)
    case None => acc
    case Some(d) => Insert(lt, acc, d)
  }

  /** The loop over the domain groups, starting from `acc`. */
  function CollectInto(p: Plugins, lt: (AuthDomain, AuthDomain) -> bool, acc: seq<AuthDomain>, entries: seq<DomainEntry>): seq<AuthDomain>
    decreases |entries|
  {
    if entries == [] then acc
    else Add(p, lt, CollectInto(p, lt, acc, entries[..|entries| - 1]), entries[|entries| - 1])
  }

  /** The domains the loop over the groups builds. */
  function Collect(p: Plugins, lt: (AuthDomain, AuthDomain) -> bool, entries: seq<DomainEntry>): seq<AuthDomain> {
    CollectInto(p, lt, [], entries)
  }

  lemma {:induction false} CollectIntoAppend(p: Plugins, lt: (AuthDomain, AuthDomain) -> bool, acc: seq<AuthDomain>, s1: seq<DomainEntry>, s2: seq<DomainEntry>)
    ensures CollectInto(p, lt, acc, s1 + s2) == CollectInto(p, lt, CollectInto(p, lt, acc, s1), s2)
    decreases |s2|
  {
    if s2 == [] {
      assert s1 + s2 == s1;
    } else {
      var s := s1 + s2;
      assert s[..|s| - 1] == s1 + s2[..|s2| - 1];
      assert s[|s| - 1] == s2[|s2| - 1];
      CollectIntoAppend(p, lt, acc, s1, s2[..|s2| - 1]);
    }
  }

  /**
   * A disabled or failing entry is skipped and nothing else: the other
   * entries build exactly what they would build without it.
   */
  lemma SkippedEntryChangesNothing(p: Plugins, lt: (AuthDomain, AuthDomain) -> bool, before: seq<DomainEntry>, e: DomainEntry, after: seq<DomainEntry>)
    requires Contribution(p, e).None?
    ensures Collect(p, lt, before + [e] + after) == Collect(p, lt, before + after)
  {
    CollectIntoAppend(p, lt, [], before + [e], after);
    CollectIntoAppend(p, lt, [], before, [e]);
    assert CollectInto(p, lt, Collect(p, lt, before), [e]) == Collect(p, lt, before) by {
      assert [e][..0] == [];
    }
    CollectIntoAppend(p, lt, [], before, after);
  }

  /** Every domain in the set was built from an enabled entry. */
  lemma {:induction false} CollectedFromEnabledEntries(p: Plugins, lt: (AuthDomain, AuthDomain) -> bool, entries: seq<DomainEntry>)
    ensures forall d :: d in Collect(p, lt, entries) ==>
      exists i :: 0 <= i < |entries| && entries[i].enabled != Some(false) && Contribution(p, entries[i]) == Some(d)
    decreases |entries|
  {
    if entries != [] {
      var prefix, e := entries[..|entries| - 1], entries[|entries| - 1];
      CollectedFromEnabledEntries(p, lt, prefix);
      var before := Collect(p, lt, prefix);
      assert Collect(p, lt, entries) == Add(p, lt, before, e);
      forall d | d in Collect(p, lt, entries)
        ensures exists i :: 0 <= i < |entries| && entries[i].enabled != Some(false) && Contribution(p, entries[i]) == Some(d)
      {
        if d in before {
          var i :| 0 <= i < |prefix| && prefix[i].enabled != Some(false) && Contribution(p, prefix[i]) == Some(d);
          assert entries[i] == prefix[i];
        } else {
          assert Contribution(p, entries[|entries| - 1]) == Some(d);
        }
      }
    }
  }

  /** Building never removes a domain from the set built so far. */
  lemma {:induction false} CollectIntoKeeps(p: Plugins, lt: (AuthDomain, AuthDomain) -> bool, acc: seq<AuthDomain>, entries: seq<DomainEntry>)
    ensures forall x :: x in acc ==> x in CollectInto(p, lt, acc, entries)
    decreases |entries|
  {
    if entries != [] {
      CollectIntoKeeps(p, lt, acc, entries[..|entries| - 1]);
    }
  }

  /**
   * Every entry that contributes a domain is represented in the set: by
   * that domain itself, or by an equivalent one the set already held.
   */
  lemma CollectedEveryBuiltEntry(p: Plugins, lt: (AuthDomain, AuthDomain) -> bool, entries: seq<DomainEntry>, i: nat)
    requires i < |entries| && Contribution(p, entries[i]).Some?
    ensures var d := Contribution(p, entries[i]).value;
      d in Collect(p, lt, entries) || exists x :: x in Collect(p, lt, entries) && Equivalent(lt, x, d)
  {
    var d := Contribution(p, entries[i]).value;
    var before, after := entries[..i], entries[i + 1..];
    assert entries == before + [entries[i]] + after;
    CollectIntoAppend(p, lt, [], before + [entries[i]], after);
    var mid := CollectInto(p, lt, [], before + [entries[i]]);
    assert (before + [entries[i]])[..|before|] == before;
    assert mid == Insert(lt, Collect(p, lt, before), d);
    CollectIntoKeeps(p, lt, mid, after);
    if d !in mid {
      var x :| x in Collect(p, lt, before) && Equivalent(lt, x, d);
      assert x in mid;
    }
  }

  /** The loop builds nothing exactly when no entry contributes a domain. */
  lemma {:induction false} CollectEmpty(p: Plugins, lt: (AuthDomain, AuthDomain) -> bool, entries: seq<DomainEntry>)
    ensures Collect(p, lt, entries) == [] <==> forall i :: 0 <= i < |entries| ==> Contribution(p, entries[i]).None?
    decreases |entries|
  {
    if entries != [] {
      var prefix, e := entries[..|entries| - 1], entries[|entries| - 1];
      CollectEmpty(p, lt, prefix);
      assert forall i :: 0 <= i < |prefix| ==> prefix[i] == entries[i];
    }
  }

  /** With a transitive ordering, the published domains are strictly sorted. */
  lemma {:induction false} CollectSorted(p: Plugins, lt: (AuthDomain, AuthDomain) -> bool, entries: seq<DomainEntry>)
    requires Transitive(lt)
    ensures Sorted(lt, Collect(p, lt, entries))
    decreases |entries|
  {
    if entries != [] {
      var prefix, e := entries[..|entries| - 1], entries[|entries| - 1];
      CollectSorted(p, lt, prefix);
      var before := Collect(p, lt, prefix);
      if Contribution(p, e).Some? {
        InsertKeepsSorted(lt, before, Contribution(p, e).value);
      }
    }
  }

  // ---------------------------------------------------------------------
  // The default domain and the whole rebuild
  // ---------------------------------------------------------------------

  /** `defaultDomain`: the basic authenticator over the internal backend, both on EMPTY settings. */
  function DefaultDomain(p: Plugins): (r: Option<AuthDomain>)
    ensures r.Some? <==>
      && BASIC_TYPE in p.authenticators && p.authenticators[BASIC_TYPE](EMPTY).Created?
      && InternalAuthentication.TYPE in p.backends && p.backends[InternalAuthentication.TYPE](EMPTY).Created?
    ensures r.Some? ==>
      && r.value.authenticator == p.authenticators["basic"](EMPTY).instance
      && r.value.backend == p.backends["internal"](EMPTY).instance
      && r.value.challenge && r.value.order == 0
  {
    var authenticator :=
      if BASIC_TYPE in p.authenticators then p.authenticators[BASIC_TYPE](EMPTY) else CreationFailed;
    var backend :=
      if InternalAuthentication.TYPE in p.backends then p.backends[InternalAuthentication.TYPE](EMPTY) else CreationFailed;
    if authenticator.CreationFailed? || backend.CreationFailed? then None
    else Some(AuthDomain(backend.instance, authenticator.instance, true, 0))
  }

  /**
   * The domains `onChange` publishes, or None when it raises because
   * nothing was built and the default domain cannot be built either.
   */
  function Rebuild(p: Plugins, lt: (AuthDomain, AuthDomain) -> bool, entries: seq<DomainEntry>): (r: Option<seq<AuthDomain>>)
    ensures r.Some? ==> |r.value| > 0
    ensures r.None? <==> Collect(p, lt, entries) == [] && DefaultDomain(p).None?
    ensures Collect(p, lt, entries) == [] && r.Some? ==> r.value == [DefaultDomain(p).value]
    ensures Collect(p, lt, entries) != [] ==> r == Some(Collect(p, lt, entries))
  {
    var domains := Collect(p, lt, entries);
    if domains != [] then Some(domains)
    else match DefaultDomain(p)
      case None => None
      case Some(d) => Some([d])
  }

  /**
   * When no entry yields a domain, exactly the default domain is
   * published, or the rebuild fails when that cannot be built.
   */
  lemma FallsBackToDefault(p: Plugins, lt: (AuthDomain, AuthDomain) -> bool, entries: seq<DomainEntry>)
    requires forall i :: 0 <= i < |entries| ==> Contribution(p, entries[i]).None?
    ensures Rebuild(p, lt, entries) == if DefaultDomain(p).Some? then Some([DefaultDomain(p).value]) else None
  {
    CollectEmpty(p, lt, entries);
  }

  datatype Failure = IllegalState(message: string)

  // ---------------------------------------------------------------------
  // The registry object
  // ---------------------------------------------------------------------

  class Registry {
    const plugins: Plugins
    const lt: (AuthDomain, AuthDomain) -> bool
    var initialized: bool
    var anonymousAuthEnabled: bool
    var activeDomains: seq<AuthDomain>

    constructor (plugins: Plugins, lt: (AuthDomain, AuthDomain) -> bool)
      ensures this.plugins == plugins && this.lt == lt
      ensures !initialized && !anonymousAuthEnabled && activeDomains == []
    {
      this.plugins, this.lt := plugins, lt;
      initialized, anonymousAuthEnabled, activeDomains := false, false, [];
    }

    /**
     * `onChange`: read the anonymous flag, then rebuild and publish the
     * domains.  When it raises, the anonymous flag is already updated and
     * the domains and the initialized flag keep their old values.
     */
    method OnChange(config: AuthcConfig) returns (r: Option<Failure>)
      modifies this`initialized, this`anonymousAuthEnabled, this`activeDomains
      ensures anonymousAuthEnabled == config.anonymousAuthEnabled.GetOr(false)
      ensures r.None? <==> Rebuild(plugins, lt, config.domains).Some?
      ensures r.None? ==> activeDomains == Rebuild(plugins, lt, config.domains).value && initialized
      ensures r.Some? ==> activeDomains == old(activeDomains) && initialized == old(initialized)
    {
      anonymousAuthEnabled := config.anonymousAuthEnabled.GetOr(false);
      var entries := config.domains;
      var domains: seq<AuthDomain> := [];
      for i := 0 to |entries|
        invariant domains == Collect(plugins, lt, entries[..i])
      {
        var entry := entries[i];
        assert entries[..i + 1][..i] == entries[..i];
        if !entry.enabled.GetOr(true) {
          continue;
        }
        var built := BuildDomain(plugins, entry);
        if built.Some? {
          domains := Insert(lt, domains, built.value);
        }
      }
      assert entries[..|entries|] == entries;
      if domains == [] {
        var fallback := DefaultDomain(plugins);
        if fallback.None? {
          return Some(IllegalState("Not configure default authentication domain"));
        }
        domains := [fallback.value];
      }
      activeDomains := domains;
      initialized := true;
      r := None;
    }
  }
}
