# Search Guard configuration and authentication core, in Dafny

This project models the core of an early Search Guard, the security plugin for Elasticsearch:

- **Configuration repository.** It serves per-type configuration documents ("internalusers", "actiongroups", the authentication settings and so on) from the `searchguard` index. It keeps them in a cache, refuses to read until the index is ready, and notifies change listeners on reload.
- **Authentication domain registry.** It rebuilds the sorted set of active authentication domains (an authenticator plus a backend, with challenge flag and order) whenever the authentication configuration changes. When nothing can be built it falls back to a default domain.
- **Internal authentication backend.** It looks users up in the `internalusers` configuration, directly or through a `username` alias, and checks passwords with bcrypt.
- **Action-group resolution.** It expands a named action group transitively into permission strings.
- **Session value.** It is compared and hashed by user name and token only.
- **Extended REST channel.** It accumulates response headers, with the last write winning, and puts them on every response it sends.

The index, the cluster and the listeners are not called. Their answers are inputs of the model's operations:
- a `Store` says what a multi-get would return;
- a `Cluster` says what the lifecycle, index-exists and health probes would return;
- notifications are returned as records, and the listener calls that throw are a set given to the reload.

Java exceptions become `Outcome`/`Result` values. An Elasticsearch `Settings` object is its flat key/value map.

Three behaviours of the code that a reader might not expect, and that the model keeps:
- `authenticate` and `exists` take the user's roles from `<presented name>.roles`, even when the hash was found through another entry's `username` alias (InternalAuthenticationBackend.java:77 and 117).
- `getConfiguration` of a type whose document is missing or has an empty source caches and returns EMPTY settings (IndexBaseConfigurationRepository.java:296-297). It does not return null, although the Javadoc of `ConfigurationRepository.getConfiguration` (src/main/java/com/floragunn/searchguard/configuration/ConfigurationRepository.java:20-21) promises null when the persistence layer has no configuration of that type. Null comes only from a failed item.
- The class-name fallback of `authenticatorInstance` is handed the domain's own settings (ConfigBaseAuthenticationDomainRegistry.java:179). The backend's fallback gets the merged global and domain settings (line 161).

## Model

| member | source | states |
|---|---|---|
| ConfigurationRepository.Load | src/main/java/com/floragunn/searchguard/configuration/IndexBaseConfigurationRepository.java:255-314 | the multi-get succeeds exactly when every requested type is failed or parses; its keys are the requested non-failed types, each mapped to its document's settings (EMPTY when missing or empty); otherwise it raises for a requested unparseable type |
| ConfigurationRepository.LoadFailurePersists | src/main/java/com/floragunn/searchguard/configuration/IndexBaseConfigurationRepository.java:296-306 | once a prefix of the request raises, the whole request raises the same error |
| ConfigurationRepository.LoadReadsOnlyRequestedTypes | src/main/java/com/floragunn/searchguard/configuration/IndexBaseConfigurationRepository.java:256-263 | two stores that agree on the requested types give the same load result |
| ConfigurationRepository.LoadConfigurations | src/main/java/com/floragunn/searchguard/configuration/IndexBaseConfigurationRepository.java:255-314 | the loop over the responses computes exactly `Load` |
| ConfigurationRepository.ReadinessIsSticky | src/main/java/com/floragunn/searchguard/configuration/IndexBaseConfigurationRepository.java:199-221 | after any series of readiness checks the flag is set exactly when it was set before or some check found the index started, existing and neither red nor timed out |
| ConfigurationRepository.Repository.EnsureIndexReady | src/main/java/com/floragunn/searchguard/configuration/IndexBaseConfigurationRepository.java:199-253 | returns the new flag, which is the old flag or the cluster found serving |
| ConfigurationRepository.PutIfAbsent | src/main/java/com/floragunn/searchguard/configuration/IndexBaseConfigurationRepository.java:107-113 | existing entries never change; a non-null value is added only for an absent type |
| ConfigurationRepository.Repository.PutSettingsToCache | src/main/java/com/floragunn/searchguard/configuration/IndexBaseConfigurationRepository.java:107-113 | the cache becomes `PutIfAbsent` of the old cache and the method returns what the cache then holds |
| ConfigurationRepository.SingleGet | src/main/java/com/floragunn/searchguard/configuration/IndexBaseConfigurationRepository.java:87-105 | not ready gives null and no change; a hit is returned unchanged; a miss loads one type: null exactly when its item failed, raises exactly when it does not parse, otherwise the document's settings, and the cache only gains that type |
| ConfigurationRepository.Repository.GetConfiguration | src/main/java/com/floragunn/searchguard/configuration/IndexBaseConfigurationRepository.java:87-105 | result and new cache are those of `SingleGet` under the readiness just established |
| ConfigurationRepository.Uncached | src/main/java/com/floragunn/searchguard/configuration/IndexBaseConfigurationRepository.java:122-132 | the types to load are exactly the requested types without a cache entry |
| ConfigurationRepository.Hits | src/main/java/com/floragunn/searchguard/configuration/IndexBaseConfigurationRepository.java:122-132 | the hits are exactly the cached requested types, with their cached values |
| ConfigurationRepository.Repository.SplitByCache | src/main/java/com/floragunn/searchguard/configuration/IndexBaseConfigurationRepository.java:122-132 | the first loop yields `Hits` and `Uncached` |
| ConfigurationRepository.Repository.PutAllToCache | src/main/java/com/floragunn/searchguard/configuration/IndexBaseConfigurationRepository.java:140-146 | put-if-absent of every loaded entry leaves `loaded + old cache` and returns what the cache holds for each loaded type |
| ConfigurationRepository.BulkGet | src/main/java/com/floragunn/searchguard/configuration/IndexBaseConfigurationRepository.java:115-149 | not ready with types gives an empty map; when ready it raises exactly when some uncached requested type does not parse, and then for such a type, leaving the cache; on success every cached requested type is answered from the cache, every uncached failed type is absent and every other uncached type maps to its document's settings; every result entry is requested and equals the new cache; cached entries never change and new ones are requested types in the result |
| ConfigurationRepository.LoadedAreUncached | src/main/java/com/floragunn/searchguard/configuration/IndexBaseConfigurationRepository.java:134-141 | a bulk get only loads types that are not cached |
| ConfigurationRepository.PutIfAbsentOfUncached | src/main/java/com/floragunn/searchguard/configuration/IndexBaseConfigurationRepository.java:140-146 | put-if-absent of uncached entries is a plain put and returns the loaded values |
| ConfigurationRepository.Repository.GetConfigurations | src/main/java/com/floragunn/searchguard/configuration/IndexBaseConfigurationRepository.java:115-149 | result and new cache are those of `BulkGet` |
| ConfigurationRepository.BulkGetAgreesWithSingleGet | src/main/java/com/floragunn/searchguard/configuration/IndexBaseConfigurationRepository.java:87-149 | a successful ready bulk get answers, for each requested type, what a single get of that type would answer |
| ConfigurationRepository.BulkGetReadsOnlyUncachedTypes | src/main/java/com/floragunn/searchguard/configuration/IndexBaseConfigurationRepository.java:122-138 | stores that agree on the uncached requested types give the same bulk get |
| ConfigurationRepository.Notifications | src/main/java/com/floragunn/searchguard/configuration/IndexBaseConfigurationRepository.java:183-197 | every call goes to a subscribed listener of a changed type with that type's settings, and there are at most as many calls as subscriptions |
| ConfigurationRepository.NotifiedOncePerSubscription | src/main/java/com/floragunn/searchguard/configuration/IndexBaseConfigurationRepository.java:183-197 | each (listener, type, settings) call is made exactly as often as that subscription entry occurs when the type changed to those settings, and never otherwise |
| ConfigurationRepository.Notify | src/main/java/com/floragunn/searchguard/configuration/IndexBaseConfigurationRepository.java:183-197 | with no throwing call the walk makes exactly the calls of `Notifications`; when a call throws, it is the last call made and the walk reports it; no call before it throws |
| ConfigurationRepository.NotifyCallsArePrefix | src/main/java/com/floragunn/searchguard/configuration/IndexBaseConfigurationRepository.java:183-197 | the calls made are always the first calls of `Notifications` |
| ConfigurationRepository.NotifyStopsAtFirstRaise | src/main/java/com/floragunn/searchguard/configuration/IndexBaseConfigurationRepository.java:183-197 | the walk throws exactly when one of the calls of `Notifications` throws, and then it stops at the first such call |
| ConfigurationRepository.NotifyRaisePersists | src/main/java/com/floragunn/searchguard/configuration/IndexBaseConfigurationRepository.java:184-196 | once the walk over some first entries has thrown, the later entries are never reached |
| ConfigurationRepository.Repository.NotifyAboutChanges | src/main/java/com/floragunn/searchguard/configuration/IndexBaseConfigurationRepository.java:183-197 | the loop, which stops when a call throws, makes exactly the calls of `Notify` and reports the same throwing call |
| ConfigurationRepository.Reload | src/main/java/com/floragunn/searchguard/configuration/IndexBaseConfigurationRepository.java:151-164 | not ready: empty result, no change, no call; a failing load raises its error, changes nothing and notifies no one; after a successful load the cache is overwritten with every loaded entry and keeps the others, even when a listener then throws; the calls are those of `Notify`; the result is the loaded map exactly when no call of `Notifications` throws, otherwise the exception of the last call made |
| ConfigurationRepository.Repository.ReloadConfiguration | src/main/java/com/floragunn/searchguard/configuration/IndexBaseConfigurationRepository.java:151-164 | result, new cache and calls are those of `Reload` |
| ConfigurationRepository.Repository.SubscribeOnChange | src/main/java/com/floragunn/searchguard/configuration/IndexBaseConfigurationRepository.java:172-176 | appends one subscription entry; duplicates are kept |
| ConfigurationRepository.Repository.GetSubscribeTypes | src/main/java/com/floragunn/searchguard/configuration/IndexBaseConfigurationRepository.java:178-181 | the set of types is exactly those with a subscription |
| ConfigurationRepository.Repository.PersistConfiguration | src/main/java/com/floragunn/searchguard/configuration/IndexBaseConfigurationRepository.java:166-170 | always raises "not implemented" |
| ConfigurationRepository.Repository.constructor | src/main/java/com/floragunn/searchguard/configuration/IndexBaseConfigurationRepository.java:53-60 | empty cache, no subscriptions, not ready |
| AuthenticationDomainRegistry.BackendInstance | src/main/java/com/floragunn/searchguard/authentication/ConfigBaseAuthenticationDomainRegistry.java:146-162 | the registered factory of the backend type is given the global settings merged with `authentication_backend.config`; without one, the class-name fallback gets those same merged settings |
| AuthenticationDomainRegistry.AuthenticatorInstance | src/main/java/com/floragunn/searchguard/authentication/ConfigBaseAuthenticationDomainRegistry.java:164-180 | the registered factory of the authenticator type is given the global settings merged with `http_authenticator.config`; without one, the class-name fallback gets the domain's own settings |
| AuthenticationDomainRegistry.BackendTypeOf | src/main/java/com/floragunn/searchguard/authentication/ConfigBaseAuthenticationDomainRegistry.java:147 | the backend type is the configured `authentication_backend.type`, "internal" when unset |
| AuthenticationDomainRegistry.AuthenticatorTypeOf | src/main/java/com/floragunn/searchguard/authentication/ConfigBaseAuthenticationDomainRegistry.java:165 | the authenticator type is the configured `http_authenticator.type`, "basic" when unset |
| AuthenticationDomainRegistry.BuildDomain | src/main/java/com/floragunn/searchguard/authentication/ConfigBaseAuthenticationDomainRegistry.java:87-96 | the `try` block builds a domain exactly when both instances are created and the order parses; the domain holds those two instances, the challenge flag (default true) and the order (default 0) |
| AuthenticationDomainRegistry.Contribution | src/main/java/com/floragunn/searchguard/authentication/ConfigBaseAuthenticationDomainRegistry.java:80-99 | an entry contributes exactly when it is enabled (default true), both instances are created and the order parses; the domain then holds those instances, the entry's challenge (default true) and its order, 0 when unset |
| AuthenticationDomainRegistry.FactoryTakesPrecedence | src/main/java/com/floragunn/searchguard/authentication/ConfigBaseAuthenticationDomainRegistry.java:146-180 | when both types have registered factories, the class-name fallback is never used and each factory gets the global settings merged with the domain's config |
| AuthenticationDomainRegistry.EntryDefaults | src/main/java/com/floragunn/searchguard/authentication/ConfigBaseAuthenticationDomainRegistry.java:83-94 | an entry that sets nothing becomes the "basic" authenticator over the "internal" backend, challenge on, order 0 |
| AuthenticationDomainRegistry.Insert | src/main/java/com/floragunn/searchguard/authentication/ConfigBaseAuthenticationDomainRegistry.java:95 | `TreeSet.add` keeps every element, adds nothing but the new domain, and adds it unless an equivalent domain is present |
| AuthenticationDomainRegistry.InsertKeepsSorted | src/main/java/com/floragunn/searchguard/authentication/ConfigBaseAuthenticationDomainRegistry.java:76-95 | inserting into a strictly sorted set under a transitive order keeps it strictly sorted |
| AuthenticationDomainRegistry.CollectIntoAppend | src/main/java/com/floragunn/searchguard/authentication/ConfigBaseAuthenticationDomainRegistry.java:80-100 | the loop over two runs of groups is the loop over the first, continued over the second |
| AuthenticationDomainRegistry.SkippedEntryChangesNothing | src/main/java/com/floragunn/searchguard/authentication/ConfigBaseAuthenticationDomainRegistry.java:83-99 | a disabled or failing group is skipped and the others build what they would build without it |
| AuthenticationDomainRegistry.CollectedFromEnabledEntries | src/main/java/com/floragunn/searchguard/authentication/ConfigBaseAuthenticationDomainRegistry.java:80-100 | every collected domain was built from an enabled group |
| AuthenticationDomainRegistry.CollectIntoKeeps | src/main/java/com/floragunn/searchguard/authentication/ConfigBaseAuthenticationDomainRegistry.java:80-100 | the loop never removes a domain already in the set |
| AuthenticationDomainRegistry.CollectedEveryBuiltEntry | src/main/java/com/floragunn/searchguard/authentication/ConfigBaseAuthenticationDomainRegistry.java:80-100 | every group that builds a domain is represented in the set, by that domain or an equivalent one |
| AuthenticationDomainRegistry.CollectEmpty | src/main/java/com/floragunn/searchguard/authentication/ConfigBaseAuthenticationDomainRegistry.java:80-102 | the loop builds nothing exactly when no group contributes a domain |
| AuthenticationDomainRegistry.CollectSorted | src/main/java/com/floragunn/searchguard/authentication/ConfigBaseAuthenticationDomainRegistry.java:76-111 | under a transitive order the published domains are strictly sorted |
| AuthenticationDomainRegistry.DefaultDomain | src/main/java/com/floragunn/searchguard/authentication/ConfigBaseAuthenticationDomainRegistry.java:115-144 | the default domain exists exactly when both the "basic" and the "internal" factory exist and build on EMPTY settings; it is theirs, with challenge on and order 0 |
| AuthenticationDomainRegistry.Rebuild | src/main/java/com/floragunn/searchguard/authentication/ConfigBaseAuthenticationDomainRegistry.java:76-111 | a published set is never empty; the rebuild fails exactly when nothing was built and there is no default domain; with nothing built it is the default domain alone, otherwise what was built |
| AuthenticationDomainRegistry.FallsBackToDefault | src/main/java/com/floragunn/searchguard/authentication/ConfigBaseAuthenticationDomainRegistry.java:102-109 | when no group yields a domain, exactly the default domain is published, or the rebuild fails |
| AuthenticationDomainRegistry.Registry.OnChange | src/main/java/com/floragunn/searchguard/authentication/ConfigBaseAuthenticationDomainRegistry.java:68-113 | the anonymous flag is always updated (default false); it raises exactly when `Rebuild` fails, leaving domains and the initialized flag; otherwise it publishes `Rebuild`'s domains and sets initialized |
| AuthenticationDomainRegistry.Registry.constructor | src/main/java/com/floragunn/searchguard/authentication/ConfigBaseAuthenticationDomainRegistry.java:34-56 | not initialized, anonymous authentication off, no active domains |
| InternalAuthentication.LookupHash | src/main/java/com/floragunn/searchguard/auth/internal/InternalAuthenticationBackend.java:60-75 | the hash under `<name>.hash` when there is one; otherwise the hash of the first entry in `names()` order whose `username` is the name, so a user found through an alias is found, and nothing when no entry has that alias |
| InternalAuthentication.ScanFindsEveryAlias | src/main/java/com/floragunn/searchguard/auth/internal/InternalAuthenticationBackend.java:64-70 | over a well-formed configuration the scan finds an entry exactly when some user has the presented name as its `username` |
| InternalAuthentication.FirstAliasFrom | src/main/java/com/floragunn/searchguard/auth/internal/InternalAuthenticationBackend.java:64-70 | the position found is the first name from `k` on whose `username` is the presented name, or the end |
| InternalAuthentication.FindHash | src/main/java/com/floragunn/searchguard/auth/internal/InternalAuthenticationBackend.java:60-75 | the direct lookup followed by the scan with early break finds exactly `LookupHash` |
| InternalAuthentication.Exists | src/main/java/com/floragunn/searchguard/auth/internal/InternalAuthenticationBackend.java:53-84 | true exactly when a configuration exists and a hash is found for the user's name; then the roles under `<name>.roles` are added, otherwise the user is unchanged |
| InternalAuthentication.User.AddRoles | src/main/java/com/floragunn/searchguard/auth/internal/InternalAuthenticationBackend.java:77-81 | the user's roles gain exactly the given roles |
| InternalAuthentication.Authentication | src/main/java/com/floragunn/searchguard/auth/internal/InternalAuthenticationBackend.java:86-122 | no configuration, unknown user, empty or null password and mismatch are rejected; success holds exactly when a hash is found, the password is non-empty and bcrypt accepts it, and the user has the presented name and its roles |
| InternalAuthentication.Authenticate | src/main/java/com/floragunn/searchguard/auth/internal/InternalAuthenticationBackend.java:86-122 | the method computes exactly `Authentication` |
| InternalAuthentication.GetType | src/main/java/com/floragunn/searchguard/auth/internal/InternalAuthenticationBackend.java:42-43 | the type is "internal", not the old "intern" |
| InternalAuthentication.ByteArrayHashIsArrayHash | src/test/java/com/floragunn/searchguard/authentication/HttpBasicAuthenticationTest.java:149-180 | `Arrays.hashCode(byte[])` is the 32-bit array hash of the bytes widened to `int` |
| InternalAuthentication.HashStep | src/test/java/com/floragunn/searchguard/authentication/HttpBasicAuthenticationTest.java:149-180 | one step of Java's 32-bit array hash code, with wrap-around |
| InternalAuthentication.TestPasswordsCollide | src/test/java/com/floragunn/searchguard/authentication/HttpBasicAuthenticationTest.java:149-180 | the two test passwords have the same 32-bit array hash code |
| InternalAuthentication.CollidingPasswordIsRejected | src/test/java/com/floragunn/searchguard/authentication/HttpBasicAuthenticationTest.java:149-180 | although their hash codes collide, the correct password is accepted and the other is rejected, because the decision is bcrypt on the whole password and nothing is cached |
| ActionGroups.Resolve | src/main/java/com/floragunn/searchguard/configuration/ActionGroupHolder.java:49-62 | the result holds no group name, holds every directly listed leaf, and is empty for a name that lists nothing |
| ActionGroups.ResolveAll | src/main/java/com/floragunn/searchguard/configuration/ActionGroupHolder.java:53-60 | the loop's set is exactly the union over the members of the leaf itself or the group's resolution |
| ActionGroups.GetGroupMembers | src/main/java/com/floragunn/searchguard/configuration/ActionGroupHolder.java:40-47 | no configuration gives the empty set; otherwise the result is the group's resolution in that configuration, so it holds no group name and is empty for an unknown group |
| ActionGroups.ResolveIsUnion | src/main/java/com/floragunn/searchguard/configuration/ActionGroupHolder.java:49-62 | in both directions, a string is resolved exactly when some listed member is that leaf or a group whose resolution holds it |
| ActionGroups.SubGroupIncluded | src/main/java/com/floragunn/searchguard/configuration/ActionGroupHolder.java:55-56 | a listed sub-group's whole resolution is included |
| ActionGroups.EmptyGroupResolvesToNothing | src/main/java/com/floragunn/searchguard/configuration/ActionGroupHolder.java:51-53 | a group that lists nothing resolves to the empty set |
| ActionGroups.ResolveIndependentOfRank | src/main/java/com/floragunn/searchguard/configuration/ActionGroupHolder.java:49-62 | the result depends only on the groups, not on the witness of acyclicity |
| Sessions.AuthSession.GetUsername | src/main/java/com/floragunn/searchguard/auth/AuthSession.java:24-27 | the session is the one with this user name and its token |
| Sessions.AuthSession.GetSessionToken | src/main/java/com/floragunn/searchguard/auth/AuthSession.java:19-22 | the session is the one with its user name and this token |
| Sessions.AuthSession.Equals | src/main/java/com/floragunn/searchguard/auth/AuthSession.java:29-36 | never equal to null or another class; equal exactly to the session with the same value |
| Sessions.AuthSession.HashCode | src/main/java/com/floragunn/searchguard/auth/AuthSession.java:38-41 | the hash code is Java's 32-bit array hash of the user name's and the token's hash codes, as `Objects.hash` computes it |
| Sessions.EqualsIffFieldsEqual | src/test/java/com/floragunn/searchguard/auth/AuthSessionTest.java:14-42 | sessions are equal exactly when both user names and tokens are |
| Sessions.EqualsReflexiveSymmetric | src/main/java/com/floragunn/searchguard/auth/AuthSession.java:29-36 | equality is reflexive and symmetric |
| Sessions.EqualSessionsHashAlike | src/test/java/com/floragunn/searchguard/auth/AuthSessionTest.java:44-53 | equal sessions have equal hash codes |
| Sessions.GettersReturnArguments | src/main/java/com/floragunn/searchguard/auth/AuthSession.java:14-27 | the getters return the constructor's arguments |
| Sessions.DifferentUserSameTokenDiffer | src/test/java/com/floragunn/searchguard/auth/AuthSessionTest.java:24-31 | sessions with one token and different users differ |
| Sessions.SameUserDifferentTokenDiffer | src/test/java/com/floragunn/searchguard/auth/AuthSessionTest.java:14-22 | sessions of one user with different tokens differ |
| RestChannel.Put | src/main/java/com/floragunn/searchguard/rest/ExtendedRestChannel.java:22-28 | the stored value for the name becomes the new one, and every other stored header is unchanged; before creation nothing else is stored |
| RestChannel.LastWriteWins | src/main/java/com/floragunn/searchguard/rest/ExtendedRestChannel.java:22-28 | adding a name twice keeps only the later value |
| RestChannel.ExtendedRestChannel.constructor | src/main/java/com/floragunn/searchguard/rest/ExtendedRestChannel.java:16-20 | wraps the given channel, and the header map starts absent (null), so nothing is injected until a header is added |
| RestChannel.ExtendedRestChannel.AddHeaderToResponse | src/main/java/com/floragunn/searchguard/rest/ExtendedRestChannel.java:22-28 | the map exists afterwards and is `Put` of the old one |
| RestChannel.ListedOncePerEntry | src/main/java/com/floragunn/searchguard/rest/ExtendedRestChannel.java:37-43 | the injected headers are exactly the stored pairs, one header per stored name |
| RestChannel.ExtendedRestChannel.InjectHeaders | src/main/java/com/floragunn/searchguard/rest/ExtendedRestChannel.java:37-43 | the response keeps its headers and gains one per stored entry, each once with its stored value; nothing when no header was ever added |
| RestChannel.ExtendedRestChannel.SendResponse | src/main/java/com/floragunn/searchguard/rest/ExtendedRestChannel.java:30-35 | injects as above, then hands the response to the wrapped channel; the stored headers are not cleared, so a later send injects them again |
| RestChannel.RestResponse.AddHeader | src/main/java/com/floragunn/searchguard/rest/ExtendedRestChannel.java:40 | appends one header |
| RestChannel.Channel.SendResponse | src/main/java/com/floragunn/searchguard/rest/ExtendedRestChannel.java:34 | the wrapped channel records the response's headers as sent |

## Left out

- Concurrency: the concurrent cache map, `synchronized` and `volatile` are not modelled. Every operation runs atomically on the state it sees.
- `IndexBaseConfigurationRepository.create` is left out. It registers a lifecycle listener that reloads the subscribed types on a thread pool after start-up. Only its two steps, `GetSubscribeTypes` then `ReloadConfiguration`, are modelled.
- Client calls, JSON parsing and logging are left out. The multi-get, the index-exists and the health requests become the `Store` and `Cluster` inputs. The JSON settings loader becomes the `Document` cases, and any I/O failure during parsing is the `Unparseable` case.
- Iteration order is left out where the source iterates a hash map or multimap. The settings groups and `names()` come in the order of the input sequence. The stored headers are injected in no specified order.
- ConfigurationRepository.Notify: the subscription entries are walked in the order they were appended. `ArrayListMultimap.entries()` (IndexBaseConfigurationRepository.java:184) groups the entries by type, with the types in hash order. So when a listener throws, which listeners were already called may differ from the source.
- Reflection is left out: `newInstance` is an opaque function of the class name and settings that may fail. Its two constructor attempts are not distinguished.
- `AuthDomain.compareTo` is not part of this model. The sorted set's order is the registry's parameter `lt`; only the sortedness lemmas require it to be transitive.
- The exception a default factory may raise is not told apart from the missing default: both make `onChange` fail, with the same effect on the registry's state.
- `getAsBoolean` and `getAsArray` are modelled by their converted values. `getAsInt` is modelled by its value or `Malformed`, which raises inside the `try` block and skips the group.
- Bcrypt is the uninterpreted `checkpw`.
- Only the name and the role set of `User` are modelled.
- Dotted user and group names are left out: `names()` yields the top-level key segment, and that is assumed to be the whole name.
- `getActiveDomains`, `isAnonymousEnable` and `isInitialized` are represented by the registry's fields. `validate` does nothing and is left out.
- The per-request authentication pipeline, `XFFResolver`, `RestChannelDelegator` beyond delegation, the factory classes and `BackendModule` are not part of this model.
- The response body and status are left out; a REST response is modelled by its header list.
- ActionGroups.Resolve: its termination needs an acyclic group graph, which the source does not check (a cycle overflows the stack). The model asks for a ghost ranking that witnesses acyclicity of the whole `actiongroups` map. The source only needs the groups reachable from the requested entry to be acyclic, so a configuration with a cycle among unrelated groups, which the source resolves, is outside the model.
- InternalAuthentication.Exists, InternalAuthentication.Authentication and ActionGroups.GetGroupMembers take the configuration as an `Option`. `getSettings()` (InternalAuthenticationBackend.java:129-132, ActionGroupHolder.java:64-66) is `getConfiguration` of the repository, which raises on an unparseable document; that exception propagates out of these operations unchanged, and the model does not represent it there.
- Sessions.AuthSession.HashCode: `String.hashCode` runs over UTF-16 code units. The model runs over Unicode scalar values, so a character above U+FFFF is hashed differently.
- The test claiming that sessions with different random tokens have different hash codes is left out. It is probabilistic, and hash codes can collide.
