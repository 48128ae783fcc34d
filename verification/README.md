# MicroProfile Health: provider discovery and the response contract

This project models the core of `Response` in MicroProfile Health (an early version). It covers the following:

- **Provider discovery (`Response.find`).** The lookup searches the thread's context class loader scope first, then the scope of the class loader that defined the library. From each scope it takes only the first provider listed. The library scope's provider replaces the context scope's. A scope whose enumeration throws counts as empty. When neither scope yields a provider, the lookup fails with `IllegalStateException("Unable to load service " + name)`.
- **Context class loader fetch (`Response.getContextClassLoader`).** A `SecurityException` turns into a `null` loader. `ServiceLoader` treats a `null` loader as the system class loader, so the lookup continues through the system scope instead of aborting.
- **Entry point (`Response.named`).** It looks up the `SPIFactory` service, asks the selected provider for a builder and sets the builder's name.
- **The response contract.** A response has a name, a two-valued `State` and optional attributes.

Files:

- `results.dfy`: `Option` (a Java reference that may be `null`) and `Result` (a call that returns or throws).
- `discovery.dfy`, module `ServiceDiscovery`:
  - each scope's enumeration is a value, `Threw | Listed(candidates)`;
  - the guarded blocks of `find` form a fold, `Resolve`, over the scopes in search order. Its two lemmas say when it ends with an instance and which instance that is;
  - `Find` is that fold over `[context, library]`, followed by the null check. Its contract is proved from the two lemmas about `Resolve`;
  - `Lookup` derives both enumerations from an `Environment`. The environment holds:
    - the thread's answer to the context class loader request;
    - the library's loader;
    - what a service-loader enumeration yields through each loader;
    - what it yields through the `null` (system) loader.
- `response.dfy`, module `HealthResponse`: `State`, `Response`, the builder record, the `SPIFactory` provider as a value, and `Named`.

Two modelling choices follow the code's behaviour directly:

- `find` takes the first provider each scope lists and ignores the rest (`OnlyFirstCandidateMatters`).
- `named` does not validate the name, so any string, including the empty one, becomes the builder's name (`Named`).

## Model

| member | source | states |
|---|---|---|
| `ServiceDiscovery.Consult` | api/src/main/java/org/eclipse/microprofile/health/Response.java:68-89 | One guarded block. A scope that lists a provider replaces the tentative instance with its first provider. A scope that lists nothing or throws leaves the tentative instance unchanged. |
| `ServiceDiscovery.Resolve` | api/src/main/java/org/eclipse/microprofile/health/Response.java:65-89 | The guarded blocks run over the scopes in search order, starting from `null`. Any instance that comes out is the first provider of some scope that offers one, so nothing is invented along the way. |
| `ServiceDiscovery.ResolveFindsIffSomeScopeOffers` | api/src/main/java/org/eclipse/microprofile/health/Response.java:65-89 | Starting from `null`, running one guarded block per scope in search order ends with an instance iff at least one scope offers a provider. An empty or throwing scope never supplies one. |
| `ServiceDiscovery.ResolvePicksLastOfferingScope` | api/src/main/java/org/eclipse/microprofile/health/Response.java:68-89 | If a scope offers a provider and no later scope does, the instance is that scope's first provider. A later scope overrides an earlier one, and silent or throwing later scopes leave the instance unchanged. |
| `ServiceDiscovery.Find` | api/src/main/java/org/eclipse/microprofile/health/Response.java:63-97 | Success iff the context or the library scope lists a provider. If the library lists one, the result is the library's first provider, whatever the context held. Otherwise it is the context's first provider. Failure is always the not-found `IllegalState` error naming the service, so success always carries an instance. |
| `ServiceDiscovery.ThrowingScopeContributesNothing` | api/src/main/java/org/eclipse/microprofile/health/Response.java:68-89 | A scope whose enumeration throws gives the same lookup outcome as an empty scope, in either position. The failure is absorbed and never reaches the caller. |
| `ServiceDiscovery.OnlyFirstCandidateMatters` | api/src/main/java/org/eclipse/microprofile/health/Response.java:71-85 | Two enumerations that share a first provider give the same lookup outcome, in either scope. Later elements never matter. |
| `ServiceDiscovery.Lookup` | api/src/main/java/org/eclipse/microprofile/health/Response.java:63-97 | In a running system, the override, fallback and not-found rules hold for the scope reached through the context class loader and the scope reached through the library's loader. |
| `ServiceDiscovery.ContextClassLoader` | api/src/main/java/org/eclipse/microprofile/health/Response.java:100-113 | A loader the thread returns, `null` included, is handed out unchanged. A `SecurityException` gives `null` instead of propagating. |
| `ServiceDiscovery.DeniedContextLoaderDegradesToNull` | api/src/main/java/org/eclipse/microprofile/health/Response.java:100-113 | A thread that denies its context class loader gives the same lookup as one whose loader is `null`. The context scope then becomes the system scope, and the lookup is not aborted. |
| `HealthResponse.ResponseBuilder.Build` | api/src/main/java/org/eclipse/microprofile/health/Response.java:53-61 | A built response carries exactly the staged name, state and attributes. Building is refused iff no state was set, so a response never has an unset state. |
| `HealthResponse.Named` | api/src/main/java/org/eclipse/microprofile/health/Response.java:48-51 | A failed factory lookup propagates unchanged as the not-found error. On success the builder's name is exactly the given string, unvalidated. Its state and attributes are as the selected provider created them. |
| `HealthResponse.NamedBuildRoundTrip` | api/src/main/java/org/eclipse/microprofile/health/Response.java:48-59 | Seeding a name through `named`, setting a state and building gives a response with that exact name and state. |
| `HealthResponse.NamedUsesLibraryProvider` | api/src/main/java/org/eclipse/microprofile/health/Response.java:48-86 | When the library scope lists a factory, `named` builds on that provider's builder, whatever the context scope holds. |
| `HealthResponse.AbsentAttributesDifferFromEmpty` | api/src/main/java/org/eclipse/microprofile/health/Response.java:61 | Without attributes the built response reports them absent. With an explicitly empty map it reports them present and empty. The two responses differ. |
| `HealthResponse.StateIsTwoValued` | api/src/main/java/org/eclipse/microprofile/health/Response.java:55 | Every `State` is `UP` or `DOWN`, and the two differ. |
| `HealthResponse.DatabaseScenario` | api/src/main/java/org/eclipse/microprofile/health/Response.java:48-61 | Setup: only the library scope holds a provider, whatever builder it starts from. `named("database")`, set to `UP` with the attribute `latency_ms -> 12`, builds exactly that response. |

## Left out

- `ServiceLoader`, class loaders, `AccessController.doPrivileged` and `Class<T>` are not modelled as machinery. A class loader is an opaque value `L`, and what a service-loader enumeration yields through it is given data in `Environment`. The service is identified only by its name.
- Throwables other than `SecurityException` from `Thread.getContextClassLoader` are not modelled. Such a throwable would escape `getContextClassLoader`, and `find`'s catch would treat the context scope as throwing. That case is `Threw` in `Enumeration`, which is covered.
- The `java.util.logging` calls in `find` and `getContextClassLoader` are left out. They are side effects with no effect on the result.
- The concrete `SPIFactory` and `ResponseBuilder` implementations are not part of this model. The builder is a record with one setter per field. `Build` refuses to build when no state is set. The source has no builder code, so this is a modelling choice.
- Attribute values are a type parameter instead of `Object`. As a modelling choice, setting attributes replaces the whole map (last write wins). Per-key attribute setters are not modelled.
- The TCK's `ResponseAttributesTest` is left out. It deploys an archive and checks a JSON document over HTTP, which is container and I/O plumbing.
- Provider identity and per-load freshness are not modelled. Each block of `find` creates a new `ServiceLoader`, and `next()` instantiates a new provider each time. Here a loader yields the same enumeration value on every read, so when the context and library loaders coincide, both scopes hand out the same value. No stated property depends on this.
- Concurrency is left out. The core has no shared mutable state, and each lookup is a pure function of its environment.
