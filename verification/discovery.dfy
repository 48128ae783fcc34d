/** The provider-discovery rule behind `Response.find`: look a service up through
    the thread's context class loader, then through the class loader that defined
    the library, keep the first provider each of them lists, let the library's
    provider win, and fail with an `IllegalStateException` when neither lists one. */
module ServiceDiscovery {
  import opened Results

  /** What iterating `ServiceLoader.load(service, loader)` produced for one scope:
      either the enumeration threw (at creation, in `hasNext` or in `next`), or it
      listed these providers in order. */
  datatype Enumeration<T> = Threw | Listed(candidates: seq<T>) {

    /** True when the scope hands out a first provider. */
    predicate Offers() {
      Listed? && |candidates| > 0
    }

    /** The provider `iterator.next()` returns first. */
    function Head(): T
      requires Offers()
    {
      candidates[0]
    }
  }

  /** The only failure `find` lets escape. */
  datatype LookupError = IllegalState(message: string)

  /** The error raised when no scope yields a provider of `service`. */
  function NotFound(service: string): LookupError {
    IllegalState("Unable to load service " + service)
  }

  /** One guarded block of `find`: a scope that lists a provider replaces the
      tentative instance with its first provider; a scope that lists nothing or
      throws leaves the tentative instance as it was. */
  function Consult<T>(tentative: Option<T>, scope: Enumeration<T>): (r: Option<T>)
    ensures scope.Offers() ==> r == Some(scope.Head())
    ensures !scope.Offers() ==> r == tentative
  {
    match scope
    case Threw => tentative
    case Listed(candidates) => if |candidates| > 0 then Some(candidates[0]) else tentative
  }

  /** Scope `i` decides the lookup: it offers a provider and no later scope does. */
  predicate Decisive<T>(scopes: seq<Enumeration<T>>, i: int) {
    && 0 <= i < |scopes|
    && scopes[i].Offers()
    && forall j | i < j < |scopes| :: !scopes[j].Offers()
  }

  /** The tentative instance after the guarded blocks have run over `scopes` in
      search order, starting from `null`; an instance, when there is one, is the
      first provider some scope listed, never one made up along the way. */
  function Resolve<T>(scopes: seq<Enumeration<T>>): (r: Option<T>)
    ensures r.Some? ==> exists i | 0 <= i < |scopes| :: scopes[i].Offers() && r.value == scopes[i].Head()
    decreases |scopes|
  {
    if |scopes| == 0 then None
    else Consult(Resolve(scopes[..|scopes| - 1]), scopes[|scopes| - 1])
  }

  /** The blocks end with an instance exactly when some scope offers a provider. */
  lemma {:induction false} ResolveFindsIffSomeScopeOffers<T>(scopes: seq<Enumeration<T>>)
    ensures Resolve(scopes).Some? <==> exists i | 0 <= i < |scopes| :: scopes[i].Offers()
    decreases |scopes|
  {
    if |scopes| > 0 {
      var n := |scopes| - 1;
      var earlier := scopes[..n];
      ResolveFindsIffSomeScopeOffers(earlier);
      if !scopes[n].Offers() && exists i | 0 <= i < |scopes| :: scopes[i].Offers() {
        var i :| 0 <= i < |scopes| && scopes[i].Offers();
        assert earlier[i] == scopes[i];
      }
      if exists i | 0 <= i < n :: earlier[i].Offers() {
        var i :| 0 <= i < n && earlier[i].Offers();
        assert scopes[i] == earlier[i];
      }
    }
  }

  /** A later scope overrides an earlier one: the instance is the first provider of
      the last scope that offers one. */
  lemma {:induction false} ResolvePicksLastOfferingScope<T>(scopes: seq<Enumeration<T>>, i: int)
    requires Decisive(scopes, i)
    ensures Resolve(scopes) == Some(scopes[i].Head())
    decreases |scopes|
  {
    var n := |scopes| - 1;
    if i < n {
      var earlier := scopes[..n];
      assert !scopes[n].Offers();
      assert forall j | i < j < n :: earlier[j] == scopes[j];
      ResolvePicksLastOfferingScope(earlier, i);
    }
  }

  /** `find(service)` over the two scope enumerations it consults, context first,
      library second. */
  function Find<T>(service: string, context: Enumeration<T>, library: Enumeration<T>): (r: Result<T, LookupError>)
    ensures r.Ok? <==> context.Offers() || library.Offers()
    ensures library.Offers() ==> r == Ok(library.Head())
    ensures !library.Offers() && context.Offers() ==> r == Ok(context.Head())
    ensures r.Err? ==> r.error == NotFound(service)
  {
    var order := [context, library];
    ResolveFindsIffSomeScopeOffers(order);
    assert library.Offers() ==> Resolve(order) == Some(library.Head()) by {
      if library.Offers() {
        ResolvePicksLastOfferingScope(order, 1);
      }
    }
    assert !library.Offers() && context.Offers() ==> Resolve(order) == Some(context.Head()) by {
      if !library.Offers() && context.Offers() {
        ResolvePicksLastOfferingScope(order, 0);
      }
    }
    match Resolve(order)
    case Some(instance) => Ok(instance)
    case None => Err(NotFound(service))
  }

  /** A scope whose enumeration throws contributes exactly what an empty scope
      does: no provider, and no failure of its own. */
  lemma ThrowingScopeContributesNothing<T>(service: string, context: Enumeration<T>, library: Enumeration<T>)
    ensures Find(service, Threw, library) == Find(service, Listed([]), library)
    ensures Find(service, context, Threw) == Find(service, context, Listed([]))
  {
  }

  /** Only the first provider a scope lists can matter; whatever follows it is
      never looked at. */
  lemma OnlyFirstCandidateMatters<T>(service: string, first: T, rest: seq<T>, rest': seq<T>, other: Enumeration<T>)
    ensures Find(service, Listed([first] + rest), other) == Find(service, Listed([first] + rest'), other)
    ensures Find(service, other, Listed([first] + rest)) == Find(service, other, Listed([first] + rest'))
  {
  }

  /** What `Thread.currentThread().getContextClassLoader()` does when
      `getContextClassLoader` asks it: hand out a loader (possibly `null`), or
      throw a `SecurityException`. */
  datatype ThreadLoader<L> = Returns(loader: Option<L>) | SecurityDenied

  /** `Response.getContextClassLoader`: a denied request degrades to `null`. */
  function ContextClassLoader<L>(thread: ThreadLoader<L>): (r: Option<L>)
    ensures thread.SecurityDenied? ==> r.None?
    ensures thread.Returns? ==> r == thread.loader
  {
    match thread
    case Returns(loader) => loader
    case SecurityDenied => None
  }

  /** The state of the running system that `find` reads. */
  datatype Environment<L, T> = Environment(
    thread: ThreadLoader<L>,           // what the context class loader request meets
    libraryLoader: Option<L>,          // the loader that defined the library, `null` for the bootstrap loader
    scopes: map<L, Enumeration<T>>,    // what a service-loader enumeration through each loader yields
    systemScope: Enumeration<T>)       // what it yields for a `null` loader, which means the system loader

  /** The enumeration `ServiceLoader.load(service, loader)` yields in `env`; a
      loader the environment does not list sees no provider. */
  function ScopeOf<L, T>(env: Environment<L, T>, loader: Option<L>): Enumeration<T> {
    match loader
    case None => env.systemScope
    case Some(l) => if l in env.scopes then env.scopes[l] else Listed([])
  }

  /** The context scope `find` enumerates first. */
  function ContextScope<L, T>(env: Environment<L, T>): Enumeration<T> {
    ScopeOf(env, ContextClassLoader(env.thread))
  }

  /** The library scope `find` enumerates second. */
  function LibraryScope<L, T>(env: Environment<L, T>): Enumeration<T> {
    ScopeOf(env, env.libraryLoader)
  }

  /** `find(service)` in a running system: a provider from the library scope if it
      lists one, else from the context scope, else `IllegalStateException`. */
  function Lookup<L, T>(service: string, env: Environment<L, T>): (r: Result<T, LookupError>)
    ensures r.Ok? <==> ContextScope(env).Offers() || LibraryScope(env).Offers()
    ensures LibraryScope(env).Offers() ==> r == Ok(LibraryScope(env).Head())
    ensures !LibraryScope(env).Offers() && ContextScope(env).Offers() ==> r == Ok(ContextScope(env).Head())
    ensures r.Err? ==> r.error == NotFound(service)
  {
    Find(service, ContextScope(env), LibraryScope(env))
  }

  /** A thread that refuses to reveal its context class loader does not abort the
      lookup: it is searched as if the loader were `null`, that is through the
      system scope. */
  lemma DeniedContextLoaderDegradesToNull<L, T>(service: string, env: Environment<L, T>)
    requires env.thread.SecurityDenied?
    ensures Lookup(service, env) == Lookup(service, env.(thread := Returns(None)))
    ensures Lookup(service, env) == Find(service, env.systemScope, LibraryScope(env))
  {
  }
}
