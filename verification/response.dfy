/** The health-check response contract and its entry point `Response.named`,
    which obtains a builder from whichever `SPIFactory` provider the discovery
    rule selects and seeds it with the check's name. */
module HealthResponse {
  import opened Results
  import opened ServiceDiscovery

  /** The service `named` looks up. */
  const SPIFactoryService := "org.eclipse.microprofile.health.spi.SPIFactory"

  /** The outcome of a check: exactly two values. */
  datatype State = UP | DOWN

  /** A built response: a name, a state that is always set, and attributes that
      are either absent or a (possibly empty) map; values are left abstract, as the
      source types them `Object`. */
  datatype Response<V> = Response(name: string, state: State, attributes: Option<map<string, V>>)

  /** Why a builder refuses to build. */
  datatype BuildError = StateNotSet

  /** The staging record a provider hands out; each setter changes its own field
      and nothing else. */
  datatype ResponseBuilder<V> = ResponseBuilder(name: string, state: Option<State>, attributes: Option<map<string, V>>) {

    /** `name(s)`: the name becomes `s`, unvalidated. */
    function Name(s: string): ResponseBuilder<V> {
      this.(name := s)
    }

    /** `up()`, `down()`: set the state. */
    function WithState(s: State): ResponseBuilder<V> {
      this.(state := Some(s))
    }

    /** Set the attribute map; a later call replaces an earlier one. */
    function WithAttributes(m: map<string, V>): ResponseBuilder<V> {
      this.(attributes := Some(m))
    }

    /** `build()`: a response carrying exactly what was staged, or a refusal when
        no state was set. */
    function Build(): (r: Result<Response<V>, BuildError>)
      ensures r.Ok? <==> state.Some?
      ensures r.Err? ==> r.error == StateNotSet
      ensures r.Ok? ==> && r.value.name == name
                        && Some(r.value.state) == state
                        && r.value.attributes == attributes
    {
      match state
      case None => Err(StateNotSet)
      case Some(s) => Ok(Response(name, s, attributes))
    }
  }

  /** An `SPIFactory` provider; `createResponseBuilder()` hands out the builder the
      provider starts from. */
  datatype Factory<V> = Factory(initial: ResponseBuilder<V>) {
    function CreateResponseBuilder(): ResponseBuilder<V> {
      initial
    }
  }

  /** `Response.named(name)`: find the factory, ask it for a builder and seed the
      builder with `name`. A failed lookup propagates unchanged; on success the
      builder is the selected provider's, named exactly `name`, and otherwise as
      the provider created it. */
  function Named<L, V>(env: Environment<L, Factory<V>>, name: string): (r: Result<ResponseBuilder<V>, LookupError>)
    ensures r.Err? <==> Lookup(SPIFactoryService, env).Err?
    ensures r.Err? ==> r.error == NotFound(SPIFactoryService)
    ensures r.Ok? ==> r.value.name == name
    ensures r.Ok? ==> var created := Lookup(SPIFactoryService, env).value.CreateResponseBuilder();
                      r.value.state == created.state && r.value.attributes == created.attributes
  {
    match Lookup(SPIFactoryService, env)
    case Err(e) => Err(e)
    case Ok(factory) => Ok(factory.CreateResponseBuilder().Name(name))
  }

  /** Whatever name goes in comes back out of the built response, together with
      the state the caller set. */
  lemma NamedBuildRoundTrip<L, V>(env: Environment<L, Factory<V>>, name: string, s: State)
    requires Named(env, name).Ok?
    ensures var b := Named(env, name).value.WithState(s).Build();
            b.Ok? && b.value.name == name && b.value.state == s
  {
  }

  /** When the library scope lists a factory, `named` builds on that provider,
      whatever the context scope holds. */
  lemma NamedUsesLibraryProvider<L, V>(env: Environment<L, Factory<V>>, name: string)
    requires LibraryScope(env).Offers()
    ensures Named(env, name) == Ok(LibraryScope(env).Head().CreateResponseBuilder().Name(name))
  {
  }

  /** A response built without attributes reports them absent; one built with an
      explicitly empty map reports them present with no entries; the two differ. */
  lemma AbsentAttributesDifferFromEmpty<V>(b: ResponseBuilder<V>, s: State)
    requires b.attributes.None?
    ensures b.WithState(s).Build().value.attributes == None
    ensures b.WithState(s).WithAttributes(map[]).Build().value.attributes == Some(map[])
    ensures b.WithState(s).Build() != b.WithState(s).WithAttributes(map[]).Build()
  {
  }

  /** `State` has no members beyond `UP` and `DOWN`. */
  lemma StateIsTwoValued(s: State)
    ensures s == UP || s == DOWN
    ensures UP != DOWN
  {
  }

  /** A check named "database", reported `UP` with the one attribute
      `latency_ms -> 12`, through a system whose only provider sits in the library
      scope, whatever builder that provider starts from. */
  lemma DatabaseScenario(provider: Factory<int>, loader: nat)
    ensures var env := Environment(Returns(None), Some(loader), map[loader := Listed([provider])], Listed([]));
            var built := Named(env, "database").value.WithState(UP).WithAttributes(map["latency_ms" := 12]).Build();
            built == Ok(Response("database", UP, Some(map["latency_ms" := 12])))
  {
  }
}
