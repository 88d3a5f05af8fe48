/**
 * `DefaultAuthenticator`: a registry from caller-chosen names to
 * authentication modules, kept in a mutable map, and the builder it hands
 * out, whose `add(name)` builds a module and registers it.
 */
module DefaultAuthentication {
  import opened Wrappers
  import opened Collaborators
  import opened Session
  import opened RestAuthentication

  /** `AuthType`: REST is the one kind this source names; the others are opaque. */
  datatype AuthType = REST | OtherAuthType(name: string)

  const UnsupportedAuthType: string := "Unsupported Auth Type passed"

  /** `Map.get`: the value bound to `name`, or null. */
  function Lookup(modules: map<string, RestAuthenticationModule>, name: string): (r: Option<RestAuthenticationModule>)
    ensures r.Some? <==> name in modules
    ensures r.Some? ==> r.value == modules[name]
  {
    if name in modules then Some(modules[name]) else None
  }

  class DefaultAuthenticator {
    var modules: map<string, RestAuthenticationModule>

    constructor ()
      ensures modules == map[]
    {
      modules := map[];
    }

    /**
     * `add`: binds `name` to `authModule`, replacing any earlier binding,
     * and returns what is then bound to `name`, which is `authModule`.
     */
    method Add(name: string, authModule: RestAuthenticationModule) returns (r: RestAuthenticationModule)
      modifies this
      ensures modules == old(modules)[name := authModule]
      ensures r == authModule && Lookup(modules, name) == Some(authModule)
      ensures forall n :: n != name ==> Lookup(modules, n) == Lookup(old(modules), n)
    {
      modules := modules[name := authModule];
      r := modules[name];
    }

    /** `get`: the module bound to `name`, or none for an unknown name. */
    method Get(name: string) returns (r: Option<RestAuthenticationModule>)
      ensures r.Some? <==> name in modules
      ensures r.Some? ==> r.value == modules[name]
    {
      r := Lookup(modules, name);
    }

    /**
     * `remove`: unbinds `name` and returns what was bound to it, or none;
     * every other binding stays, and an unknown name changes nothing.
     */
    method Remove(name: string) returns (r: Option<RestAuthenticationModule>)
      modifies this
      ensures r == Lookup(old(modules), name)
      ensures modules == old(modules) - {name}
      ensures Lookup(modules, name) == None
      ensures forall n :: n != name ==> Lookup(modules, n) == Lookup(old(modules), n)
      ensures name !in old(modules) ==> modules == old(modules)
    {
      r := Lookup(modules, name);
      modules := modules - {name};
    }

    /**
     * `auth`: for REST, a fresh builder over `baseURL` with the default
     * endpoints whose `add` registers into this authenticator; for any other
     * kind, an IllegalArgumentException. The registry is not touched.
     */
    method Auth(authType: AuthType, baseURL: string) returns (r: Result<AddAuthBuilder, Error>)
      ensures authType != REST ==> r == Failure(IllegalArgument(UnsupportedAuthType))
      ensures authType == REST ==> r.Success? && fresh(r.value) && fresh(r.value.builder)
      ensures authType == REST ==> r.value.authenticator == this
      ensures authType == REST ==> r.value.builder.baseURL == baseURL
                                   && r.value.builder.loginEndpoint == DefaultLoginEndpoint
                                   && r.value.builder.logoutEndpoint == DefaultLogoutEndpoint
                                   && r.value.builder.enrollEndpoint == DefaultEnrollEndpoint
    {
      if authType != REST {
        r := Failure(IllegalArgument(UnsupportedAuthType));
        return;
      }
      var b := new Builder();
      var _ := b.BaseURL(baseURL);
      var ab := new AddAuthBuilder(b, this);
      r := Success(ab);
    }
  }

  /**
   * The builder that `auth` returns: a `Builder` (its setters are reached
   * through `builder`) whose `add` builds and then registers through the
   * authenticator's own `add`.
   */
  class AddAuthBuilder {
    const builder: Builder
    const authenticator: DefaultAuthenticator

    constructor (builder: Builder, authenticator: DefaultAuthenticator)
      ensures this.builder == builder && this.authenticator == authenticator
    {
      this.builder := builder;
      this.authenticator := authenticator;
    }

    /**
     * `add(name)`: when `build` succeeds, the new module is bound to `name`
     * and returned; when it throws, nothing is registered.
     */
    method Add(name: string, isUrl: UrlSyntax) returns (r: Result<RestAuthenticationModule, Error>)
      modifies authenticator
      ensures r.Success? <==> isUrl(builder.baseURL + builder.loginEndpoint)
                              && isUrl(builder.baseURL + builder.logoutEndpoint)
                              && isUrl(builder.baseURL + builder.enrollEndpoint)
      ensures r.Failure? ==> authenticator.modules == old(authenticator.modules)
      ensures r.Failure? ==> r.error == IllegalArgumentCausedBy(MalformedUrl(FirstInvalid(
                 isUrl, builder.baseURL, builder.loginEndpoint, builder.logoutEndpoint, builder.enrollEndpoint).value))
      ensures r.Success? ==> fresh(r.value) && r.value.State() == Initial
      ensures r.Success? ==> authenticator.modules == old(authenticator.modules)[name := r.value]
      ensures r.Success? ==> r.value.baseURL == builder.baseURL
                             && r.value.loginEndpoint == builder.loginEndpoint
                             && r.value.logoutEndpoint == builder.logoutEndpoint
                             && r.value.enrollEndpoint == builder.enrollEndpoint
                             && r.value.Resolved()
    {
      var built := builder.Build(isUrl);
      match built {
        case Failure(e) => r := Failure(e);
        case Success(m) =>
          var added := authenticator.Add(name, m);
          r := Success(added);
      }
    }
  }
}
