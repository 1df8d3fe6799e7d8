/** The admin authentication context (`AuthContext.jsx`): the provider's `isAuthenticated`
    and `loading` state over the shared admin service, and the `useAuth` accessor. */
module AuthContext {
  import opened Wrappers
  import opened Base64
  import opened AdminAuth

  class AuthProvider {
    var isAuthenticated: bool
    var loading: bool
    /** The module-level `adminService` singleton the provider drives. */
    const service: AdminService

    /** The provider's state agrees with the service once loading is over. */
    predicate Consistent()
      reads this, service
    {
      !loading ==> isAuthenticated == service.IsAuthenticated()
    }

    /** The first render: not authenticated, still loading. */
    constructor (service: AdminService)
      ensures isAuthenticated == false && loading == true && this.service == service
      ensures Consistent()
    {
      isAuthenticated := false;
      loading := true;
      this.service := service;
    }

    /** The mount effect: restore the stored session and stop loading. */
    method Mount()
      requires service.credentials == None
      modifies this, service
      ensures !loading && Consistent()
      ensures isAuthenticated <==> StorageKey in service.storage && service.storage[StorageKey] != ""
      ensures service.storage == old(service.storage)
    {
      var restored := service.RestoreSession();
      isAuthenticated := restored;
      loading := false;
    }

    /** `login`: authenticated only once the service's login resolves; when it rejects, the
        provider's state is left as it was and the error propagates. */
    method Login(username: string, password: string, response: Response)
      returns (r: Result<(), string>)
      modifies this, service
      ensures r.Success? <==> Latin1(Credential(username, password)) && response == Ok
      ensures !Latin1(Credential(username, password)) ==> r == Failure("InvalidCharacterError")
      ensures Latin1(Credential(username, password)) && response != Ok ==>
        r == Failure(if response == NotOk then "Credenciales inválidas" else response.message)
      ensures r.Success? ==> isAuthenticated && service.IsAuthenticated()
      ensures r.Failure? ==> isAuthenticated == old(isAuthenticated)
      ensures r.Failure? ==> if Latin1(Credential(username, password)) then !service.IsAuthenticated()
                             else service.credentials == old(service.credentials)
      ensures loading == old(loading)
    {
      var outcome := service.Login(username, password, response);
      if outcome.Failure? {
        return Failure(outcome.error);
      }
      isAuthenticated := true;
      r := Success(());
    }

    /** `logout`: the service forgets the session and the provider is no longer authenticated. */
    method Logout()
      modifies this, service
      ensures !isAuthenticated && !service.IsAuthenticated()
      ensures StorageKey !in service.storage
      ensures loading == old(loading) && Consistent()
    {
      service.Logout();
      isAuthenticated := false;
    }
  }

  /** `useAuth`: the context value, or the error thrown outside a provider. */
  function UseAuth(context: Option<AuthProvider>): (r: Result<AuthProvider, string>)
    ensures r.Success? <==> context.Some?
    ensures r.Success? ==> r.value == context.value
    ensures r.Failure? ==> r.error == "useAuth debe usarse dentro de AuthProvider"
  {
    if context.None? then Failure("useAuth debe usarse dentro de AuthProvider")
    else Success(context.value)
  }

  /** A login attempted while logged out (the only place the login page is reachable) keeps the
      provider consistent with the service, whatever the response. */
  method LoginKeepsConsistency(provider: AuthProvider, username: string, password: string, response: Response)
    returns (r: Result<(), string>)
    requires !provider.loading && !provider.isAuthenticated && provider.Consistent()
    modifies provider, provider.service
    ensures provider.Consistent()
  {
    r := provider.Login(username, password, response);
  }

  /** A failed login while already authenticated (the provider itself does not prevent it)
      leaves the provider authenticated over a service that has dropped its credentials. */
  method FailedReloginDiverges(provider: AuthProvider, username: string, password: string)
    returns (r: Result<(), string>)
    requires !provider.loading && provider.isAuthenticated && provider.Consistent()
    requires Latin1(Credential(username, password))
    modifies provider, provider.service
    ensures r == Failure("Credenciales inválidas")
    ensures provider.isAuthenticated && !provider.service.IsAuthenticated() && !provider.Consistent()
  {
    r := provider.Login(username, password, NotOk);
  }
}
