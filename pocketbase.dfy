/**
 * The backend client module: how the PocketBase base URL is chosen from the
 * build environment, and the records the components exchange with the SDK.
 * The SDK calls themselves (register, login, logout, ...) are not modelled;
 * the components receive their outcomes as parameters.
 */
module PocketBase {
  import opened Js

  /** The URL used when the site is built for production. */
  const ProductionUrl: string := "https://api.cscs.dev"

  /** The URL used in development, reachable from the browser. */
  const DevelopmentUrl: string := "http://localhost:8080"

  /**
   * The build environment: the optional `PUBLIC_POCKETBASE_URL` override and
   * the `PROD` flag.
   */
  datatype Env = Env(urlOverride: Option<string>, prod: bool)

  /**
   * getPocketBaseUrl: a truthy override wins whatever the build mode; an
   * absent or empty override counts as unset, and then the production flag
   * picks between the production and the development URL.
   */
  function PocketBaseUrl(env: Env): (url: string)
    ensures Truthy(env.urlOverride) ==> url == env.urlOverride.value
    ensures !Truthy(env.urlOverride) && env.prod ==> url == ProductionUrl
    ensures !Truthy(env.urlOverride) && !env.prod ==> url == DevelopmentUrl
    ensures url != ""
  {
    if Truthy(env.urlOverride) then env.urlOverride.value
    else if env.prod then ProductionUrl
    else DevelopmentUrl
  }

  /**
   * An empty override resolves exactly as an absent one, and an override
   * that is set makes the production flag irrelevant.
   */
  lemma OverridePrecedence(u: Option<string>, prod: bool)
    ensures PocketBaseUrl(Env(Some(""), prod)) == PocketBaseUrl(Env(None, prod))
    ensures Truthy(u) ==> PocketBaseUrl(Env(u, prod)) == PocketBaseUrl(Env(u, !prod))
    ensures !Truthy(u) ==> PocketBaseUrl(Env(u, prod)) in {ProductionUrl, DevelopmentUrl}
  {
  }

  /**
   * The signed-in user as the components read it. Only the fields the
   * components use are kept; `role` is read by the layout although the
   * interface does not declare it.
   */
  datatype AuthUser = AuthUser(id: string, email: string, name: Option<string>, role: Option<string>)

  /** `user?.name` */
  function NameOf(user: Option<AuthUser>): (n: Option<string>)
    ensures user.None? ==> n.None?
    ensures user.Some? ==> n == user.value.name
  {
    if user.Some? then user.value.name else None
  }

  /** `user?.email` */
  function EmailOf(user: Option<AuthUser>): (e: Option<string>)
    ensures user.None? <==> e.None?
    ensures user.Some? ==> e == Some(user.value.email)
  {
    if user.Some? then Some(user.value.email) else None
  }

  /** The payload of `register`; `name` is optional. */
  datatype RegisterData = RegisterData(email: string, password: string, passwordConfirm: string, name: Option<string>)

  /** The payload of `login`. */
  datatype LoginData = LoginData(email: string, password: string)
}
