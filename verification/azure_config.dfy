/**
 * The redirect URIs of the front end's Azure sign-in configuration
 * (`frontend/src/config/azure.ts`): a build-time URI is used unless it is
 * missing, cannot be parsed, or points at localhost while the app runs
 * elsewhere; in those cases the page's own origin plus a fixed path is used.
 *
 * The `URL` parser is an oracle giving the hostname, or `None` where the
 * constructor throws; `window.location` is a parameter.
 */
module AzureConfig {
  import opened Wrappers
  import opened Strings

  /** `window.location`: the page's origin and hostname. */
  datatype Location = Location(origin: string, hostname: string)

  /** `new URL(s).hostname`, or `None` where the constructor throws. */
  type UrlParser = string -> Option<string>

  /** `!envUri` is false: the variable is set and not empty. */
  predicate Set(envUri: Option<string>)
  {
    envUri.Some? && envUri.value != ""
  }

  /** The URI is parsed and its hostname mentions localhost. */
  predicate PointsAtLocalhost(uri: string, hostOf: UrlParser)
  {
    hostOf(uri).Some? && Contains(hostOf(uri).value, "localhost")
  }

  /** The build-time URI is usable where the app runs. */
  predicate Usable(envUri: Option<string>, loc: Location, hostOf: UrlParser)
  {
    && Set(envUri)
    && hostOf(envUri.value).Some?
    && (PointsAtLocalhost(envUri.value, hostOf) ==> loc.hostname == "localhost")
  }

  /** `resolveRedirectUri(envUri, fallbackPath)`. */
  function ResolveRedirectUri(envUri: Option<string>, fallbackPath: string, loc: Location, hostOf: UrlParser): (r: string)
    ensures Usable(envUri, loc, hostOf) ==> r == envUri.value
    ensures !Usable(envUri, loc, hostOf) ==> r == loc.origin + fallbackPath
  {
    if !Set(envUri) then loc.origin + fallbackPath
    else match hostOf(envUri.value)
      case None => loc.origin + fallbackPath
      case Some(host) =>
        if Contains(host, "localhost") && loc.hostname != "localhost" then loc.origin + fallbackPath
        else envUri.value
  }

  /** The result is the build-time URI or the page's origin plus the fallback path, and nothing else. */
  lemma ResolvesToOneOfTwo(envUri: Option<string>, fallbackPath: string, loc: Location, hostOf: UrlParser)
    ensures var r := ResolveRedirectUri(envUri, fallbackPath, loc, hostOf);
      (envUri.Some? && r == envUri.value) || r == loc.origin + fallbackPath
  {
  }

  /** Away from localhost the app never redirects to a URI whose hostname mentions localhost, unless the page's own origin is that URI. */
  lemma NoLocalhostInProduction(envUri: Option<string>, fallbackPath: string, loc: Location, hostOf: UrlParser)
    requires loc.hostname != "localhost"
    ensures var r := ResolveRedirectUri(envUri, fallbackPath, loc, hostOf);
      r == loc.origin + fallbackPath || (hostOf(r).Some? && !PointsAtLocalhost(r, hostOf))
  {
  }

  /** On localhost any build-time URI that parses is kept as it is. */
  lemma LocalhostKeepsParsedUri(uri: string, fallbackPath: string, loc: Location, hostOf: UrlParser)
    requires loc.hostname == "localhost"
    requires uri != "" && hostOf(uri).Some?
    ensures ResolveRedirectUri(Some(uri), fallbackPath, loc, hostOf) == uri
  {
  }

  /** The two redirect URIs of the sign-in configuration. */
  datatype RedirectUris = RedirectUris(redirectUri: string, postLogoutRedirectUri: string)

  /** `REDIRECT_URI` and `POST_LOGOUT_REDIRECT_URI`, from their build-time variables. */
  function Redirects(envRedirect: Option<string>, envPostLogout: Option<string>, loc: Location, hostOf: UrlParser): (u: RedirectUris)
    ensures !Set(envRedirect) ==> u.redirectUri == loc.origin + "/auth/callback"
    ensures !Set(envPostLogout) ==> u.postLogoutRedirectUri == loc.origin + "/"
  {
    RedirectUris(ResolveRedirectUri(envRedirect, "/auth/callback", loc, hostOf),
                 ResolveRedirectUri(envPostLogout, "/", loc, hostOf))
  }

  /** Without build-time variables, sign-in returns to `/auth/callback` and sign-out to the root of the same origin. */
  lemma UnsetVariablesUseOrigin(loc: Location, hostOf: UrlParser)
    ensures Redirects(None, None, loc, hostOf) == RedirectUris(loc.origin + "/auth/callback", loc.origin + "/")
  {
  }
}
