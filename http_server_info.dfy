/**
 * The URIs an HTTP server announces (HttpServerInfo): from the server's
 * configuration and the node's addresses, which of the HTTP, HTTPS and admin
 * URIs exist, with which scheme, host and port. A configured port of 0 asks for
 * some unused port; the chosen port is a parameter of the model.
 */
module HttpServer {
  import opened Wrappers

  /** A port a listening socket can be bound to. */
  type BoundPort = p: int | 1 <= p <= 65535 witness 1

  datatype Scheme = Http | Https

  /** A server URI, reduced to the parts HttpServerInfo sets: scheme, host and port. */
  datatype Uri = Uri(scheme: Scheme, host: string, port: int)

  /** The settings HttpServerInfo reads from HttpServerConfig. */
  datatype HttpServerConfig = HttpServerConfig(
    httpEnabled: bool, httpPort: int,
    httpsEnabled: bool, httpsPort: int,
    adminEnabled: bool, adminPort: int)

  /**
   * The node's addresses: the internal IP (already in URI form), the internal
   * hostname and the external address.
   */
  datatype NodeInfo = NodeInfo(internalIp: string, internalHostname: string, externalAddress: string)

  /** The port findUnusedPort would hand back at each of the five buildUri call sites. */
  datatype UnusedPorts = UnusedPorts(
    http: BoundPort, httpExternal: BoundPort, https: BoundPort, admin: BoundPort, adminExternal: BoundPort)

  /** The five URIs; None is Java's null. */
  datatype HttpServerInfo = HttpServerInfo(
    httpUri: Option<Uri>,
    httpExternalUri: Option<Uri>,
    httpsUri: Option<Uri>,
    adminUri: Option<Uri>,
    adminExternalUri: Option<Uri>)

  /**
   * buildUri: the scheme and host as given; a non-zero port as given, and port
   * 0 replaced by the unused port found for this call, so the result never has
   * port 0.
   */
  function BuildUri(scheme: Scheme, host: string, port: int, unused: BoundPort): (u: Uri)
    ensures u.scheme == scheme && u.host == host
    ensures u.port != 0
    ensures port != 0 ==> u.port == port
    ensures port == 0 ==> u.port == unused
  {
    Uri(scheme, host, if port == 0 then unused else port)
  }

  /** The HttpServerInfo constructor. */
  function NewHttpServerInfo(config: HttpServerConfig, nodeInfo: NodeInfo, unused: UnusedPorts): (info: HttpServerInfo)
    // HTTP: both URIs exist exactly when HTTP is enabled, and the external one
    // carries the internal one's resolved port.
    ensures info.httpUri.Some? <==> config.httpEnabled
    ensures info.httpExternalUri.Some? <==> config.httpEnabled
    ensures config.httpEnabled ==>
      && info.httpUri.value == BuildUri(Http, nodeInfo.internalIp, config.httpPort, unused.http)
      && info.httpExternalUri.value == Uri(Http, nodeInfo.externalAddress, info.httpUri.value.port)
    // HTTPS: exists exactly when HTTPS is enabled, on the internal hostname.
    ensures info.httpsUri.Some? <==> config.httpsEnabled
    ensures config.httpsEnabled ==>
      info.httpsUri.value == BuildUri(Https, nodeInfo.internalHostname, config.httpsPort, unused.https)
    // Admin: exists exactly when admin is enabled; over HTTPS there is no external admin URI.
    ensures info.adminUri.Some? <==> config.adminEnabled
    ensures info.adminExternalUri.Some? <==> config.adminEnabled && !config.httpsEnabled
    ensures config.adminEnabled && config.httpsEnabled ==>
      info.adminUri.value == BuildUri(Https, nodeInfo.internalHostname, config.adminPort, unused.admin)
    ensures config.adminEnabled && !config.httpsEnabled ==>
      && info.adminUri.value == BuildUri(Http, nodeInfo.internalIp, config.adminPort, unused.admin)
      && info.adminExternalUri.value == Uri(Http, nodeInfo.externalAddress, info.adminUri.value.port)
  {
    var httpUri := if config.httpEnabled
      then Some(BuildUri(Http, nodeInfo.internalIp, config.httpPort, unused.http)) else None;
    var httpExternalUri := if config.httpEnabled
      then Some(BuildUri(Http, nodeInfo.externalAddress, httpUri.value.port, unused.httpExternal)) else None;
    var httpsUri := if config.httpsEnabled
      then Some(BuildUri(Https, nodeInfo.internalHostname, config.httpsPort, unused.https)) else None;
    var adminUri :=
      if !config.adminEnabled then None
      else if config.httpsEnabled then Some(BuildUri(Https, nodeInfo.internalHostname, config.adminPort, unused.admin))
      else Some(BuildUri(Http, nodeInfo.internalIp, config.adminPort, unused.admin));
    var adminExternalUri :=
      if !config.adminEnabled || config.httpsEnabled then None
      else Some(BuildUri(Http, nodeInfo.externalAddress, adminUri.value.port, unused.adminExternal));
    HttpServerInfo(httpUri, httpExternalUri, httpsUri, adminUri, adminExternalUri)
  }

  /** Every URI present has a non-zero port (port 0 never leaks into a URI). */
  lemma NoUriHasPortZero(config: HttpServerConfig, nodeInfo: NodeInfo, unused: UnusedPorts)
    ensures var info := NewHttpServerInfo(config, nodeInfo, unused);
      && (info.httpUri.Some? ==> info.httpUri.value.port != 0)
      && (info.httpExternalUri.Some? ==> info.httpExternalUri.value.port != 0)
      && (info.httpsUri.Some? ==> info.httpsUri.value.port != 0)
      && (info.adminUri.Some? ==> info.adminUri.value.port != 0)
      && (info.adminExternalUri.Some? ==> info.adminExternalUri.value.port != 0)
  {
  }

  /**
   * The external URIs never ask for a port of their own: the result does not
   * depend on what findUnusedPort would return at the two external call sites.
   */
  lemma ExternalUrisChooseNoPort(config: HttpServerConfig, nodeInfo: NodeInfo, unused: UnusedPorts,
                                 httpExternal: BoundPort, adminExternal: BoundPort)
    ensures NewHttpServerInfo(config, nodeInfo, unused) ==
      NewHttpServerInfo(config, nodeInfo, unused.(httpExternal := httpExternal, adminExternal := adminExternal))
  {
  }

  /** A non-zero configured port is used as is, whatever unused ports would be chosen. */
  lemma ConfiguredPortsAreKept(config: HttpServerConfig, nodeInfo: NodeInfo, unused: UnusedPorts)
    ensures var info := NewHttpServerInfo(config, nodeInfo, unused);
      && (config.httpEnabled && config.httpPort != 0 ==>
            info.httpUri.value.port == config.httpPort && info.httpExternalUri.value.port == config.httpPort)
      && (config.httpsEnabled && config.httpsPort != 0 ==> info.httpsUri.value.port == config.httpsPort)
      && (config.adminEnabled && config.adminPort != 0 ==> info.adminUri.value.port == config.adminPort)
      && (config.adminEnabled && !config.httpsEnabled && config.adminPort != 0 ==>
            info.adminExternalUri.value.port == config.adminPort)
  {
  }
}
