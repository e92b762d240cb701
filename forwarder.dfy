/**
 * Building the outbound request and mapping transport failures to a status:
 * the configuration lookups, the header whitelist, the TLS-verify setting and
 * the error clauses of the forwarding call.
 */
module Forwarder {
  import opened Wrappers
  import opened JsonValue
  import opened Text

  /** The configuration keys the handler reads; None when a key is absent. */
  datatype Config = Config(
    targetUrl: Option<string>,
    verifySsl: Option<Json>,
    requestTimeout: Option<Json>,
    streamingChunkSize: Option<int>)

  const DefaultTarget := "http://localhost:8000"
  const DefaultChunkSize := 50

  function TargetUrl(cfg: Config): string {
    match cfg.targetUrl
    case Some(url) => url
    case None => DefaultTarget
  }

  function ChunkSize(cfg: Config): int {
    match cfg.streamingChunkSize
    case Some(size) => size
    case None => DefaultChunkSize
  }

  /** JNull means "no explicit deadline": the HTTP library's default applies. */
  function RequestTimeout(cfg: Config): Json {
    match cfg.requestTimeout
    case Some(t) => t
    case None => JNull
  }

  /** What the HTTP library is told about certificate checking. */
  datatype Verify = VerifyFlag(on: bool) | CaBundle(path: string)

  /**
   * `str(value).lower() == "true"`. Of the values a configuration file can hold,
   * only True (printed "True") and a string spelling "true" qualify: None prints
   * as "None", a number as digits, a list or dict opens with a bracket or brace.
   */
  predicate SpellsTrue(v: Json) {
    v == JBool(true) || (v.JString? && Lower(v.s) == "true")
  }

  /** The verify_ssl setting: a string other than "true"/"false" (any case) is a CA bundle path. */
  function VerifySetting(v: Json): Verify {
    if v.JString? && Lower(v.s) != "true" && Lower(v.s) != "false" then CaBundle(v.s)
    else VerifyFlag(SpellsTrue(v))
  }

  /** Verification for one forwarded call: the setting applies only to https targets. */
  function ResolveVerify(cfg: Config): (r: Verify)
    ensures !StartsWith(TargetUrl(cfg), "https://") ==> r == VerifyFlag(true)
    ensures cfg.verifySsl.None? ==> r == VerifyFlag(true)
    ensures r.CaBundle? <==>
      && StartsWith(TargetUrl(cfg), "https://")
      && cfg.verifySsl.Some? && cfg.verifySsl.value.JString?
      && Lower(cfg.verifySsl.value.s) !in {"true", "false"}
    ensures r.CaBundle? ==> cfg.verifySsl == Some(JString(r.path))
    ensures r == VerifyFlag(false) <==>
      && StartsWith(TargetUrl(cfg), "https://")
      && cfg.verifySsl.Some?
      && !SpellsTrue(cfg.verifySsl.value)
      && !(cfg.verifySsl.value.JString? && Lower(cfg.verifySsl.value.s) != "false")
  {
    if StartsWith(TargetUrl(cfg), "https://") then
      VerifySetting(match cfg.verifySsl case Some(v) => v case None => JBool(true))
    else VerifyFlag(true)
  }

  /** Example: an https target with verify_ssl "TRUE" verifies; "False" does not; a path is kept. */
  lemma VerifyExamples()
    ensures ResolveVerify(Config(Some("https://api"), Some(JString("TRUE")), None, None)) == VerifyFlag(true)
    ensures ResolveVerify(Config(Some("https://api"), Some(JString("False")), None, None)) == VerifyFlag(false)
    ensures ResolveVerify(Config(Some("https://api"), Some(JString("/etc/ca.pem")), None, None)) == CaBundle("/etc/ca.pem")
    ensures ResolveVerify(Config(Some("http://api"), Some(JBool(false)), None, None)) == VerifyFlag(true)
  {
    assert StartsWith("https://api", "https://");
    assert Lower("TRUE") == "true";
    assert Lower("False") == "false";
    assert Lower("/etc/ca.pem") == "/etc/ca.pem";
    assert "http://api"[..8][4] == ':' != 's' == "https://"[4];
  }

  /** A header list as received, in order, names in their original case. */
  type Headers = seq<(string, string)>

  /** `headers.get(name)`: the first field whose name equals `name` ignoring case. */
  function HeaderGet(hs: Headers, name: string): Option<string> {
    if hs == [] then None
    else if Lower(hs[0].0) == Lower(name) then Some(hs[0].1)
    else HeaderGet(hs[1..], name)
  }

  function HeaderGetOr(hs: Headers, name: string, default: string): string {
    match HeaderGet(hs, name)
    case Some(v) => v
    case None => default
  }

  /** The value a whitelisted header falls back to when the client did not send it. */
  function ForwardDefault(name: string): string {
    if name == "Content-Type" then "application/json"
    else if name == "Accept" then "*/*"
    else ""
  }

  const ForwardedNames := {"Authorization", "Content-Type", "Accept"}

  /** The outbound headers: the three whitelisted names, defaults filled in, empty values dropped. */
  function OutboundHeaders(inbound: Headers): (r: map<string, string>)
    ensures r.Keys <= ForwardedNames
    ensures forall name :: name in r ==> r[name] != ""
  {
    var candidates := map name | name in ForwardedNames :: HeaderGetOr(inbound, name, ForwardDefault(name));
    map name | name in candidates && candidates[name] != "" :: candidates[name]
  }

  /**
   * A whitelisted header is forwarded with the client's value when that is
   * non-empty; a header sent empty is dropped; an absent one gets its default
   * (none for Authorization).
   */
  lemma OutboundHeaderRule(inbound: Headers, name: string)
    requires name in ForwardedNames
    ensures var r := OutboundHeaders(inbound);
      match HeaderGet(inbound, name)
      case Some(v) => (name in r <==> v != "") && (name in r ==> r[name] == v)
      case None => (name in r <==> name != "Authorization") && (name in r ==> r[name] == ForwardDefault(name))
  {
  }

  /** Example: no headers at all forwards exactly the two defaults. */
  lemma NoInboundHeaders()
    ensures OutboundHeaders([]) == map["Content-Type" := "application/json", "Accept" := "*/*"]
  {
    var r := OutboundHeaders([]);
    OutboundHeaderRule([], "Authorization");
    OutboundHeaderRule([], "Content-Type");
    OutboundHeaderRule([], "Accept");
    assert r.Keys == {"Content-Type", "Accept"};
  }

  /** The request handed to the HTTP library. */
  datatype Outbound = Outbound(
    verb: string,
    url: string,
    headers: map<string, string>,
    json: Option<Json>,
    verify: Verify,
    timeout: Json)

  function BuildRequest(cfg: Config, verb: string, path: string, inbound: Headers, json: Option<Json>): Outbound {
    Outbound(verb, TargetUrl(cfg) + path, OutboundHeaders(inbound), json, ResolveVerify(cfg), RequestTimeout(cfg))
  }

  /** The transport exceptions the HTTP library raises. */
  datatype TransportError = SSLError | ProxyError | ConnectionError | ConnectTimeout | ReadTimeout | Timeout | OtherError

  /** The classes the error clauses test with `except`. */
  datatype ErrorClass = SslErrorClass | ConnectionErrorClass | TimeoutClass

  /**
   * The clauses each exception is an instance of, following the HTTP library's
   * hierarchy (an SSL error is a connection error, a connect timeout is both a
   * connection error and a timeout). That library is not part of this model.
   */
  function InstanceOf(e: TransportError): set<ErrorClass> {
    match e
    case SSLError => {SslErrorClass, ConnectionErrorClass}
    case ProxyError => {ConnectionErrorClass}
    case ConnectionError => {ConnectionErrorClass}
    case ConnectTimeout => {ConnectionErrorClass, TimeoutClass}
    case ReadTimeout => {TimeoutClass}
    case Timeout => {TimeoutClass}
    case OtherError => {}
  }

  /** The `except` clauses in order; the first that matches decides the status. */
  function StatusFor(classes: set<ErrorClass>): (code: int)
    ensures code in {500, 502, 503, 504}
    ensures code == 502 <==> SslErrorClass in classes
    ensures code == 503 <==> SslErrorClass !in classes && ConnectionErrorClass in classes
    ensures code == 504 <==> SslErrorClass !in classes && ConnectionErrorClass !in classes && TimeoutClass in classes
    ensures code == 500 <==> SslErrorClass !in classes && ConnectionErrorClass !in classes && TimeoutClass !in classes
  {
    if SslErrorClass in classes then 502
    else if ConnectionErrorClass in classes then 503
    else if TimeoutClass in classes then 504
    else 500
  }

  function ErrorStatus(e: TransportError): int {
    StatusFor(InstanceOf(e))
  }

  /**
   * Because an earlier clause wins, an SSL failure is 502 although it is also a
   * connection error, and a connect timeout is 503, not 504; only read timeouts
   * (and bare timeouts) reach the 504 clause.
   */
  lemma ErrorStatusTable()
    ensures ErrorStatus(SSLError) == 502
    ensures ErrorStatus(ProxyError) == 503 && ErrorStatus(ConnectionError) == 503
    ensures ErrorStatus(ConnectTimeout) == 503
    ensures ErrorStatus(ReadTimeout) == 504 && ErrorStatus(Timeout) == 504
    ensures ErrorStatus(OtherError) == 500
  {
  }
}
