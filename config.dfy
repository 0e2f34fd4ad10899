/**
 * Configuration records of the control plane and their field validators:
 * the server type enumeration, a non-empty launch command, the listening port
 * range, log-level normalisation and a non-empty token list, with the defaults
 * of every optional field, plus the two lookups over the configured servers.
 */
module Config {
  import opened Wrappers

  /** The accepted values of a managed server's `type` field. */
  const ServerTypes: set<string> := {"python", "npx", "uv"}

  /** The accepted log levels, in their normalised (upper-case) spelling. */
  const LogLevels: set<string> := {"DEBUG", "INFO", "WARNING", "ERROR", "CRITICAL"}

  const MaxPort := 65535

  /** A validated entry of `mcp_servers`. */
  datatype McpServerConfig = McpServerConfig(
    id: string,
    name: Option<string>,
    serverType: string,
    command: seq<string>,
    args: seq<string>,
    cwd: Option<string>,
    env: map<string, string>,
    timeout: int,
    restartOnFailure: bool,
    enabled: bool)

  /** An entry of `mcp_servers` as the loader supplies it: optional fields may be absent. */
  datatype RawMcpServerConfig = RawMcpServerConfig(
    id: string,
    name: Option<string>,
    serverType: string,
    command: seq<string>,
    args: Option<seq<string>>,
    cwd: Option<string>,
    env: Option<map<string, string>>,
    timeout: Option<int>,
    restartOnFailure: Option<bool>,
    enabled: Option<bool>)

  /** The control plane's own listener settings. */
  datatype ServerConfig = ServerConfig(
    host: string,
    port: int,
    workers: int,
    logLevel: string,
    corsOrigins: seq<string>)

  datatype RawServerConfig = RawServerConfig(
    host: Option<string>,
    port: Option<int>,
    workers: Option<int>,
    logLevel: Option<string>,
    corsOrigins: Option<seq<string>>)

  datatype ControlPlaneConfig = ControlPlaneConfig(
    server: ServerConfig,
    authTokens: seq<string>,
    mcpServers: seq<McpServerConfig>)

  datatype RawControlPlaneConfig = RawControlPlaneConfig(
    server: Option<RawServerConfig>,
    authTokens: seq<string>,
    mcpServers: Option<seq<RawMcpServerConfig>>)

  // ---------------------------------------------------------------- validators

  function CheckServerType(v: string): (r: Result<string, string>)
    ensures r.Success? <==> v in ServerTypes
    ensures r.Success? ==> r.value == v
  {
    if v in ServerTypes then Success(v) else Failure("Server type must be one of: python, npx, uv")
  }

  function CheckCommand(v: seq<string>): (r: Result<seq<string>, string>)
    ensures r.Success? <==> |v| > 0
    ensures r.Success? ==> r.value == v
  {
    if |v| == 0 then Failure("Command cannot be empty") else Success(v)
  }

  function CheckPort(v: int): (r: Result<int, string>)
    ensures r.Success? <==> 1 <= v <= MaxPort
    ensures r.Success? ==> r.value == v
  {
    if v < 1 || v > MaxPort then Failure("Port must be between 1 and 65535") else Success(v)
  }

  /** `str.upper()` on one character, for the ASCII letters. */
  function UpperChar(c: char): char {
    if 'a' <= c <= 'z' then ((c as int) - 32) as char else c
  }

  function Upper(s: string): (u: string)
    ensures |u| == |s|
    ensures forall i :: 0 <= i < |s| ==> u[i] == UpperChar(s[i])
  {
    seq(|s|, i requires 0 <= i < |s| => UpperChar(s[i]))
  }

  /** Accepts a log level in any letter case and stores it upper-cased. */
  function CheckLogLevel(v: string): (r: Result<string, string>)
    ensures r.Success? <==> Upper(v) in LogLevels
    ensures r.Success? ==> r.value in LogLevels && r.value == Upper(v)
  {
    if Upper(v) !in LogLevels then Failure("Invalid log level") else Success(Upper(v))
  }

  function CheckAuthTokens(v: seq<string>): (r: Result<seq<string>, string>)
    ensures r.Success? <==> |v| > 0
    ensures r.Success? ==> r.value == v
  {
    if |v| == 0 then Failure("At least one auth token must be provided") else Success(v)
  }

  /** The error messages a validator outcome contributes: none, or its one message. */
  function Errors<T>(r: Result<T, string>): seq<string> {
    if r.Failure? then [r.error] else []
  }

  // ------------------------------------------------------------- construction

  /**
   * Validates one managed-server entry and fills in its defaults; on failure
   * reports the message of every failing field, in field order.
   */
  function MakeMcpServerConfig(raw: RawMcpServerConfig): (r: Result<McpServerConfig, seq<string>>)
    ensures r.Success? <==> raw.serverType in ServerTypes && |raw.command| > 0
    ensures r.Failure? ==> 1 <= |r.error| <= 2
    ensures r.Success? ==>
      && r.value.id == raw.id && r.value.serverType == raw.serverType && r.value.command == raw.command
      && r.value.name == raw.name && r.value.cwd == raw.cwd
      && r.value.args == raw.args.GetOr([])
      && r.value.env == raw.env.GetOr(map[])
      && r.value.timeout == raw.timeout.GetOr(30)
      && r.value.restartOnFailure == raw.restartOnFailure.GetOr(true)
      && r.value.enabled == raw.enabled.GetOr(true)
  {
    var t := CheckServerType(raw.serverType);
    var c := CheckCommand(raw.command);
    if t.Success? && c.Success? then
      Success(McpServerConfig(
        raw.id, raw.name, t.value, c.value, raw.args.GetOr([]), raw.cwd, raw.env.GetOr(map[]),
        raw.timeout.GetOr(30), raw.restartOnFailure.GetOr(true), raw.enabled.GetOr(true)))
    else
      Failure(Errors(t) + Errors(c))
  }

  /** Validates the listener settings; defaults are taken as they are, without validation. */
  function MakeServerConfig(raw: RawServerConfig): (r: Result<ServerConfig, seq<string>>)
    ensures r.Success? <==>
      (raw.port.Some? ==> 1 <= raw.port.value <= MaxPort) &&
      (raw.logLevel.Some? ==> Upper(raw.logLevel.value) in LogLevels)
    ensures r.Failure? ==> 1 <= |r.error| <= 2
    ensures r.Success? ==>
      && r.value.host == raw.host.GetOr("0.0.0.0")
      && r.value.port == raw.port.GetOr(8443)
      && r.value.workers == raw.workers.GetOr(1)
      && r.value.logLevel in LogLevels
      && r.value.logLevel == (if raw.logLevel.Some? then Upper(raw.logLevel.value) else "INFO")
      && r.value.corsOrigins == raw.corsOrigins.GetOr([])
  {
    var p := if raw.port.Some? then CheckPort(raw.port.value) else Success(8443);
    var l := if raw.logLevel.Some? then CheckLogLevel(raw.logLevel.value) else Success("INFO");
    if p.Success? && l.Success? then
      Success(ServerConfig(raw.host.GetOr("0.0.0.0"), p.value, raw.workers.GetOr(1), l.value, raw.corsOrigins.GetOr([])))
    else
      Failure(Errors(p) + Errors(l))
  }

  /** The default listener settings, used when the `server` section is absent. */
  function DefaultServerConfig(): (c: ServerConfig)
    ensures c.host == "0.0.0.0" && c.port == 8443 && c.workers == 1 && c.logLevel == "INFO" && c.corsOrigins == []
    ensures c.logLevel in LogLevels && 1 <= c.port <= MaxPort
    ensures var empty := MakeServerConfig(RawServerConfig(None, None, None, None, None));
      empty.Success? && empty.value == c
  {
    ServerConfig("0.0.0.0", 8443, 1, "INFO", [])
  }

  /** Validates every entry of a raw server list, collecting all messages. */
  function MakeMcpServerConfigs(raws: seq<RawMcpServerConfig>): (r: Result<seq<McpServerConfig>, seq<string>>)
    ensures r.Success? <==> forall k :: 0 <= k < |raws| ==> MakeMcpServerConfig(raws[k]).Success?
    ensures r.Failure? ==> |r.error| >= 1
    ensures r.Success? ==> |r.value| == |raws|
    ensures r.Success? ==> forall k :: 0 <= k < |raws| ==> r.value[k] == MakeMcpServerConfig(raws[k]).value
  {
    if raws == [] then Success([])
    else
      var head := MakeMcpServerConfig(raws[0]);
      var tail := MakeMcpServerConfigs(raws[1..]);
      assert forall k :: 1 <= k < |raws| ==> raws[k] == raws[1..][k - 1];
      if head.Success? && tail.Success? then Success([head.value] + tail.value)
      else Failure((if head.Failure? then head.error else []) + (if tail.Failure? then tail.error else []))
  }

  /** Validates the whole configuration document. */
  function MakeControlPlaneConfig(raw: RawControlPlaneConfig): (r: Result<ControlPlaneConfig, seq<string>>)
    ensures r.Success? <==>
      && (raw.server.None? || MakeServerConfig(raw.server.value).Success?)
      && |raw.authTokens| > 0
      && (raw.mcpServers.None? || MakeMcpServerConfigs(raw.mcpServers.value).Success?)
    ensures r.Failure? ==> |r.error| >= 1
    ensures r.Success? ==> r.value.authTokens == raw.authTokens && |r.value.authTokens| > 0
    ensures r.Success? && raw.server.Some? ==> r.value.server == MakeServerConfig(raw.server.value).value
    ensures r.Success? && raw.mcpServers.Some? ==> r.value.mcpServers == MakeMcpServerConfigs(raw.mcpServers.value).value
    ensures r.Success? && raw.server.None? ==> r.value.server == DefaultServerConfig()
    ensures r.Success? && raw.mcpServers.None? ==> r.value.mcpServers == []
  {
    var s := if raw.server.Some? then MakeServerConfig(raw.server.value) else Success(DefaultServerConfig());
    var a := CheckAuthTokens(raw.authTokens);
    var m := if raw.mcpServers.Some? then MakeMcpServerConfigs(raw.mcpServers.value) else Success([]);
    if s.Success? && a.Success? && m.Success? then Success(ControlPlaneConfig(s.value, a.value, m.value))
    else Failure((if s.Failure? then s.error else []) + Errors(a) + (if m.Failure? then m.error else []))
  }

  // --------------------------------------------------------- normalisation laws

  /** Upper-casing is idempotent. */
  lemma UpperIdempotent(s: string)
    ensures Upper(Upper(s)) == Upper(s)
  {
  }

  /** The log-level check ignores letter case. */
  lemma LogLevelCaseInsensitive(v: string, w: string)
    requires Upper(v) == Upper(w)
    ensures CheckLogLevel(v) == CheckLogLevel(w)
  {
  }

  /** A normalised log level passes the check again unchanged. */
  lemma LogLevelNormalisationIdempotent(v: string)
    requires CheckLogLevel(v).Success?
    ensures CheckLogLevel(CheckLogLevel(v).value) == CheckLogLevel(v)
  {
    UpperIdempotent(v);
  }

  // ------------------------------------------------------------------ lookups

  /** The enabled servers, in configuration order (`get_enabled_servers`). */
  function EnabledServers(servers: seq<McpServerConfig>): (r: seq<McpServerConfig>)
    ensures forall s :: s in r <==> s in servers && s.enabled
    ensures |r| <= |servers|
  {
    if servers == [] then []
    else (if servers[0].enabled then [servers[0]] else []) + EnabledServers(servers[1..])
  }

  /** Filtering commutes with concatenation: the relative order of enabled servers is kept. */
  lemma {:induction false} EnabledServersAppend(a: seq<McpServerConfig>, b: seq<McpServerConfig>)
    ensures EnabledServers(a + b) == EnabledServers(a) + EnabledServers(b)
  {
    if a == [] {
      assert a + b == b;
    } else {
      assert (a + b)[1..] == a[1..] + b;
      EnabledServersAppend(a[1..], b);
    }
  }

  /** Filtering an already filtered list changes nothing. */
  lemma {:induction false} EnabledServersIdempotent(servers: seq<McpServerConfig>)
    ensures EnabledServers(EnabledServers(servers)) == EnabledServers(servers)
  {
    if servers != [] {
      var head := if servers[0].enabled then [servers[0]] else [];
      EnabledServersAppend(head, EnabledServers(servers[1..]));
      EnabledServersIdempotent(servers[1..]);
    }
  }

  /** The first configured server with the given id (`get_server_by_id`), or None. */
  function ServerById(servers: seq<McpServerConfig>, id: string): (r: Option<McpServerConfig>)
    ensures r.None? <==> forall k :: 0 <= k < |servers| ==> servers[k].id != id
    ensures r.Some? ==> exists k :: 0 <= k < |servers| && servers[k] == r.value && r.value.id == id &&
                                  forall j :: 0 <= j < k ==> servers[j].id != id
  {
    if servers == [] then None
    else if servers[0].id == id then Some(servers[0])
    else
      var r := ServerById(servers[1..], id);
      assert r.Some? ==> exists k :: 1 <= k < |servers| && servers[k] == r.value && r.value.id == id &&
                                   forall j :: 0 <= j < k ==> servers[j].id != id by {
        if r.Some? {
          var k' :| 0 <= k' < |servers[1..]| && servers[1..][k'] == r.value && r.value.id == id &&
                    forall j :: 0 <= j < k' ==> servers[1..][j].id != id;
          assert servers[k' + 1] == r.value;
          assert forall j :: 0 <= j < k' + 1 ==> servers[j].id != id by {
            forall j | 0 <= j < k' + 1 ensures servers[j].id != id {
              if j > 0 { assert servers[j] == servers[1..][j - 1]; }
            }
          }
        }
      }
      r
  }
}
