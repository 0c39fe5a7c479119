/**
 * `connect_predefined_mcp_servers`: every environment variable `MCP_SERVER_<ANY>`
 * holds `NAME@URL` of a server to connect at chat start.
 */
module ServerConfig {
  import opened Wrappers
  import opened Strings
  import opened Sequences

  const SERVER_PREFIX: string := "MCP_SERVER_"

  datatype ServerSpec = ServerSpec(name: string, url: string)

  /**
   * The servers whose connection is attempted, in environment order, and the key
   * whose value did not split into two parts, which ends the scan with a `ValueError`.
   */
  datatype EnvScan = EnvScan(servers: seq<ServerSpec>, malformedKey: Option<string>)

  /** `name, url = name_and_url.split("@")`: exactly one `@`, or the unpacking raises. */
  function SplitNameAndUrl(value: string): Option<ServerSpec> {
    var parts := Split(value, '@');
    if |parts| == 2 then Some(ServerSpec(parts[0], parts[1])) else None
  }

  lemma NameAndUrlRoundTrip(name: string, url: string)
    requires '@' !in name && '@' !in url
    ensures SplitNameAndUrl(name + "@" + url) == Some(ServerSpec(name, url))
  {
    assert name + "@" + url == name + ['@'] + url;
    SplitAtFirstSeparator(name, url, '@');
    SplitWithoutSeparator(url, '@');
  }

  lemma SplitNameAndUrlSound(value: string)
    requires SplitNameAndUrl(value).Some?
    ensures var s := SplitNameAndUrl(value).value;
      value == s.name + "@" + s.url && '@' !in s.name && '@' !in s.url
  {
    var parts := Split(value, '@');
    SplitJoin(value, '@');
    assert Join(parts, '@') == parts[0] + ['@'] + Join(parts[1..], '@');
    assert parts[1..] == [parts[1]];
  }

  /** The environment entries whose key starts with `MCP_SERVER_`, in environment order. */
  function ServerEntries(env: seq<(string, string)>): (r: seq<(string, string)>)
    ensures forall k :: 0 <= k < |r| ==> StartsWith(r[k].0, SERVER_PREFIX) && r[k] in env
    ensures forall e :: e in env && StartsWith(e.0, SERVER_PREFIX) ==> e in r
  {
    if env == [] then []
    else if StartsWith(env[0].0, SERVER_PREFIX) then [env[0]] + ServerEntries(env[1..])
    else ServerEntries(env[1..])
  }

  lemma {:induction false} ServerEntriesKeepOrder(env: seq<(string, string)>)
    ensures IsSubsequence(ServerEntries(env), env)
  {
    if env != [] {
      ServerEntriesKeepOrder(env[1..]);
      if StartsWith(env[0].0, SERVER_PREFIX) {
        assert ServerEntries(env)[1..] == ServerEntries(env[1..]);
      }
    }
  }

  /**
   * The loop over `os.environ.items()`: the servers are the splits of the
   * `MCP_SERVER_` entries up to the first value that does not split; that entry's
   * key is reported and the scan ends there.
   */
  function PredefinedServers(env: seq<(string, string)>): (r: EnvScan)
    ensures var entries := ServerEntries(env);
      && |r.servers| <= |entries|
      && (forall k :: 0 <= k < |r.servers| ==> SplitNameAndUrl(entries[k].1) == Some(r.servers[k]))
      && (r.malformedKey.None? ==> |r.servers| == |entries|)
      && (r.malformedKey.Some? ==>
            && |r.servers| < |entries|
            && entries[|r.servers|].0 == r.malformedKey.value
            && SplitNameAndUrl(entries[|r.servers|].1).None?)
  {
    if env == [] then EnvScan([], None)
    else
      var (key, value) := env[0];
      var rest := PredefinedServers(env[1..]);
      if !StartsWith(key, SERVER_PREFIX) then rest
      else match SplitNameAndUrl(value)
        case None => EnvScan([], Some(key))
        case Some(s) =>
          assert ServerEntries(env) == [env[0]] + ServerEntries(env[1..]);
          EnvScan([s] + rest.servers, rest.malformedKey)
  }

  /** With every `MCP_SERVER_` value well formed, every such entry is connected, in order, and nothing fails. */
  lemma WellFormedServersAllConnected(env: seq<(string, string)>)
    requires forall e :: e in env && StartsWith(e.0, SERVER_PREFIX) ==> SplitNameAndUrl(e.1).Some?
    ensures var r := PredefinedServers(env);
      && r.malformedKey.None?
      && |r.servers| == |ServerEntries(env)|
      && forall k :: 0 <= k < |r.servers| ==> SplitNameAndUrl(ServerEntries(env)[k].1) == Some(r.servers[k])
  {
  }
}
