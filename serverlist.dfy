/**
 * The list of configured servers shown in the UI (ServerListModel): one
 * entry per (type, port) pair, with its status and connection count, and
 * the pure helpers that decide what the UI may offer for a status.
 */
module ServerList {

  import opened AppEnums
  import opened Options
  import opened Text

  /** One server row: the fields addServer writes. */
  datatype ServerEntry = ServerEntry(
    serverType: ServerType,
    typeStr: string,
    port: Port,
    status: ServerStatus,
    connections: int)

  predicate Matches(e: ServerEntry, t: ServerType, port: Port)
  {
    e.port == port && e.serverType == t
  }

  /** Some entry has this (type, port). */
  predicate ServerIn(servers: seq<ServerEntry>, t: ServerType, port: Port)
  {
    exists i :: 0 <= i < |servers| && Matches(servers[i], t, port)
  }

  /** No two entries share (type, port). */
  predicate UniqueServers(servers: seq<ServerEntry>)
  {
    forall i, j :: 0 <= i < j < |servers| ==> !Matches(servers[j], servers[i].serverType, servers[i].port)
  }

  /** The index of the first entry with this (type, port), or -1. */
  function FirstMatch(servers: seq<ServerEntry>, t: ServerType, port: Port): (r: int)
    ensures -1 <= r < |servers|
    ensures r >= 0 ==> Matches(servers[r], t, port)
    ensures forall i :: 0 <= i < |servers| && (r == -1 || i < r) ==> !Matches(servers[i], t, port)
  {
    if servers == [] then -1
    else if Matches(servers[0], t, port) then 0
    else
      var r := FirstMatch(servers[1..], t, port);
      assert forall i :: 0 < i < |servers| ==> servers[i] == servers[1..][i - 1];
      if r == -1 then -1 else r + 1
  }

  /** isPortValid: at least 1024; the upper bound 65535 always holds for a quint16. */
  function IsPortValid(port: Port): (r: bool)
    ensures r <==> port >= 1024
  {
    port >= 1024 && port <= 65535
  }

  const ConnectionsWord: string := " подключений)"

  /** formatStatusText: the status name, with the connection count only for a running server that has some. */
  function FormatStatusText(status: ServerStatus, connections: int): (r: string)
    ensures |ServerStatusToString(status)| <= |r| && r[..|ServerStatusToString(status)|] == ServerStatusToString(status)
    ensures r == ServerStatusToString(status) <==> !(status == RUNNING && connections > 0)
  {
    var statusStr := ServerStatusToString(status);
    if status == RUNNING && connections > 0 then statusStr + " (" + IntToString(connections) + ConnectionsWord
    else statusStr
  }

  /**
   * For a running server with connections the text is the status name, " (",
   * the count's decimal digits and the closing word, and the digits read
   * back as the count.
   */
  lemma StatusTextShowsCount(status: ServerStatus, connections: int)
    requires status == RUNNING && 0 < connections <= IntMax
    ensures var r := FormatStatusText(status, connections);
      var p := |ServerStatusToString(status)| + 2;
      var q := |r| - |ConnectionsWord|;
      && p <= q
      && r[..p] == ServerStatusToString(status) + " ("
      && r[q..] == ConnectionsWord
      && ParseInt(r[p..q]) == Some(connections)
  {
    var s := ServerStatusToString(status);
    var digits := NatToString(connections);
    var r := FormatStatusText(status, connections);
    assert r == (s + " (") + digits + ConnectionsWord;
    assert r[|s| + 2..|r| - |ConnectionsWord|] == digits;
    ParseFormatRoundTrip(connections);
  }

  /** getStatusColor: green when running, red on error, grey otherwise. */
  function GetStatusColor(status: ServerStatus): (r: string)
    ensures r == "#4CAF50" <==> status == RUNNING
    ensures r == "#f44336" <==> status == ERROR
    ensures r == "#607D8B" <==> status == STOPPED
  {
    match status
    case RUNNING => "#4CAF50"
    case ERROR => "#f44336"
    case STOPPED => "#607D8B"
  }

  /** canPerformAction: which of "delete", "start" and "stop" the UI may offer. */
  function CanPerformAction(status: ServerStatus, action: string): bool
  {
    if action == "delete" then status != RUNNING
    else if action == "start" then status == STOPPED
    else if action == "stop" then status == RUNNING
    else false
  }

  /**
   * A server can never be both started and stopped, a startable server is
   * deletable, a running one is not, and an unknown action is never allowed.
   */
  lemma ActionsConsistent(status: ServerStatus, action: string)
    ensures CanPerformAction(status, "start") <==> status == STOPPED
    ensures CanPerformAction(status, "stop") <==> status == RUNNING
    ensures CanPerformAction(status, "delete") <==> !CanPerformAction(status, "stop")
    ensures !(CanPerformAction(status, "start") && CanPerformAction(status, "stop"))
    ensures action != "delete" && action != "start" && action != "stop" ==> !CanPerformAction(status, action)
  {
  }

  class ServerListModel {

    var servers: seq<ServerEntry>

    constructor ()
      ensures servers == []
    {
      servers := [];
    }

    /** isServerExists: a scan for an entry with this (type, port). */
    method IsServerExists(t: ServerType, port: Port) returns (r: bool)
      ensures r <==> ServerIn(servers, t, port)
    {
      var i := 0;
      while i < |servers|
        invariant 0 <= i <= |servers|
        invariant forall j :: 0 <= j < i ==> !Matches(servers[j], t, port)
      {
        if servers[i].port == port && servers[i].serverType == t {
          return true;
        }
        i := i + 1;
      }
      return false;
    }

    /** canAddServer: a valid port not yet taken by a server of this type. */
    method CanAddServer(t: ServerType, port: Port) returns (r: bool)
      ensures r <==> IsPortValid(port) && !ServerIn(servers, t, port)
    {
      if !IsPortValid(port) {
        return false;
      }
      var taken := IsServerExists(t, port);
      return !taken;
    }

    /**
     * addServer: refuses an invalid port or a taken (type, port); otherwise
     * appends a stopped entry with no connections. Keeps (type, port) unique.
     */
    method AddServer(t: ServerType, port: Port) returns (added: bool)
      modifies this
      ensures added <==> IsPortValid(port) && !ServerIn(old(servers), t, port)
      ensures added ==> servers == old(servers) + [ServerEntry(t, TypeToString(t), port, STOPPED, 0)]
      ensures !added ==> servers == old(servers)
      ensures UniqueServers(old(servers)) ==> UniqueServers(servers)
    {
      var ok := CanAddServer(t, port);
      if !ok {
        return false;
      }
      servers := servers + [ServerEntry(t, TypeToString(t), port, STOPPED, 0)];
      return true;
    }

    /** removeServer: removes the first entry with this (type, port), if any. */
    method RemoveServer(t: ServerType, port: Port)
      modifies this
      ensures FirstMatch(old(servers), t, port) == -1 ==> servers == old(servers)
      ensures var k := FirstMatch(old(servers), t, port);
        k >= 0 ==> servers == old(servers)[..k] + old(servers)[k + 1..]
      ensures UniqueServers(old(servers)) ==> UniqueServers(servers) && !ServerIn(servers, t, port)
    {
      var i := 0;
      while i < |servers|
        invariant 0 <= i <= |servers| && servers == old(servers)
        invariant forall j :: 0 <= j < i ==> !Matches(servers[j], t, port)
      {
        if servers[i].port == port && servers[i].serverType == t {
          FirstMatchAt(servers, t, port, i);
          RemovalKeepsUnique(servers, i);
          servers := servers[..i] + servers[i + 1..];
          return;
        }
        i := i + 1;
      }
      FirstMatchAt(servers, t, port, i);
    }

    /** updateServerStatus: sets status and connections of the first entry with this (type, port), if any. */
    method UpdateServerStatus(t: ServerType, port: Port, status: ServerStatus, connections: int)
      modifies this
      ensures FirstMatch(old(servers), t, port) == -1 ==> servers == old(servers)
      ensures var k := FirstMatch(old(servers), t, port);
        k >= 0 ==> servers == old(servers)[k := old(servers)[k].(status := status, connections := connections)]
      ensures UniqueServers(old(servers)) ==> UniqueServers(servers)
    {
      var i := 0;
      while i < |servers|
        invariant 0 <= i <= |servers| && servers == old(servers)
        invariant forall j :: 0 <= j < i ==> !Matches(servers[j], t, port)
      {
        if servers[i].port == port && servers[i].serverType == t {
          FirstMatchAt(servers, t, port, i);
          servers := servers[i := servers[i].(status := status, connections := connections)];
          return;
        }
        i := i + 1;
      }
      FirstMatchAt(servers, t, port, i);
    }
  }

  /** A scan that found its first match at i, or none before the end, agrees with FirstMatch. */
  lemma FirstMatchAt(s: seq<ServerEntry>, t: ServerType, port: Port, i: nat)
    requires i <= |s|
    requires forall j :: 0 <= j < i ==> !Matches(s[j], t, port)
    requires i < |s| ==> Matches(s[i], t, port)
    ensures FirstMatch(s, t, port) == (if i == |s| then -1 else i)
  {
  }

  /** Removing the first match from a unique list leaves a unique list without that (type, port). */
  lemma RemovalKeepsUnique(s: seq<ServerEntry>, k: nat)
    requires k < |s|
    ensures UniqueServers(s) ==> UniqueServers(s[..k] + s[k + 1..])
    ensures UniqueServers(s) ==> !ServerIn(s[..k] + s[k + 1..], s[k].serverType, s[k].port)
  {
    var r := s[..k] + s[k + 1..];
    assert forall i :: 0 <= i < |r| ==> r[i] == s[if i < k then i else i + 1];
  }
}
