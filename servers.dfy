/**
 * Looking up a `<server>` entry of the Maven settings by its id
 * (`AzuratorGitDeployMojo.getServer(Settings, String)`).
 */
module ServerLookup {

  import opened Optional

  /** A `<server>` entry: its id, user name and password, each of which may be null. */
  datatype Server = Server(id: Option<string>, username: Option<string>, password: Option<string>)

  /** The Maven settings; `servers` is None when the settings hold a null server list. */
  datatype Settings = Settings(servers: Option<seq<Server>>)

  /** `serverId.equals(server.getId())`: false when the server's id is null. */
  predicate HasId(server: Server, serverId: string)
  {
    server.id == Some(serverId)
  }

  /** The first server of `servers`, in list order, whose id is `serverId`. */
  function FirstWithId(servers: seq<Server>, serverId: string): (found: Option<Server>)
    ensures found.Some? ==> found.value in servers && HasId(found.value, serverId)
  {
    if servers == [] then None
    else if HasId(servers[0], serverId) then Some(servers[0])
    else FirstWithId(servers[1..], serverId)
  }

  /** The whole lookup: null settings and a null or empty server list give no server. */
  function Lookup(settings: Option<Settings>, serverId: string): Option<Server>
  {
    match settings
    case None => None
    case Some(s) =>
      match s.servers
      case None => None
      case Some(list) => if list == [] then None else FirstWithId(list, serverId)
  }

  /** Index `i` holds the first server of the list whose id is `serverId`. */
  ghost predicate IsFirstMatch(servers: seq<Server>, serverId: string, i: int)
  {
    0 <= i < |servers| && HasId(servers[i], serverId) &&
    forall j :: 0 <= j < i ==> !HasId(servers[j], serverId)
  }

  /** A server found is the one at the first matching index: first match wins. */
  lemma {:induction false} FirstWithIdIsFirstMatch(servers: seq<Server>, serverId: string)
    ensures FirstWithId(servers, serverId).Some? ==>
      exists i :: IsFirstMatch(servers, serverId, i) && servers[i] == FirstWithId(servers, serverId).value
  {
    if servers != [] && !HasId(servers[0], serverId) {
      FirstWithIdIsFirstMatch(servers[1..], serverId);
      if FirstWithId(servers[1..], serverId).Some? {
        var i :| IsFirstMatch(servers[1..], serverId, i) && servers[1..][i] == FirstWithId(servers[1..], serverId).value;
        assert IsFirstMatch(servers, serverId, i + 1);
      }
    } else if servers != [] {
      assert IsFirstMatch(servers, serverId, 0);
    }
  }

  /** Conversely, the server at the first matching index is the one found. */
  lemma {:induction false} FirstMatchIsFound(servers: seq<Server>, serverId: string, i: int)
    requires IsFirstMatch(servers, serverId, i)
    ensures FirstWithId(servers, serverId) == Some(servers[i])
  {
    if i > 0 {
      assert !HasId(servers[0], serverId);
      assert IsFirstMatch(servers[1..], serverId, i - 1);
      FirstMatchIsFound(servers[1..], serverId, i - 1);
    }
  }

  /** No server is found exactly when no server in the list has the id. */
  lemma {:induction false} FirstWithIdNoneIff(servers: seq<Server>, serverId: string)
    ensures FirstWithId(servers, serverId).None? <==> forall s :: s in servers ==> !HasId(s, serverId)
  {
    if servers != [] {
      FirstWithIdNoneIff(servers[1..], serverId);
      assert forall s :: s in servers <==> s == servers[0] || s in servers[1..];
    }
  }

  /** The lookup's null cases, and its first-match and no-match characterisation. */
  lemma LookupProperties(settings: Option<Settings>, serverId: string)
    ensures settings.None? ==> Lookup(settings, serverId).None?
    ensures settings.Some? && (settings.value.servers.None? || settings.value.servers.value == []) ==>
      Lookup(settings, serverId).None?
    ensures settings.Some? && settings.value.servers.Some? ==>
      var list := settings.value.servers.value;
      (Lookup(settings, serverId).None? <==> forall s :: s in list ==> !HasId(s, serverId)) &&
      (Lookup(settings, serverId).Some? ==>
        exists i :: IsFirstMatch(list, serverId, i) && list[i] == Lookup(settings, serverId).value)
  {
    if settings.Some? && settings.value.servers.Some? {
      FirstWithIdNoneIff(settings.value.servers.value, serverId);
      FirstWithIdIsFirstMatch(settings.value.servers.value, serverId);
    }
  }

  /** The search loop of `getServer`, with its early returns. */
  method GetServer(settings: Option<Settings>, serverId: string) returns (found: Option<Server>)
    ensures found == Lookup(settings, serverId)
  {
    if settings.None? {
      return None;
    }
    var servers := settings.value.servers;
    if servers.None? || servers.value == [] {
      return None;
    }
    var list := servers.value;
    var i := 0;
    while i < |list|
      invariant 0 <= i <= |list|
      invariant FirstWithId(list[i..], serverId) == FirstWithId(list, serverId)
    {
      if HasId(list[i], serverId) {
        return Some(list[i]);
      }
      assert list[i..][1..] == list[i + 1..];
      i := i + 1;
    }
    return None;
  }
}
