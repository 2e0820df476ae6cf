/** The server side of the client (the vendored cloud66 package's server.go):
    the health label and role test of a server, the request that writes a
    server setting, the request that fetches one server, and the extraction
    of its private key. */
module Servers {
  import opened Wrappers
  import opened Requests
  import Stacks
  import Strings

  const PrivateKeyMissing := "SshPrivateKey not returned by server"

  /** A server as the server API returns it; the timestamps, the untyped
      `params` and the notification map are not modelled. */
  datatype Server = Server(
    uid: string,
    vendorUid: string,
    name: string,
    address: string,
    distro: string,
    distroVersion: string,
    dnsRecord: string,
    serverType: string,
    serverGroupId: int,
    roles: seq<string>,
    stackUid: string,
    hasAgent: bool,
    region: string,
    availabilityZone: string,
    extIpV4: string,
    healthCode: int,
    userName: string,
    personalKey: bool,
    sshPrivateKey: Option<string>)
  {
    /** The health label: a table entry for codes 0 to 4, "" otherwise. */
    function Health(): (r: string)
      ensures r != "" <==> 0 <= healthCode <= 4
      ensures 0 <= healthCode <= 4 ==> r == Stacks.HealthStatus[healthCode]
    {
      Stacks.HealthLabel(healthCode)
    }

    /** Whether some role is exactly `searchRole`: whole string, case kept. */
    function HasRole(searchRole: string): (b: bool)
      ensures b <==> exists i :: 0 <= i < |roles| && roles[i] == searchRole
      ensures roles == [] ==> !b
    {
      ScanRoles(roles, searchRole)
    }
  }

  /** The scan behind `HasRole`: true at the first equal role, false when
      the list runs out. */
  function ScanRoles(roles: seq<string>, searchRole: string): (b: bool)
    ensures b <==> searchRole in roles
  {
    if roles == [] then false
    else if roles[0] == searchRole then true
    else ScanRoles(roles[1..], searchRole)
  }

  /** The role test neither folds case nor matches a part of a role. */
  lemma HasRoleIsExact(s: Server)
    requires s.roles == ["web", "db"]
    ensures s.HasRole("web") && s.HasRole("db")
    ensures !s.HasRole("Web") && !s.HasRole("we") && !s.HasRole("webdb")
  {
  }

  /** `GetServer`: GET one server, asking for its private key when
      `includeSshKey` is 1. */
  function GetServer(stackUid: string, serverUid: string, includeSshKey: int): (r: Request)
    ensures r.verb == GET
    ensures r.path == "/stacks/" + stackUid + "/servers/" + serverUid + ".json"
    ensures r.body == IncludeKeyBody(includeSshKey)
  {
    Request(GET, "/stacks/" + stackUid + "/servers/" + serverUid + ".json", IncludeKeyBody(includeSshKey))
  }

  /** `ServerKeyInformation`: fetch the server with its private key and return
      the key; a failed fetch is returned as is, and a reply without a key is
      an error. `fetch` gives the server's reply to a request. */
  function ServerKeyInformation(stackUid: string, serverUid: string, fetch: Request -> Result<Server>): (r: Result<string>)
    ensures var reply := fetch(GetServer(stackUid, serverUid, 1));
      && (reply.Err? ==> r == Err(reply.error))
      && (reply.Ok? && reply.value.sshPrivateKey.None? ==> r == Err(PrivateKeyMissing))
      && (reply.Ok? && reply.value.sshPrivateKey.Some? ==> r == Ok(reply.value.sshPrivateKey.value))
  {
    match fetch(GetServer(stackUid, serverUid, 1))
    case Err(e) => Err(e)
    case Ok(server) =>
      if server.sshPrivateKey == None then Err(PrivateKeyMissing)
      else Ok(server.sshPrivateKey.value)
  }

  /** `ServerSet`: PUT a server setting; the key's dots become dashes. */
  function ServerSet(stackUid: string, serverUid: string, key: string, value: string): (r: Request)
    ensures r.verb == PUT && r.body == ValueBody(value)
    ensures r.path == "/stacks/" + stackUid + "/servers/" + serverUid + "/settings/" + Stacks.SettingKey(key) + ".json"
  {
    Request(PUT, "/stacks/" + stackUid + "/servers/" + serverUid + "/settings/" + Stacks.SettingKey(key) + ".json",
            ValueBody(value))
  }

  /** Two setting writes on one server hit the same path exactly when their
      keys agree once dots are turned into dashes. */
  lemma ServerSetSamePath(stackUid: string, serverUid: string, key1: string, key2: string, value1: string, value2: string)
    ensures ServerSet(stackUid, serverUid, key1, value1).path == ServerSet(stackUid, serverUid, key2, value2).path
        <==> Stacks.SettingKey(key1) == Stacks.SettingKey(key2)
  {
    if ServerSet(stackUid, serverUid, key1, value1).path == ServerSet(stackUid, serverUid, key2, value2).path {
      Strings.ConcatCancel("/stacks/" + stackUid + "/servers/" + serverUid + "/settings/",
                           Stacks.SettingKey(key1), Stacks.SettingKey(key2), ".json");
    }
  }
}
