/** The stack side of the client (cloud66/stack.go): the status and health
    label tables, the filter over the stack list, the look-up of a stack by
    name and environment, and the requests that write settings and
    environment variables, lease firewall access and fetch one stack. */
module Stacks {
  import opened Wrappers
  import opened Requests
  import Strings

  /** Labels of the stack status codes (STK_QUEUED .. STK_TERMINAL_FAILURE). */
  const StackStatus: map<int, string> := map[
    0 := "Pending analysis",
    1 := "Deployed successfully",
    2 := "Deployment failed",
    3 := "Analyzing",
    4 := "Analyzed",
    5 := "Queued for deployment",
    6 := "Deploying",
    7 := "Unable to analyze"]

  /** Labels of the health codes (HLT_UNKNOWN .. HLT_BROKEN). */
  const HealthStatus: map<int, string> := map[
    0 := "Unknown",
    1 := "Building",
    2 := "Impaired",
    3 := "Healthy",
    4 := "Failed"]

  const StackNotFound := "Stack not found"

  /** Firewall lease defaults: any source address, 20 (the `ttl` field), port 22. */
  const DefaultIpAddress := "AUTO"
  const DefaultTimeToOpen := 20
  const DefaultPort := 22

  /** Indexing a Go `map[int]string`: a missing key reads as the zero value "". */
  function Label(table: map<int, string>, code: int): (r: string) {
    if code in table then table[code] else ""
  }

  /** The label for a health code, shared by stacks and servers. */
  function HealthLabel(code: int): (r: string)
    ensures r != "" <==> 0 <= code <= 4
    ensures 0 <= code <= 4 ==> r == HealthStatus[code]
  {
    Label(HealthStatus, code)
  }

  /** A stack as the server returns it; the timestamps are not modelled. */
  datatype Stack = Stack(
    uid: string,
    name: string,
    git: string,
    gitBranch: string,
    environment: string,
    cloud: string,
    fqdn: string,
    language: string,
    framework: string,
    statusCode: int,
    healthCode: int,
    maintenanceMode: bool,
    hasLoadBalancer: bool,
    redeployHook: Option<string>,
    deployDir: string)
  {
    /** The status label: one of the eight table entries for codes 0 to 7,
        the empty string for every other code. */
    function Status(): (r: string)
      ensures r != "" <==> 0 <= statusCode <= 7
      ensures 0 <= statusCode <= 7 ==> r == StackStatus[statusCode]
    {
      Label(StackStatus, statusCode)
    }

    /** The health label: a table entry for codes 0 to 4, "" otherwise. */
    function Health(): (r: string)
      ensures r != "" <==> 0 <= healthCode <= 4
      ensures 0 <= healthCode <= 4 ==> r == HealthStatus[healthCode]
    {
      HealthLabel(healthCode)
    }
  }

  /** Different codes in range carry different labels, so a label names its code. */
  lemma StatusLabelsDistinct(s: Stack, t: Stack)
    requires s.Status() != "" && s.Status() == t.Status()
    ensures s.statusCode == t.statusCode
  {
  }

  lemma HealthLabelsDistinct(c: int, d: int)
    requires HealthLabel(c) != "" && HealthLabel(c) == HealthLabel(d)
    ensures c == d
  {
  }

  // ---------------------------------------------------------------------
  // Filtering the stack list

  /** The stacks of `stacks` that `keep` accepts, in their original order
      (defined from the end, the way the loop appends). */
  function Filtered(stacks: seq<Stack>, keep: Stack -> bool): (r: seq<Stack>)
    ensures |r| <= |stacks|
    ensures forall x :: x in r ==> x in stacks && keep(x)
    ensures forall x :: x in stacks && keep(x) ==> x in r
  {
    if stacks == [] then []
    else
      var last := stacks[|stacks| - 1];
      Filtered(stacks[..|stacks| - 1], keep) + (if keep(last) then [last] else [])
  }

  /** Filtering distributes over concatenation: together with the one-element
      case this says the result keeps the input's relative order. */
  lemma {:induction false} FilteredConcat(a: seq<Stack>, b: seq<Stack>, keep: Stack -> bool)
    ensures Filtered(a + b, keep) == Filtered(a, keep) + Filtered(b, keep)
  {
    if b == [] {
      assert a + b == a;
    } else {
      var init := b[..|b| - 1];
      assert (a + b)[..|a + b| - 1] == a + init;
      FilteredConcat(a, init, keep);
    }
  }

  /** Each stack occurs in the result as often as in the input when `keep`
      accepts it, and not at all otherwise. */
  lemma {:induction false} FilteredCount(stacks: seq<Stack>, keep: Stack -> bool, x: Stack)
    ensures multiset(Filtered(stacks, keep))[x] == if keep(x) then multiset(stacks)[x] else 0
  {
    if stacks != [] {
      var init := stacks[..|stacks| - 1];
      assert stacks == init + [stacks[|stacks| - 1]];
      FilteredCount(init, keep, x);
    }
  }

  /** Filtering an already filtered list changes nothing. */
  lemma {:induction false} FilteredIdempotent(stacks: seq<Stack>, keep: Stack -> bool)
    ensures Filtered(Filtered(stacks, keep), keep) == Filtered(stacks, keep)
  {
    if stacks != [] {
      var init := stacks[..|stacks| - 1];
      var last := stacks[|stacks| - 1];
      FilteredIdempotent(init, keep);
      FilteredConcat(Filtered(init, keep), if keep(last) then [last] else [], keep);
      assert Filtered([last], keep) == (if keep(last) then [last] else []) by {
        assert [last][..0] == [];
      }
    }
  }

  /** The request that lists the account's stacks. */
  function StackListRequest(): (r: Request)
    ensures r.verb == GET && r.path == "/stacks.json" && r.body == NoBody
  {
    Request(GET, "/stacks.json", NoBody)
  }

  /** `StackListWithFilter`: list the stacks, `fetch` giving the server's
      reply to `StackListRequest()`; a failed reply is returned as is,
      otherwise the stacks `filter` accepts, appended one by one in list
      order. */
  method StackListWithFilter(fetch: Request -> Result<seq<Stack>>, filter: Stack -> bool)
    returns (r: Result<seq<Stack>>)
    ensures fetch(StackListRequest()).Err? ==> r == Err(fetch(StackListRequest()).error)
    ensures fetch(StackListRequest()).Ok? ==> r == Ok(Filtered(fetch(StackListRequest()).value, filter))
  {
    var reply := fetch(StackListRequest());
    if reply.Err? {
      return Err(reply.error);
    }
    var stacksRes := reply.value;
    var result: seq<Stack> := [];
    var i := 0;
    while i < |stacksRes|
      invariant 0 <= i <= |stacksRes|
      invariant result == Filtered(stacksRes[..i], filter)
    {
      var item := stacksRes[i];
      assert stacksRes[..i + 1][..i] == stacksRes[..i];
      if filter(item) {
        result := result + [item];
      }
      i := i + 1;
    }
    assert stacksRes[..i] == stacksRes;
    return Ok(result);
  }

  // ---------------------------------------------------------------------
  // Finding a stack by name

  /** The name matches ignoring case; an empty environment matches any
      environment, any other must be equal exactly. */
  predicate Matches(b: Stack, stackName: string, environment: string) {
    Strings.ToLower(b.name) == Strings.ToLower(stackName)
    && (environment == "" || environment == b.environment)
  }

  /** The position of the first stack that matches, if there is one. */
  function FirstMatch(stacks: seq<Stack>, stackName: string, environment: string): (r: Option<nat>)
    ensures r.Some? ==> r.value < |stacks| && Matches(stacks[r.value], stackName, environment)
    ensures r.Some? ==> forall j :: 0 <= j < r.value ==> !Matches(stacks[j], stackName, environment)
    ensures r.None? <==> forall j :: 0 <= j < |stacks| ==> !Matches(stacks[j], stackName, environment)
  {
    if stacks == [] then None
    else if Matches(stacks[0], stackName, environment) then Some(0)
    else
      match FirstMatch(stacks[1..], stackName, environment)
      case None => None
      case Some(k) => Some(k + 1)
  }

  /** `FindStackByName`. `stacks` and `listErr` are the two results of
      `StackList`, which sends `StackListRequest()` and can return whatever
      was decoded beside an error; the loop scans them regardless. The first
      match is returned together with that error, and
      when nothing matches (the empty list included) the result is nil with
      "Stack not found", whatever the listing error was. */
  method FindStackByName(stacks: seq<Stack>, listErr: Option<string>, stackName: string, environment: string)
    returns (found: Option<Stack>, err: Option<string>)
    ensures FirstMatch(stacks, stackName, environment).None? ==>
      found == None && err == Some(StackNotFound)
    ensures FirstMatch(stacks, stackName, environment).Some? ==>
      found == Some(stacks[FirstMatch(stacks, stackName, environment).value]) && err == listErr
  {
    var i := 0;
    while i < |stacks|
      invariant 0 <= i <= |stacks|
      invariant forall j :: 0 <= j < i ==> !Matches(stacks[j], stackName, environment)
    {
      var b := stacks[i];
      if Strings.ToLower(b.name) == Strings.ToLower(stackName) && (environment == "" || environment == b.environment) {
        return Some(b), listErr;
      }
      i := i + 1;
    }
    return None, Some(StackNotFound);
  }

  /** The name comparison ignores case: names with the same lower-case form
      select the same stack. */
  lemma FirstMatchIgnoresNameCase(stacks: seq<Stack>, name1: string, name2: string, environment: string)
    requires Strings.ToLower(name1) == Strings.ToLower(name2)
    ensures FirstMatch(stacks, name1, environment) == FirstMatch(stacks, name2, environment)
  {
  }

  /** Naming an environment only narrows the search: if no stack has the
      name, none has it in a given environment either, and a stack found in
      an environment lies at or after the first stack with that name. */
  lemma EnvironmentNarrows(stacks: seq<Stack>, stackName: string, environment: string)
    ensures FirstMatch(stacks, stackName, "").None? ==> FirstMatch(stacks, stackName, environment).None?
    ensures FirstMatch(stacks, stackName, environment).Some? ==>
      FirstMatch(stacks, stackName, "").Some? &&
      FirstMatch(stacks, stackName, "").value <= FirstMatch(stacks, stackName, environment).value
  {
  }

  /** The environment comparison is exact: "Production" does not select a
      stack in "production", while the name "APP" selects "app". */
  lemma EnvironmentIsCaseSensitive(s: Stack)
    requires s.name == "app" && s.environment == "production"
    ensures FirstMatch([s], "APP", "production") == Some(0)
    ensures FirstMatch([s], "APP", "Production") == None
  {
  }

  // ---------------------------------------------------------------------
  // Fetching one stack

  /** The request that fetches one stack by its uid. */
  function StackInfoRequest(uid: string): (r: Request)
    ensures r.verb == GET && r.path == "/stacks/" + uid + ".json" && r.body == NoBody
  {
    Request(GET, "/stacks/" + uid + ".json", NoBody)
  }

  /** `StackInfoWithEnvironment`: resolve the stack, then fetch it by uid.
      `fetch` gives the server's reply to a request. */
  method StackInfoWithEnvironment(stacks: seq<Stack>, listErr: Option<string>, stackName: string,
                                  environment: string, fetch: Request -> Result<Stack>)
    returns (r: Result<Stack>)
    ensures FirstMatch(stacks, stackName, environment).None? ==> r == Err(StackNotFound)
    ensures FirstMatch(stacks, stackName, environment).Some? && listErr.Some? ==> r == Err(listErr.value)
    ensures FirstMatch(stacks, stackName, environment).Some? && listErr.None? ==>
      r == fetch(StackInfoRequest(stacks[FirstMatch(stacks, stackName, environment).value].uid))
  {
    var stack, err := FindStackByName(stacks, listErr, stackName, environment);
    if err.Some? {
      return Err(err.value);
    }
    var uid := stack.value.uid;
    return fetch(StackInfoRequest(uid));
  }

  /** `StackInfo`: the same with no environment, so by name alone. */
  method StackInfo(stacks: seq<Stack>, listErr: Option<string>, stackName: string,
                   fetch: Request -> Result<Stack>)
    returns (r: Result<Stack>)
    ensures FirstMatch(stacks, stackName, "").None? ==> r == Err(StackNotFound)
    ensures FirstMatch(stacks, stackName, "").Some? && listErr.Some? ==> r == Err(listErr.value)
    ensures FirstMatch(stacks, stackName, "").Some? && listErr.None? ==>
      r == fetch(StackInfoRequest(stacks[FirstMatch(stacks, stackName, "").value].uid))
  {
    r := StackInfoWithEnvironment(stacks, listErr, stackName, "", fetch);
  }

  // ---------------------------------------------------------------------
  // Writing settings and environment variables

  /** A setting key as it goes into a path: every "." becomes "-". */
  function SettingKey(key: string): (r: string)
    ensures |r| == |key| && '.' !in r
    ensures forall i :: 0 <= i < |key| ==> r[i] == (if key[i] == '.' then '-' else key[i])
  {
    Strings.ReplaceChar(key, '.', '-')
  }

  /** Sanitising a sanitised key changes nothing, and a key without dots
      is used as it is. */
  lemma SettingKeyIdempotent(key: string)
    ensures SettingKey(SettingKey(key)) == SettingKey(key)
    ensures SettingKey(key) == key <==> '.' !in key
  {
  }

  /** `Set`: PUT the value of a stack setting. */
  function Set(uid: string, key: string, value: string): (r: Request)
    ensures r.verb == PUT && r.body == ValueBody(value)
    ensures r.path == "/stacks/" + uid + "/settings/" + SettingKey(key) + ".json"
  {
    Request(PUT, "/stacks/" + uid + "/settings/" + SettingKey(key) + ".json", ValueBody(value))
  }

  /** Two setting writes on one stack hit the same path exactly when their
      keys agree once dots are turned into dashes. */
  lemma SetSamePath(uid: string, key1: string, key2: string, value1: string, value2: string)
    ensures Set(uid, key1, value1).path == Set(uid, key2, value2).path
        <==> SettingKey(key1) == SettingKey(key2)
  {
    if Set(uid, key1, value1).path == Set(uid, key2, value2).path {
      Strings.ConcatCancel("/stacks/" + uid + "/settings/", SettingKey(key1), SettingKey(key2), ".json");
    }
  }

  /** So "db.host" and "db-host" name the same setting. */
  lemma SetDotAndDashCollide(uid: string, value: string)
    ensures Set(uid, "db.host", value) == Set(uid, "db-host", value)
  {
  }

  /** `StackEnvVarsSet`: PUT an environment variable; the key is used as
      given, in the path and in the body. */
  function StackEnvVarsSet(uid: string, key: string, value: string): (r: Request)
    ensures r.verb == PUT
    ensures r.path == "/stacks/" + uid + "/environments/" + key + ".json"
    ensures r.body.EnvVarBody? && r.body.envKey == key && r.body.envValue == value
  {
    Request(PUT, "/stacks/" + uid + "/environments/" + key + ".json", EnvVarBody(key, value))
  }

  /** Because the key is not rewritten, distinct keys give distinct paths. */
  lemma StackEnvVarsSetPathInjective(uid: string, key1: string, key2: string, value1: string, value2: string)
    ensures StackEnvVarsSet(uid, key1, value1).path == StackEnvVarsSet(uid, key2, value2).path <==> key1 == key2
  {
    if StackEnvVarsSet(uid, key1, value1).path == StackEnvVarsSet(uid, key2, value2).path {
      Strings.ConcatCancel("/stacks/" + uid + "/environments/", key1, key2, ".json");
    }
  }

  // ---------------------------------------------------------------------
  // Leasing firewall access

  /** `Lease`: POST a firewall lease; each parameter left nil takes its
      default and each one supplied is sent unchanged. */
  function Lease(uid: string, ipAddress: Option<string>, timeToOpen: Option<int>, port: Option<int>): (r: Request)
    ensures r.verb == POST && r.path == "/stacks/" + uid + "/firewalls.json"
    ensures r.body.LeaseBody?
    ensures r.body.fromIp == (if ipAddress.None? then DefaultIpAddress else ipAddress.value)
    ensures r.body.ttl == (if timeToOpen.None? then DefaultTimeToOpen else timeToOpen.value)
    ensures r.body.port == (if port.None? then DefaultPort else port.value)
  {
    var theIpAddress := if ipAddress == None then DefaultIpAddress else ipAddress.value;
    var theTimeToOpen := if timeToOpen == None then DefaultTimeToOpen else timeToOpen.value;
    var thePort := if port == None then DefaultPort else port.value;
    Request(POST, "/stacks/" + uid + "/firewalls.json", LeaseBody(theTimeToOpen, theIpAddress, thePort))
  }

  /** An illustration of the three defaults together: leaving every
      parameter nil sends the same request as supplying "AUTO", 20 and 22
      explicitly. */
  lemma LeaseDefaultsExplicit(uid: string)
    ensures Lease(uid, None, None, None) == Lease(uid, Some("AUTO"), Some(20), Some(22))
  {
  }
}
