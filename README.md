# cx client core in Dafny

A model of the deterministic core of the Cloud 66 command-line client's SDK:
the part that turns numeric stack and server codes into labels, selects
stacks from the list the API returns, and builds the request descriptors
(HTTP verb, endpoint path, JSON body fields) for settings, environment
variables, firewall leases and server look-ups. The HTTP transport is
abstract: a server reply is an input. Usually it is a function
`fetch: Request -> Result<T>` that gives the reply to a request descriptor.
The stack listing that `FindStackByName` scans is the exception: it enters
as the two results of `StackList`, the list `stacks` and the error
`listErr`, because the code uses both.

Files, one module each:

- `wrappers.dfy` (`Wrappers`): `Option` for Go's nil pointers, `Result` for a Go `(value, error)` pair.
- `requests.dfy` (`Requests`): the request descriptor `Request(verb, path, body)` and the JSON bodies.
- `strings.dfy` (`Strings`): `strings.ToLower` over ASCII and `strings.Replace` of one character by another.
- `stack.dfy` (`Stacks`): `cloud66/stack.go`.
- `server.dfy` (`Servers`): the vendored `cloud66` package's `server.go`.

The two loops of `stack.go` are methods with loop invariants, proved against
the functions `Filtered` and `FirstMatch`; the properties of the selection
rules are proved about those functions. `StackInfo` and
`StackInfoWithEnvironment` are methods too, because they call the
`FindStackByName` method. The rest is pure and is modelled as functions.

Behaviour kept as the code has it:

- `FindStackByName` receives both the list and the error that listing the
  stacks returned. On a match it returns the stack together with that error.
  When nothing matches it returns "Stack not found", and a listing error is
  then not reported.
- The setting-key rewrite only turns "." into "-". It does no lower-casing.
- `GetServer` sends its `include_private_key` field as the body of a GET.

## Model

| member | source | states |
|---|---|---|
| `Stacks.Stack.Status` | cloud66/stack.go:61-63 | the label is non-empty exactly for codes 0..7, where it is that code's table entry; every other code, negatives included, gives "" |
| `Stacks.StatusLabelsDistinct` | cloud66/stack.go:9-18 | two stacks with the same non-empty status label have the same status code |
| `Stacks.HealthLabel` | cloud66/stack.go:20-26 | the health label is non-empty exactly for codes 0..4, where it is the table entry; otherwise "" |
| `Stacks.HealthLabelsDistinct` | cloud66/stack.go:20-26 | a non-empty health label determines its code |
| `Stacks.Stack.Health` | cloud66/stack.go:65-67 | a stack's health label is the table entry for codes 0..4 and "" for any other code |
| `Stacks.Filtered` | cloud66/stack.go:91-97 | every stack kept is in the input and accepted by the filter; every accepted input stack is kept; the result is no longer than the input |
| `Stacks.FilteredConcat` | cloud66/stack.go:91-97 | filtering a concatenation is concatenating the filtered parts, so the relative order of the kept stacks is the input's |
| `Stacks.FilteredCount` | cloud66/stack.go:91-97 | an accepted stack occurs in the result exactly as often as in the input; a rejected one not at all |
| `Stacks.FilteredIdempotent` | cloud66/stack.go:91-97 | filtering twice with the same filter equals filtering once |
| `Stacks.StackListRequest` | cloud66/stack.go:80 | the stack list is requested with GET /stacks.json and no body |
| `Stacks.StackListWithFilter` | cloud66/stack.go:79-98 | sends the stack-list request; a failed reply is returned unchanged; otherwise the result is exactly the filtered list of the reply |
| `Stacks.FirstMatch` | cloud66/stack.go:173-177 | a returned position holds a stack whose lower-cased name equals the lower-cased name asked for and whose environment matches (when one is given), and no earlier stack matches; none is returned exactly when no stack matches |
| `Stacks.FindStackByName` | cloud66/stack.go:170-180 | returns the first matching stack together with the listing error; with no match (the empty list included) returns nil and "Stack not found" |
| `Stacks.FirstMatchIgnoresNameCase` | cloud66/stack.go:174 | names with the same lower-case form select the same stack |
| `Stacks.EnvironmentNarrows` | cloud66/stack.go:174 | giving an environment can only move the match later or remove it, or remove it; when the name alone finds no stack, the name with an environment finds none either |
| `Stacks.EnvironmentIsCaseSensitive` | cloud66/stack.go:174 | the name "APP" finds a stack named "app", but the environment "Production" does not match "production" |
| `Stacks.StackInfoRequest` | cloud66/stack.go:107 | one stack is fetched with GET /stacks/{uid}.json and no body (the same request at line 123) |
| `Stacks.StackInfoWithEnvironment` | cloud66/stack.go:116-130 | not found gives "Stack not found"; a listing error is returned; otherwise the reply to GET /stacks/{uid}.json for the first match's uid |
| `Stacks.StackInfo` | cloud66/stack.go:100-114 | the same as `StackInfoWithEnvironment` with the environment left empty, so by name alone |
| `Strings.ToLower` | cloud66/stack.go:174 | same length, each character lowered, no ASCII capital left |
| `Strings.ToLowerIdempotent` | cloud66/stack.go:174 | lowering twice equals lowering once |
| `Strings.ReplaceChar` | cloud66/stack.go:203 | same length; each occurrence of the pattern becomes the replacement and every other character stays; no pattern character is left when the replacement differs from the pattern |
| `Strings.ReplaceCharIdempotent` | Godeps/_workspace/src/github.com/cloud66/cloud66/server.go:91 | replacing twice equals replacing once |
| `Strings.ReplaceCharFixpoint` | Godeps/_workspace/src/github.com/cloud66/cloud66/server.go:91 | the string is unchanged exactly when it holds no pattern character or the replacement is the pattern itself |
| `Stacks.SettingKey` | cloud66/stack.go:203 | the path key has the key's length, contains no ".", has "-" where the key had "." and the key's character elsewhere |
| `Stacks.SettingKeyIdempotent` | cloud66/stack.go:203 | sanitising is idempotent, and a key is kept as it is exactly when it has no "." |
| `Stacks.Set` | cloud66/stack.go:202-216 | PUT to /stacks/{uid}/settings/{sanitised key}.json with the value as body |
| `Stacks.SetSamePath` | cloud66/stack.go:203-210 | two setting writes on one stack share a path exactly when their sanitised keys are equal |
| `Stacks.SetDotAndDashCollide` | cloud66/stack.go:203 | "db.host" and "db-host" produce the same request |
| `Stacks.StackEnvVarsSet` | cloud66/stack.go:152-168 | PUT to /stacks/{uid}/environments/{key}.json with the key unchanged, and the key and value as env_key and env_value |
| `Stacks.StackEnvVarsSetPathInjective` | cloud66/stack.go:161 | two env-var writes on one stack share a path exactly when the keys are equal |
| `Stacks.Lease` | cloud66/stack.go:218-263 | POST to /stacks/{uid}/firewalls.json; a nil address becomes "AUTO", a nil ttl 20, a nil port 22; a supplied value is sent unchanged |
| `Stacks.LeaseDefaultsExplicit` | cloud66/stack.go:226-244 | an illustration of the three defaults: leaving all three nil sends the same request as supplying "AUTO", 20 and 22 |
| `Servers.Server.Health` | Godeps/_workspace/src/github.com/cloud66/cloud66/server.go:41-43 | a server's health label is the table entry for codes 0..4 and "" otherwise |
| `Servers.Server.HasRole` | Godeps/_workspace/src/github.com/cloud66/cloud66/server.go:105-112 | true exactly when some role equals the one asked for; false for a server with no roles |
| `Servers.ScanRoles` | Godeps/_workspace/src/github.com/cloud66/cloud66/server.go:106-111 | the early-return scan answers true exactly when the role is in the list |
| `Servers.HasRoleIsExact` | Godeps/_workspace/src/github.com/cloud66/cloud66/server.go:107 | with roles "web" and "db": "web" and "db" are found; "Web", "we" and "webdb" are not |
| `Servers.GetServer` | Godeps/_workspace/src/github.com/cloud66/cloud66/server.go:65-77 | GET /stacks/{stackUid}/servers/{serverUid}.json whose body carries include_private_key |
| `Servers.ServerKeyInformation` | Godeps/_workspace/src/github.com/cloud66/cloud66/server.go:54-63 | asks for the server with include_private_key = 1; a failed fetch is returned; a server without a key gives "SshPrivateKey not returned by server"; otherwise the key itself |
| `Servers.ServerSet` | Godeps/_workspace/src/github.com/cloud66/cloud66/server.go:90-103 | PUT to /stacks/{stackUid}/servers/{serverUid}/settings/{sanitised key}.json with the value as body |
| `Servers.ServerSetSamePath` | Godeps/_workspace/src/github.com/cloud66/cloud66/server.go:91-97 | two setting writes on one server share a path exactly when their sanitised keys are equal |

## Left out

- `Servers.Server.Health`: reads the health table of `cloud66/stack.go`. The vendored package has its own table, which is not part of this model, so the two are assumed to be the same.
- HTTP transport and JSON: `NewRequest` and `DoReq` are not part of this model. Their combined outcome is an input: a `fetch: Request -> Result<T>` function, or, for the stack listing scanned by `FindStackByName`, the two results `stacks` and `listErr` of `StackList`. A transport error and a request-building error are both an `Err`.
- A reply that decodes to a nil server without an error: `ServerKeyInformation` would dereference nil. This depends on `DoReq`, which is not part of this model.
- `StackList`, `StackSettings`, `StackEnvVars`, `Servers`, `ManagedBackups`, `ServerSettings`, `RedeployStack` and `InvokeStackAction`: single requests with a fixed path and no logic beyond concatenation. `StackListRequest` is written out because `StackListWithFilter` sends it; `FindStackByName` receives the two results of `StackList` as inputs.
- `LeaseSync`, `WaitStackAsyncAction` and `WaitForAsyncActionComplete`: the async poller is not part of this model, and it depends on a wall clock and sleeping.
- clear_caches.go: command-line glue (argument check, process exit, error printing).
- `time.Time` fields, the untyped `interface{}` values (`StackSetting.Value`, `Server.Params`, notification values) and the `Notifications` map: passive records with no logic.
- `Strings.ToLower`: does not model Unicode case mapping, only ASCII capitals, because Go's full Unicode tables are out of scope. The name match is case-insensitive only for ASCII letters here.
