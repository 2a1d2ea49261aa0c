# targetd-client in Dafny

A model of `targetd-client`, the Python client library and `targetdctl`
command line for the targetd storage daemon, with proofs about it.

The client sends JSON-RPC 2.0 requests to the daemon's `/targetrpc`
endpoint. Each request is one POST with basic authentication and a fresh
random request id. It then checks the reply: the id must match, an `error`
object becomes a `TargetdException`, and otherwise `result` is returned. On
top of that sit one facade method per remote procedure, the LUN allocator
`get_first_available_lun`, and the idempotent `export_create`. The command
line adds log-level gating, a display rewrite of size fields, the `pool get`
filter, a batch `volume destroy` that skips missing volumes, and the
`main` error boundary.

The project has five modules:

- `Exceptions` (`exceptions.dfy`): the error-code table and `TargetdException`.
  It also holds `Outcome`, which is how a call ends: a value, a raised
  `TargetdException`, or another Python exception (`Fault`).
- `Json` (`json.dfy`): JSON values with Python's truthiness and numeric
  equality (`True == 1`, `2.0 == 2`), `int()` on a JSON value, and the
  decimal text of integers.
- `Rpc` (`rpc.dfy`): one `Call` per facade method, with the method name
  and parameter object it sends. `FromWire` is the inverse reading, which
  shows that every call sends exactly its own keys.
- `Client` (`client.py`'s logic, in `client.dfy`): reply validation, and
  `Network`, the wire as the client sees it. The k-th call draws request
  id `uuid(k)` and gets exchange `answer(k)`; `sent` records every POST in
  order. It also holds the class `TargetdClient`, with the LUN allocation
  loop, `export_create` and the facade methods. A call's result is any
  JSON value; the loops over it (`export_create`, the LUN set, `pool get`)
  see it through `Elements`, which is how Python iterates a value whose
  elements are then looked up by key.
- `Cli` (`cli.py`'s logic, in `cli.dfy`): the class `Context`, whose
  printing appends to `out`. `naturalsize` is a parameter of the context.
  Dicts that `humanize` rewrites in place are objects of class `Item`.

## Model

| member | source | states |
|---|---|---|
| Exceptions.NameOf | targetd_client/exceptions.py:18-42 | the name found for a code is a class attribute holding exactly that code |
| Exceptions.NameOfInvertsTaxonomy | targetd_client/exceptions.py:18-42 | every code name except VOLUME_MASKED is found again from its value |
| Exceptions.OnlyMinus303IsAmbiguous | targetd_client/exceptions.py:23-32 | VOLUME_MASKED and UNEXPECTED_EXIT_CODE are both -303; two distinct names share a code exactly when they are that pair |
| Exceptions.ClientCodes | targetd_client/exceptions.py:20-28 | INVALID is -1 and NOT_FOUND_VOLUME is -103, the two codes the client and the command line rely on |
| Exceptions.ExceptionKeepsArguments | targetd_client/exceptions.py:44-46 | the constructor keeps `code` unchanged and the exception's text is `message` |
| Exceptions.Outcome.Propagate | targetd_client/cli.py:170-172 | re-raising keeps the failure: the same TargetdException, or the same other exception |
| Json.IntView | targetd_client/client.py:68-72 | the integer a JSON value equals under Python's `==`: an int is itself; only ints, bools and floats equal an integer |
| Json.Truncate | targetd_client/client.py:113 | `int()` of a float truncates toward zero: the result is within 1 of the value, on the zero side |
| Json.Digits | targetd_client/client.py:57 | the decimal digits of a natural number are non-empty digits with no leading zero |
| Json.Decimal | targetd_client/client.py:57 | the text of an integer in an f-string is non-empty and starts with '-' exactly when it is negative |
| Json.ToInt | targetd_client/client.py:113 | `int(v)`: ints and bools give the integer they equal; a float gives an integer, the float's own value when it is integral; a string succeeds exactly when it parses and otherwise raises ValueError; null, lists and objects raise TypeError; it never raises a TargetdException |
| Json.DigitsValueOfDigits | targetd_client/client.py:57 | reading back the digits of n gives n |
| Json.DecimalRoundTrip | targetd_client/client.py:57 | parsing the decimal text of any integer gives the integer back |
| Json.DecimalInjective | targetd_client/client.py:57 | distinct integers have distinct decimal texts |
| Json.ToIntOfDecimalString | targetd_client/client.py:113 | `int()` of the decimal text of n is n |
| Rpc.FromWire | targetd_client/client.py:78-265 | a request the daemon reads as some call carries exactly that call's method name and parameter object |
| Rpc.StringsRoundTrip | targetd_client/client.py:256-262 | a list of strings sent as JSON reads back as the same list |
| Rpc.StringsOfExact | targetd_client/client.py:256-262 | a JSON list that reads as strings is exactly the list those strings are sent as |
| Rpc.WireRoundTrip | targetd_client/client.py:78-265 | every call is read back from its method name and parameters as itself, so no two facade calls send the same request |
| Rpc.PoolListReadsBack | targetd_client/client.py:78-79 | `pool_list`'s request, with the default empty parameter object, reads back as the same call |
| Rpc.VolListReadsBack | targetd_client/client.py:81-82 | `vol_list`'s request, with parameters `pool`, reads back as the same call, arguments included |
| Rpc.VolCreateReadsBack | targetd_client/client.py:84-85 | `vol_create`'s request, with parameters `pool`, `name`, `size`, reads back as the same call, arguments included |
| Rpc.VolDestroyReadsBack | targetd_client/client.py:87-88 | `vol_destroy`'s request, with parameters `pool`, `name`, reads back as the same call, arguments included |
| Rpc.VolCopyReadsBack | targetd_client/client.py:90-94 | `vol_copy`'s request, with parameters `pool`, `vol_orig`, `vol_new`, `size`, reads back as the same call, arguments included |
| Rpc.ExportListReadsBack | targetd_client/client.py:96-97 | `export_list`'s request, with the empty parameter object, reads back as the same call |
| Rpc.ExportCreateReadsBack | targetd_client/client.py:118-126 | `export_create`'s request, with parameters `pool`, `vol`, `initiator_wwn`, `lun`, reads back as the same call, arguments included |
| Rpc.ExportDestroyReadsBack | targetd_client/client.py:130-133 | `export_destroy`'s request, with parameters `pool`, `vol`, `initiator_wwn`, reads back as the same call, arguments included |
| Rpc.InitiatorSetAuthReadsBack | targetd_client/client.py:135-152 | `initiator_set_auth`'s request, with the wwn and the four credentials as parameters, reads back as the same call, arguments included |
| Rpc.InitiatorListReadsBack | targetd_client/client.py:154-155 | `initiator_list`'s request, with `standalone_only` as a boolean, reads back as the same call, arguments included |
| Rpc.AccessGroupListReadsBack | targetd_client/client.py:157-158 | `access_group_list`'s request, with the empty parameter object, reads back as the same call |
| Rpc.AccessGroupCreateReadsBack | targetd_client/client.py:160-166 | `access_group_create`'s request, with parameters `ag_name`, `init_id`, `init_type`, reads back as the same call, arguments included |
| Rpc.AccessGroupDestroyReadsBack | targetd_client/client.py:168-169 | `access_group_destroy`'s request, with parameters `ag_name`, reads back as the same call, arguments included |
| Rpc.AccessGroupInitAddReadsBack | targetd_client/client.py:171-177 | `access_group_init_add`'s request, with parameters `ag_name`, `init_id`, `init_type`, reads back as the same call, arguments included |
| Rpc.AccessGroupInitDelReadsBack | targetd_client/client.py:179-185 | `access_group_init_del`'s request, with parameters `ag_name`, `init_id`, `init_type`, reads back as the same call, arguments included |
| Rpc.AccessGroupMapListReadsBack | targetd_client/client.py:187-190 | `access_group_map_list`'s request, with the empty parameter object, reads back as the same call |
| Rpc.AccessGroupMapCreateReadsBack | targetd_client/client.py:192-207 | `access_group_map_create`'s request, with all four keys and `h_lun_id` present (as null) even when no LUN is given, reads back as the same call |
| Rpc.AccessGroupMapDestroyReadsBack | targetd_client/client.py:209-215 | `access_group_map_destroy`'s request, with parameters `pool_name`, `vol_name`, `ag_name`, reads back as the same call, arguments included |
| Rpc.FsListReadsBack | targetd_client/client.py:217-220 | `fs_list`'s request, with the empty parameter object, reads back as the same call |
| Rpc.FsDestroyReadsBack | targetd_client/client.py:222-223 | `fs_destroy`'s request, with parameters `uuid`, reads back as the same call, arguments included |
| Rpc.FsCreateReadsBack | targetd_client/client.py:225-229 | `fs_create`'s request, with parameters `pool_name`, `name`, `size_bytes`, reads back as the same call, arguments included |
| Rpc.FsCloneReadsBack | targetd_client/client.py:231-239 | `fs_clone`'s request, with parameters `fs_uuid`, `dest_fs_name`, `snapshot_id`, reads back as the same call, arguments included |
| Rpc.SsListReadsBack | targetd_client/client.py:241-242 | `ss_list`'s request, with parameters `fs_uuid`, reads back as the same call, arguments included |
| Rpc.FsSnapshotReadsBack | targetd_client/client.py:244-245 | `fs_snapshot`'s request, with parameters `fs_uuid`, `dest_ss_name`, reads back as the same call, arguments included |
| Rpc.FsSnapshotDeleteReadsBack | targetd_client/client.py:247-248 | `fs_snapshot_delete`'s request, with parameters `fs_uuid`, `ss_uuid`, reads back as the same call, arguments included |
| Rpc.NfsExportAuthListReadsBack | targetd_client/client.py:250-251 | `nfs_export_auth_list`'s request, with the empty parameter object, reads back as the same call |
| Rpc.NfsExportListReadsBack | targetd_client/client.py:253-254 | `nfs_export_list`'s request, with the empty parameter object, reads back as the same call |
| Rpc.NfsExportAddReadsBack | targetd_client/client.py:256-262 | `nfs_export_add`'s request, with parameters `host`, `path`, `options` (the list of strings), `chown`, reads back as the same call, arguments included |
| Rpc.NfsExportRemoveReadsBack | targetd_client/client.py:264-265 | `nfs_export_remove`'s request, with parameters `host`, `path`, reads back as the same call, arguments included |
| Client.RaiseFrom | targetd_client/client.py:61-62 | a truthy error never lets the call succeed; a well-formed error object raises a TargetdException with exactly its `code` and `message`; a missing `code` is KeyError("code") before a missing `message` is KeyError("message"); a non-object is TypeError |
| Client.Validate | targetd_client/client.py:51-65 | the checks of a reply in the source's order: no answer, HTTP 4xx/5xx, non-JSON body, a JSON body that is not an object (TypeError), missing `id` (KeyError), id mismatch (code -1, even when an error is present), truthy error, missing `result`; the call succeeds exactly when the ids match, the error is absent or falsy and a result is present, and then returns that result, whatever JSON value it is |
| Client.MismatchMessageNamesBothIds | targetd_client/client.py:55-58 | the mismatch message names the expected id and the received id, and both can be read back from it |
| Client.FalsyErrorIsIgnored | targetd_client/client.py:60-65 | a falsy `error` (null, false, 0, "", empty list or object) is treated as an absent one and the result is returned |
| Client.Network.NextId | targetd_client/client.py:36 | the request id is the random id drawn for this call |
| Client.Network.Send | targetd_client/client.py:45-50 | one POST is recorded and the exchange scripted for this call is returned |
| Client.MatchesExport | targetd_client/client.py:104-106 | the filter's test is true exactly when the export is an object whose pool, vol_name and initiator_wwn all match; left to right, the first differing value gives false and the first missing key gives KeyError for that key, so a later key is never looked up; a non-object is TypeError |
| Client.FindExport | targetd_client/client.py:102-110 | the first export the filter accepts, after only rejected ones; none exactly when every export is rejected; a fault is that of an export whose test fails after only rejected ones |
| Client.LunOf | targetd_client/client.py:113 | `int(existing_export["lun"])`: TypeError for a non-object, KeyError without a `lun`, the integer itself for an integer |
| Client.Elements | targetd_client/client.py:68 | iterating a result whose elements are then indexed by key: a list gives its elements, an empty string or object gives none, and anything else is TypeError |
| Client.LunValues | targetd_client/client.py:68 | the `lun` of every export, in order; fails, with TypeError or KeyError("lun"), exactly when some export is not an object, has no `lun` or has an unhashable one |
| Client.LunSet | targetd_client/client.py:68 | the set holds exactly the integers some export's LUN equals, and is no larger than the list |
| Client.PrefixInSet | targetd_client/client.py:70-76 | a set holding 0..n-1 has at least n elements, which bounds the loop |
| Client.FirstFreeLun | targetd_client/client.py:70-76 | the loop returns the least natural number no export uses, and it is at most the number of exports |
| Client.LeastFreeExamples | targetd_client/client.py:67-76 | an empty list gives 0, LUNs 0,1,3,4 give 2, and LUNs 0..n-1 give n |
| Client.LeastFreeUnique | targetd_client/client.py:67-76 | there is only one least free LUN |
| Client.TargetdClient.constructor | targetd_client/client.py:27-33 | url, user, password and insecure_skip_verify are stored unchanged, with TLS verification on by default |
| Client.TargetdClient.Request | targetd_client/client.py:35-65 | one POST to `url + "/targetrpc"` with the credentials, `verify = not insecure_skip_verify` and the call's payload under this call's id; the outcome is the validation of the reply |
| Client.TargetdClient.List | targetd_client/client.py:78-79 | a listing call sends one request and returns its validated result, as the JSON value received |
| Client.TargetdClient.Do | targetd_client/client.py:84-85 | a call whose result is dropped sends one request, succeeds exactly when it does and otherwise passes its failure on |
| Client.TargetdClient.GetFirstAvailableLun | targetd_client/client.py:67-76 | one export listing; its failure, a result that cannot be iterated, or a non-object export or missing or unhashable LUN is passed on; on success, the least natural number no export uses, at most the number of exports |
| Client.TargetdClient.ExportCreate | targetd_client/client.py:99-128 | with no LUN given and a matching export, returns that export's LUN and sends nothing after the listing; with an explicit LUN, always sends `export_create` with it and returns it; otherwise lists again and sends and returns the least free LUN; every failure (including a listing that cannot be iterated) is passed on; the posts sent are given in each case, and the call counter advances by their number |
| Client.TargetdClient.SendAtFirstFreeLun | targetd_client/client.py:115-128 | lists the exports and sends `export_create` with the least free LUN, returning it; stops after the listing if that fails; the call counter advances by the number of posts |
| Client.TargetdClient.SendExportCreate | targetd_client/client.py:118-128 | sends `export_create` with the given LUN and returns that LUN when the request succeeds |
| Client.TargetdClient.PoolList | targetd_client/client.py:78-79 | sends `pool_list` and returns the validated result |
| Client.TargetdClient.VolList | targetd_client/client.py:81-82 | sends `vol_list` with the pool and returns the validated result |
| Client.TargetdClient.VolCreate | targetd_client/client.py:84-85 | sends `vol_create` with pool, name and size; succeeds exactly when the request does |
| Client.TargetdClient.VolDestroy | targetd_client/client.py:87-88 | sends `vol_destroy` with pool and name; succeeds exactly when the request does |
| Client.TargetdClient.VolCopy | targetd_client/client.py:90-94 | sends `vol_copy` with its four parameters; succeeds exactly when the request does |
| Client.TargetdClient.ExportList | targetd_client/client.py:96-97 | sends `export_list` and returns the validated result |
| Client.TargetdClient.ExportDestroy | targetd_client/client.py:130-133 | sends `export_destroy` with pool, vol and wwn; succeeds exactly when the request does |
| Client.TargetdClient.InitiatorSetAuth | targetd_client/client.py:135-152 | sends `initiator_set_auth` with the wwn and credentials; succeeds exactly when the request does |
| Client.TargetdClient.InitiatorList | targetd_client/client.py:154-155 | sends `initiator_list` with `standalone_only`, false by default, and returns the validated result |
| Client.TargetdClient.AccessGroupList | targetd_client/client.py:157-158 | sends `access_group_list` and returns the validated result |
| Client.TargetdClient.AccessGroupCreate | targetd_client/client.py:160-166 | sends `access_group_create`, with `init_type` "iscsi" by default; succeeds exactly when the request does |
| Client.TargetdClient.AccessGroupDestroy | targetd_client/client.py:168-169 | sends `access_group_destroy`; succeeds exactly when the request does |
| Client.TargetdClient.AccessGroupInitAdd | targetd_client/client.py:171-177 | sends `access_group_init_add`, with `init_type` "iscsi" by default; succeeds exactly when the request does |
| Client.TargetdClient.AccessGroupInitDel | targetd_client/client.py:179-185 | sends `access_group_init_del`, with `init_type` "iscsi" by default; succeeds exactly when the request does |
| Client.TargetdClient.AccessGroupMapList | targetd_client/client.py:187-190 | sends `access_group_map_list` and returns the validated result |
| Client.TargetdClient.AccessGroupMapCreate | targetd_client/client.py:192-207 | sends `access_group_map_create` with `h_lun_id` always present; succeeds exactly when the request does |
| Client.TargetdClient.AccessGroupMapDestroy | targetd_client/client.py:209-215 | sends `access_group_map_destroy`; succeeds exactly when the request does |
| Client.TargetdClient.FsList | targetd_client/client.py:217-220 | sends `fs_list` and returns the validated result |
| Client.TargetdClient.FsDestroy | targetd_client/client.py:222-223 | sends `fs_destroy` with the uuid; succeeds exactly when the request does |
| Client.TargetdClient.FsCreate | targetd_client/client.py:225-229 | sends `fs_create`; succeeds exactly when the request does |
| Client.TargetdClient.FsClone | targetd_client/client.py:231-239 | sends `fs_clone`; succeeds exactly when the request does |
| Client.TargetdClient.SsList | targetd_client/client.py:241-242 | sends `ss_list` with the filesystem uuid and returns the validated result |
| Client.TargetdClient.FsSnapshot | targetd_client/client.py:244-245 | sends `fs_snapshot`; succeeds exactly when the request does |
| Client.TargetdClient.FsSnapshotDelete | targetd_client/client.py:247-248 | sends `fs_snapshot_delete`; succeeds exactly when the request does |
| Client.TargetdClient.NfsExportAuthList | targetd_client/client.py:250-251 | sends `nfs_export_auth_list` and returns the validated result |
| Client.TargetdClient.NfsExportList | targetd_client/client.py:253-254 | sends `nfs_export_list` and returns the validated result |
| Client.TargetdClient.NfsExportAdd | targetd_client/client.py:256-262 | sends `nfs_export_add` with the options list; succeeds exactly when the request does |
| Client.TargetdClient.NfsExportRemove | targetd_client/client.py:264-265 | sends `nfs_export_remove`; succeeds exactly when the request does |
| Cli.SelectLogLevel | targetd_client/cli.py:106-111 | DEBUG exactly under --debug, INFO exactly under --verbose without --debug, WARNING otherwise |
| Cli.Logged | targetd_client/cli.py:53-57 | a gated message prints, as one line, exactly when the log level reaches its threshold |
| Cli.DebugAsWritten | targetd_client/cli.py:59-61 | `debug` as written prints nothing at any level |
| Cli.InfoShownIffDebugOrVerbose | targetd_client/cli.py:53-57 | info messages appear exactly under --debug or --verbose |
| Cli.DebugNeverPrints | targetd_client/cli.py:59-61 | under --debug the level is DEBUG, yet `debug` prints nothing, where a gate like `info`'s would print |
| Cli.DebugIntended | targetd_client/cli.py:59-61 | with the print after the gate, debug messages appear exactly under --debug, and only where info messages do |
| Cli.HumanizeRecord | targetd_client/cli.py:70-72 | the keys are kept; every numeric entry (bools included) under a key containing "size" becomes the `naturalsize` text of its value, and nothing else changes |
| Cli.NoSizeLeftNumeric | targetd_client/cli.py:70-72 | after the rewrite no size entry is numeric |
| Cli.HumanizeIdempotent | targetd_client/cli.py:68-74 | rewriting twice is rewriting once |
| Cli.HumanizeKeepsOthers | targetd_client/cli.py:71 | an entry whose key lacks "size" or whose value is not numeric is unchanged |
| Cli.HumanizeRows | targetd_client/cli.py:68-74 | every row rewritten, in order |
| Cli.Decode | targetd_client/client.py:53 | the decoded reply's dicts are fresh, distinct objects holding the reply's records |
| Cli.Context.constructor | targetd_client/cli.py:38-48 | the context holds a client built from the url and credentials with TLS verification on, plus the log level and the header flag |
| Cli.Context.Warning | targetd_client/cli.py:50-51 | `warning` always prints its message |
| Cli.Context.Info | targetd_client/cli.py:53-57 | `info` prints its message exactly from LOG_INFO up |
| Cli.Context.Debug | targetd_client/cli.py:59-61 | `debug` as written leaves the output unchanged |
| Cli.Context.HumanizeItem | targetd_client/cli.py:70-72 | the inner loop leaves the dict rewritten as `HumanizeRecord` says |
| Cli.Context.Humanize | targetd_client/cli.py:68-74 | every dict of the list is rewritten in place (once, even when listed twice) and the same list is returned |
| Cli.Context.Tabulate | targetd_client/cli.py:63-66 | humanizes the dicts in place and prints one table of the rewritten rows, with headers as configured |
| Cli.PoolsNamed | targetd_client/cli.py:132 | keeps exactly the pools named `name`, no more of them than there were; fails exactly when some pool is not an object with a name, and then with TypeError or KeyError("name") as the first such pool dictates |
| Cli.PoolsNamedKeepsMultiplicity | targetd_client/cli.py:132 | each pool named `name` is kept as many times as it is listed, and every other pool zero times |
| Cli.PoolsNamedIsSubsequence | targetd_client/cli.py:132 | the kept pools are in their listed order |
| Cli.PoolGet | targetd_client/cli.py:131-137 | one `pool_list`; a failure, or a result that cannot be iterated, is passed on with nothing printed; no match prints nothing; otherwise the matching pools are printed as one humanized table |
| Cli.FirstFatal | targetd_client/cli.py:167-172 | the position of the first reply that is neither a success nor NOT_FOUND_VOLUME, or the number of names if there is none |
| Cli.FirstFatalIs | targetd_client/cli.py:167-172 | a fatal reply after only non-fatal ones is the first fatal one |
| Cli.Tried | targetd_client/cli.py:167-172 | the names attempted are those up to and including the first fatal one |
| Cli.SkipLine | targetd_client/cli.py:170-174 | a reply prints a skip line exactly when it is NOT_FOUND_VOLUME and the level reaches INFO |
| Cli.SkipLogExtends | targetd_client/cli.py:174 | the batch only appends to the output, at most one line per name |
| Cli.DestroyPostsExtends | targetd_client/cli.py:167-169 | the batch appends one `vol_destroy` post per name attempted, in order, each with its own name |
| Cli.NotFoundNeverStops | targetd_client/cli.py:170-174 | with no fatal reply every name is attempted |
| Cli.BatchAdvance | targetd_client/cli.py:167-174 | a non-fatal reply extends the batch by one name, its post and its skip line |
| Cli.FatalEndsBatch | targetd_client/cli.py:171-172 | a fatal reply ends the batch at that name |
| Cli.FatalIsLast | targetd_client/cli.py:171-172 | the name that ends the batch was posted and printed nothing |
| Cli.DestroyNext | targetd_client/cli.py:168-174 | one name: `vol_destroy`, then a skip message on NOT_FOUND_VOLUME, or the end of the batch on any other failure |
| Cli.VolumeDestroy | targetd_client/cli.py:166-174 | names are attempted in order up to and including the first fatal reply; every attempted name's post and every skip message are given; success exactly when no reply is fatal; otherwise the first fatal failure is re-raised |
| Cli.Main | targetd_client/cli.py:80-84 | a TargetdException is caught and its message printed; any other exception escapes unchanged |

## Left out

- The HTTP transport (`requests.post`, basic authentication, TLS, `raise_for_status`, `r.json()`) is the `Network` parameter. Each call's exchange is scripted by `answer`, and the failures the transport can raise are `Fault` values. The `verify` flag and the credentials are recorded in each `Post`.
- `uuid.uuid4()` is the `uuid` function of `Network`: the k-th call's id is given, not drawn.
- The daemon itself is not modelled. There is no export list on the daemon side: replies are scripted per call, so a contract covers every possible daemon. A reply to `export_create` does not change what a later `export_list` returns unless the script says so.
- Client.Validate: the reply's `id` is modelled as an integer or absent. A reply id of another JSON type (a string, say) is not modelled; Python compares it with `!=` and raises code -1. A JSON body that is not an object is one case (`NotObject`), whatever its kind, since `response["id"]` raises TypeError on each of them.
- Client.RaiseFrom: an error object whose `code` is not an integer or whose `message` is not a string is reported as TypeError. Python would raise a TargetdException carrying those values as they are.
- Json.ToInt: `int()` of a string accepts exactly an optional sign and decimal digits. Python also accepts surrounding whitespace and underscores between digits.
- The race between scanning for a free LUN and creating the export, against other clients, is cross-process concurrency and outside a sequential model.
- Click's decorators, argument parsing and command wiring (the other `targetdctl` commands only forward their arguments) are not modelled. Neither are the strings click passes for `size` and `lun`.
- `tabulate`'s layout and `naturalsize`'s formatting are not modelled: a table is recorded as its rows and the header flag, and `naturalsize` is an uninterpreted function of the context.
- The import-failure exit (`targetd_client/cli.py:18-26`) is not modelled.
- Cli.Humanize: iterating over `data.copy()` is iteration over the same dicts in the same order, so the copy is not modelled.

## Findings

| source | as written | input that shows it | evidently intended | confidence | as-written member | corrected member |
|---|---|---|---|---|---|---|
| targetd_client/cli.py:59-61 | `Context.debug` returns early below LOG_DEBUG and otherwise falls off the end, so it never prints | `targetdctl --debug ...` with any call to `debug(msg)`: the level is LOG_DEBUG and nothing is printed | print the message from LOG_DEBUG up, as `info` does from LOG_INFO | not executed | Cli.DebugNeverPrints | Cli.DebugIntended |
