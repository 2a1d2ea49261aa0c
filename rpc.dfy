/** The remote procedures of the targetd daemon as the client sends them:
    one constructor per facade method of TargetdClient, the method name and
    parameter object each one puts into the JSON-RPC payload, and the inverse
    reading, which shows that every call sends exactly its own keys. */
module Rpc {
  import opened Exceptions
  import opened Json

  type Params = map<string, Value>

  datatype Call =
    | PoolList
    | VolList(pool: string)
    | VolCreate(pool: string, name: string, size: int)
    | VolDestroy(pool: string, name: string)
    | VolCopy(pool: string, volOrig: string, volNew: string, size: int)
    | ExportList
    | ExportCreate(pool: string, vol: string, initiatorWwn: string, lun: int)
    | ExportDestroy(pool: string, vol: string, initiatorWwn: string)
    | InitiatorSetAuth(initiatorWwn: string, inUser: string, inPass: string, outUser: string, outPass: string)
    | InitiatorList(standaloneOnly: bool)
    | AccessGroupList
    | AccessGroupCreate(agName: string, initId: string, initType: string)
    | AccessGroupDestroy(agName: string)
    | AccessGroupInitAdd(agName: string, initId: string, initType: string)
    | AccessGroupInitDel(agName: string, initId: string, initType: string)
    | AccessGroupMapList
    | AccessGroupMapCreate(poolName: string, volName: string, agName: string, hLunId: Option<int>)
    | AccessGroupMapDestroy(poolName: string, volName: string, agName: string)
    | FsList
    | FsDestroy(uuid: string)
    | FsCreate(poolName: string, name: string, sizeBytes: int)
    | FsClone(fsUuid: string, destFsName: string, snapshotId: string)
    | SsList(fsUuid: string)
    | FsSnapshot(fsUuid: string, destSsName: string)
    | FsSnapshotDelete(fsUuid: string, ssUuid: string)
    | NfsExportAuthList
    | NfsExportList
    | NfsExportAdd(host: string, path: string, options: seq<string>, chown: string)
    | NfsExportRemove(host: string, path: string)

  /** The JSON-RPC method name a call is sent under. */
  function MethodName(c: Call): string {
    match c
    case PoolList => "pool_list"
    case VolList(_) => "vol_list"
    case VolCreate(_, _, _) => "vol_create"
    case VolDestroy(_, _) => "vol_destroy"
    case VolCopy(_, _, _, _) => "vol_copy"
    case ExportList => "export_list"
    case ExportCreate(_, _, _, _) => "export_create"
    case ExportDestroy(_, _, _) => "export_destroy"
    case InitiatorSetAuth(_, _, _, _, _) => "initiator_set_auth"
    case InitiatorList(_) => "initiator_list"
    case AccessGroupList => "access_group_list"
    case AccessGroupCreate(_, _, _) => "access_group_create"
    case AccessGroupDestroy(_) => "access_group_destroy"
    case AccessGroupInitAdd(_, _, _) => "access_group_init_add"
    case AccessGroupInitDel(_, _, _) => "access_group_init_del"
    case AccessGroupMapList => "access_group_map_list"
    case AccessGroupMapCreate(_, _, _, _) => "access_group_map_create"
    case AccessGroupMapDestroy(_, _, _) => "access_group_map_destroy"
    case FsList => "fs_list"
    case FsDestroy(_) => "fs_destroy"
    case FsCreate(_, _, _) => "fs_create"
    case FsClone(_, _, _) => "fs_clone"
    case SsList(_) => "ss_list"
    case FsSnapshot(_, _) => "fs_snapshot"
    case FsSnapshotDelete(_, _) => "fs_snapshot_delete"
    case NfsExportAuthList => "nfs_export_auth_list"
    case NfsExportList => "nfs_export_list"
    case NfsExportAdd(_, _, _, _) => "nfs_export_add"
    case NfsExportRemove(_, _) => "nfs_export_remove"
  }

  function Strings(xs: seq<string>): (vs: seq<Value>)
    ensures |vs| == |xs|
  {
    if xs == [] then [] else [JStr(xs[0])] + Strings(xs[1..])
  }

  function OptionalInt(n: Option<int>): Value {
    if n.Some? then JInt(n.value) else JNull
  }

  /** The parameter object a call sends. Calls without arguments send the
      default `{}`; an optional argument left unset is sent as null. */
  function ParamsOf(c: Call): Params {
    match c
    case PoolList => map[]
    case VolList(pool) => map["pool" := JStr(pool)]
    case VolCreate(pool, name, size) =>
      map["pool" := JStr(pool), "name" := JStr(name), "size" := JInt(size)]
    case VolDestroy(pool, name) => map["pool" := JStr(pool), "name" := JStr(name)]
    case VolCopy(pool, volOrig, volNew, size) =>
      map["pool" := JStr(pool), "vol_orig" := JStr(volOrig), "vol_new" := JStr(volNew), "size" := JInt(size)]
    case ExportList => map[]
    case ExportCreate(pool, vol, wwn, lun) =>
      map["pool" := JStr(pool), "vol" := JStr(vol), "initiator_wwn" := JStr(wwn), "lun" := JInt(lun)]
    case ExportDestroy(pool, vol, wwn) =>
      map["pool" := JStr(pool), "vol" := JStr(vol), "initiator_wwn" := JStr(wwn)]
    case InitiatorSetAuth(wwn, inUser, inPass, outUser, outPass) =>
      map["initiator_wwn" := JStr(wwn), "in_user" := JStr(inUser), "in_pass" := JStr(inPass),
          "out_user" := JStr(outUser), "out_pass" := JStr(outPass)]
    case InitiatorList(standaloneOnly) => map["standalone_only" := JBool(standaloneOnly)]
    case AccessGroupList => map[]
    case AccessGroupCreate(agName, initId, initType) =>
      map["ag_name" := JStr(agName), "init_id" := JStr(initId), "init_type" := JStr(initType)]
    case AccessGroupDestroy(agName) => map["ag_name" := JStr(agName)]
    case AccessGroupInitAdd(agName, initId, initType) =>
      map["ag_name" := JStr(agName), "init_id" := JStr(initId), "init_type" := JStr(initType)]
    case AccessGroupInitDel(agName, initId, initType) =>
      map["ag_name" := JStr(agName), "init_id" := JStr(initId), "init_type" := JStr(initType)]
    case AccessGroupMapList => map[]
    case AccessGroupMapCreate(poolName, volName, agName, hLunId) =>
      map["pool_name" := JStr(poolName), "vol_name" := JStr(volName), "ag_name" := JStr(agName),
          "h_lun_id" := OptionalInt(hLunId)]
    case AccessGroupMapDestroy(poolName, volName, agName) =>
      map["pool_name" := JStr(poolName), "vol_name" := JStr(volName), "ag_name" := JStr(agName)]
    case FsList => map[]
    case FsDestroy(uuid) => map["uuid" := JStr(uuid)]
    case FsCreate(poolName, name, sizeBytes) =>
      map["pool_name" := JStr(poolName), "name" := JStr(name), "size_bytes" := JInt(sizeBytes)]
    case FsClone(fsUuid, destFsName, snapshotId) =>
      map["fs_uuid" := JStr(fsUuid), "dest_fs_name" := JStr(destFsName), "snapshot_id" := JStr(snapshotId)]
    case SsList(fsUuid) => map["fs_uuid" := JStr(fsUuid)]
    case FsSnapshot(fsUuid, destSsName) => map["fs_uuid" := JStr(fsUuid), "dest_ss_name" := JStr(destSsName)]
    case FsSnapshotDelete(fsUuid, ssUuid) => map["fs_uuid" := JStr(fsUuid), "ss_uuid" := JStr(ssUuid)]
    case NfsExportAuthList => map[]
    case NfsExportList => map[]
    case NfsExportAdd(host, path, options, chown) =>
      map["host" := JStr(host), "path" := JStr(path), "options" := JList(Strings(options)), "chown" := JStr(chown)]
    case NfsExportRemove(host, path) => map["host" := JStr(host), "path" := JStr(path)]
  }

  /** The strings of a list whose items are all strings. */
  function StringsOf(vs: seq<Value>): Option<seq<string>> {
    if vs == [] then Some([])
    else if vs[0].JStr? && StringsOf(vs[1..]).Some? then Some([vs[0].s] + StringsOf(vs[1..]).value)
    else None
  }

  /* Readers for the shapes of parameter object the calls use. Each accepts
     an object with exactly the given keys, holding values of the given kinds,
     and its contract says the object is then exactly the one rebuilt from
     what it read. */

  function Str1(p: Params, k1: string): (r: Option<string>)
    ensures r.Some? ==> p == map[k1 := JStr(r.value)]
  {
    if p.Keys == {k1} && p[k1].JStr? then Some(p[k1].s) else None
  }

  function Str2(p: Params, k1: string, k2: string): (r: Option<(string, string)>)
    ensures r.Some? ==> p == map[k1 := JStr(r.value.0), k2 := JStr(r.value.1)]
  {
    if p.Keys == {k1, k2} && p[k1].JStr? && p[k2].JStr? then Some((p[k1].s, p[k2].s)) else None
  }

  function Str3(p: Params, k1: string, k2: string, k3: string): (r: Option<(string, string, string)>)
    ensures r.Some? ==> p == map[k1 := JStr(r.value.0), k2 := JStr(r.value.1), k3 := JStr(r.value.2)]
  {
    if p.Keys == {k1, k2, k3} && p[k1].JStr? && p[k2].JStr? && p[k3].JStr?
    then Some((p[k1].s, p[k2].s, p[k3].s)) else None
  }

  function Str2Int(p: Params, k1: string, k2: string, k3: string): (r: Option<(string, string, int)>)
    ensures r.Some? ==> p == map[k1 := JStr(r.value.0), k2 := JStr(r.value.1), k3 := JInt(r.value.2)]
  {
    if p.Keys == {k1, k2, k3} && p[k1].JStr? && p[k2].JStr? && p[k3].JInt?
    then Some((p[k1].s, p[k2].s, p[k3].i)) else None
  }

  function Str3Int(p: Params, k1: string, k2: string, k3: string, k4: string): (r: Option<(string, string, string, int)>)
    ensures r.Some? ==> p == map[k1 := JStr(r.value.0), k2 := JStr(r.value.1), k3 := JStr(r.value.2),
                                 k4 := JInt(r.value.3)]
  {
    if p.Keys == {k1, k2, k3, k4} && p[k1].JStr? && p[k2].JStr? && p[k3].JStr? && p[k4].JInt?
    then Some((p[k1].s, p[k2].s, p[k3].s, p[k4].i)) else None
  }

  function AuthParams(p: Params): (r: Option<Call>)
    ensures r.Some? ==> r.value.InitiatorSetAuth? && ParamsOf(r.value) == p
  {
    if p.Keys == {"initiator_wwn", "in_user", "in_pass", "out_user", "out_pass"}
       && p["initiator_wwn"].JStr? && p["in_user"].JStr? && p["in_pass"].JStr?
       && p["out_user"].JStr? && p["out_pass"].JStr?
    then Some(InitiatorSetAuth(p["initiator_wwn"].s, p["in_user"].s, p["in_pass"].s,
                               p["out_user"].s, p["out_pass"].s))
    else None
  }

  function InitiatorListParams(p: Params): (r: Option<Call>)
    ensures r.Some? ==> r.value.InitiatorList? && ParamsOf(r.value) == p
  {
    if p.Keys == {"standalone_only"} && p["standalone_only"].JBool?
    then Some(InitiatorList(p["standalone_only"].b)) else None
  }

  function MapCreateParams(p: Params): (r: Option<Call>)
    ensures r.Some? ==> r.value.AccessGroupMapCreate? && ParamsOf(r.value) == p
  {
    if p.Keys == {"pool_name", "vol_name", "ag_name", "h_lun_id"} && p["pool_name"].JStr?
       && p["vol_name"].JStr? && p["ag_name"].JStr? && (p["h_lun_id"].JInt? || p["h_lun_id"].JNull?)
    then Some(AccessGroupMapCreate(p["pool_name"].s, p["vol_name"].s, p["ag_name"].s,
                                   if p["h_lun_id"].JInt? then Some(p["h_lun_id"].i) else None))
    else None
  }

  function NfsAddParams(p: Params): (r: Option<Call>)
    ensures r.Some? ==> r.value.NfsExportAdd? && ParamsOf(r.value) == p
  {
    if p.Keys == {"host", "path", "options", "chown"} && p["host"].JStr? && p["path"].JStr?
       && p["options"].JList? && StringsOf(p["options"].items).Some? && p["chown"].JStr?
    then
      var options := StringsOf(p["options"].items).value;
      StringsOfExact(p["options"].items);
      Some(NfsExportAdd(p["host"].s, p["path"].s, options, p["chown"].s))
    else None
  }

  function PoolFromWire(name: string, p: Params): (r: Option<Call>)
    ensures r.Some? ==> MethodName(r.value) == name && ParamsOf(r.value) == p
  {
    if name == "pool_list" && p == map[] then Some(PoolList) else None
  }

  function VolumeFromWire(name: string, p: Params): (r: Option<Call>)
    ensures r.Some? ==> MethodName(r.value) == name && ParamsOf(r.value) == p
  {
    match name
    case "vol_list" =>
      var r := Str1(p, "pool"); if r.Some? then Some(VolList(r.value)) else None
    case "vol_create" =>
      var r := Str2Int(p, "pool", "name", "size");
      if r.Some? then Some(VolCreate(r.value.0, r.value.1, r.value.2)) else None
    case "vol_destroy" =>
      var r := Str2(p, "pool", "name"); if r.Some? then Some(VolDestroy(r.value.0, r.value.1)) else None
    case "vol_copy" =>
      var r := Str3Int(p, "pool", "vol_orig", "vol_new", "size");
      if r.Some? then Some(VolCopy(r.value.0, r.value.1, r.value.2, r.value.3)) else None
    case _ => None
  }

  function ExportFromWire(name: string, p: Params): (r: Option<Call>)
    ensures r.Some? ==> MethodName(r.value) == name && ParamsOf(r.value) == p
  {
    match name
    case "export_list" => if p == map[] then Some(ExportList) else None
    case "export_create" =>
      var r := Str3Int(p, "pool", "vol", "initiator_wwn", "lun");
      if r.Some? then Some(ExportCreate(r.value.0, r.value.1, r.value.2, r.value.3)) else None
    case "export_destroy" =>
      var r := Str3(p, "pool", "vol", "initiator_wwn");
      if r.Some? then Some(ExportDestroy(r.value.0, r.value.1, r.value.2)) else None
    case _ => None
  }

  function InitiatorFromWire(name: string, p: Params): (r: Option<Call>)
    ensures r.Some? ==> MethodName(r.value) == name && ParamsOf(r.value) == p
  {
    match name
    case "initiator_set_auth" => AuthParams(p)
    case "initiator_list" => InitiatorListParams(p)
    case _ => None
  }

  /** The group operations, then the "init_..." and "map_..." ones. */
  function AccessGroupFromWire(name: string, p: Params): (r: Option<Call>)
    ensures r.Some? ==> MethodName(r.value) == name && ParamsOf(r.value) == p
  {
    match name
      case "access_group_map_list" | "access_group_map_create" | "access_group_map_destroy" =>
        AccessGroupMapFromWire(name, p)
      case "access_group_init_add" | "access_group_init_del" => AccessGroupInitFromWire(name, p)
      case "access_group_list" => if p == map[] then Some(AccessGroupList) else None
      case "access_group_create" =>
        var r := Str3(p, "ag_name", "init_id", "init_type");
        if r.Some? then Some(AccessGroupCreate(r.value.0, r.value.1, r.value.2)) else None
      case "access_group_destroy" =>
        var r := Str1(p, "ag_name"); if r.Some? then Some(AccessGroupDestroy(r.value)) else None
      case _ => None
  }

  function AccessGroupInitFromWire(name: string, p: Params): (r: Option<Call>)
    ensures r.Some? ==> MethodName(r.value) == name && ParamsOf(r.value) == p
  {
    var r := Str3(p, "ag_name", "init_id", "init_type");
    if r.None? then None
    else if name == "access_group_init_add" then Some(AccessGroupInitAdd(r.value.0, r.value.1, r.value.2))
    else if name == "access_group_init_del" then Some(AccessGroupInitDel(r.value.0, r.value.1, r.value.2))
    else None
  }

  function AccessGroupMapFromWire(name: string, p: Params): (r: Option<Call>)
    ensures r.Some? ==> MethodName(r.value) == name && ParamsOf(r.value) == p
  {
    match name
    case "access_group_map_list" => if p == map[] then Some(AccessGroupMapList) else None
    case "access_group_map_create" => MapCreateParams(p)
    case "access_group_map_destroy" =>
      var r := Str3(p, "pool_name", "vol_name", "ag_name");
      if r.Some? then Some(AccessGroupMapDestroy(r.value.0, r.value.1, r.value.2)) else None
    case _ => None
  }

  /** The file-system operations, then the snapshot ones. */
  function FsFromWire(name: string, p: Params): (r: Option<Call>)
    ensures r.Some? ==> MethodName(r.value) == name && ParamsOf(r.value) == p
  {
    match name
    case "fs_snapshot" | "fs_snapshot_delete" => FsSnapshotFromWire(name, p)
    case "fs_create" | "fs_clone" => FsMakeFromWire(name, p)
    case "fs_list" => if p == map[] then Some(FsList) else None
    case "fs_destroy" => var r := Str1(p, "uuid"); if r.Some? then Some(FsDestroy(r.value)) else None
    case _ => None
  }

  /** The two calls that make a file system: "fs_create" and "fs_clone". */
  function FsMakeFromWire(name: string, p: Params): (r: Option<Call>)
    ensures r.Some? ==> MethodName(r.value) == name && ParamsOf(r.value) == p
  {
    if name == "fs_create" then
      var r := Str2Int(p, "pool_name", "name", "size_bytes");
      if r.Some? then Some(FsCreate(r.value.0, r.value.1, r.value.2)) else None
    else if name == "fs_clone" then
      var r := Str3(p, "fs_uuid", "dest_fs_name", "snapshot_id");
      if r.Some? then Some(FsClone(r.value.0, r.value.1, r.value.2)) else None
    else None
  }

  function FsSnapshotFromWire(name: string, p: Params): (r: Option<Call>)
    ensures r.Some? ==> MethodName(r.value) == name && ParamsOf(r.value) == p
  {
    match name
    case "fs_snapshot" =>
      var r := Str2(p, "fs_uuid", "dest_ss_name"); if r.Some? then Some(FsSnapshot(r.value.0, r.value.1)) else None
    case "fs_snapshot_delete" =>
      var r := Str2(p, "fs_uuid", "ss_uuid");
      if r.Some? then Some(FsSnapshotDelete(r.value.0, r.value.1)) else None
    case _ => None
  }

  function SnapshotFromWire(name: string, p: Params): (r: Option<Call>)
    ensures r.Some? ==> MethodName(r.value) == name && ParamsOf(r.value) == p
  {
    var r := Str1(p, "fs_uuid");
    if name == "ss_list" && r.Some? then Some(SsList(r.value)) else None
  }

  function NfsFromWire(name: string, p: Params): (r: Option<Call>)
    ensures r.Some? ==> MethodName(r.value) == name && ParamsOf(r.value) == p
  {
    match name
    case "nfs_export_auth_list" => if p == map[] then Some(NfsExportAuthList) else None
    case "nfs_export_list" => if p == map[] then Some(NfsExportList) else None
    case "nfs_export_add" => NfsAddParams(p)
    case "nfs_export_remove" =>
      var r := Str2(p, "host", "path"); if r.Some? then Some(NfsExportRemove(r.value.0, r.value.1)) else None
    case _ => None
  }

  /** How the daemon reads a request: the call whose method name and
      parameter object these are, if the object has exactly that call's keys
      with values of the right kinds. The names are told apart by family
      first (their first letter), then within the family. */
  function FromWire(name: string, p: Params): (r: Option<Call>)
    ensures r.Some? ==> MethodName(r.value) == name && ParamsOf(r.value) == p
  {
    if name == [] then None
    else match name[0]
      case 'p' => PoolFromWire(name, p)
      case 'v' => VolumeFromWire(name, p)
      case 'e' => ExportFromWire(name, p)
      case 'i' => InitiatorFromWire(name, p)
      case 'a' => AccessGroupFromWire(name, p)
      case 'f' => FsFromWire(name, p)
      case 's' => SnapshotFromWire(name, p)
      case 'n' => NfsFromWire(name, p)
      case _ => None
  }

  lemma {:induction false} StringsRoundTrip(xs: seq<string>)
    ensures StringsOf(Strings(xs)) == Some(xs)
  {
    if xs != [] {
      assert Strings(xs)[1..] == Strings(xs[1..]);
      StringsRoundTrip(xs[1..]);
      assert xs == [xs[0]] + xs[1..];
    }
  }

  lemma {:induction false} StringsOfExact(vs: seq<Value>)
    requires StringsOf(vs).Some?
    ensures Strings(StringsOf(vs).value) == vs
  {
    if vs != [] {
      StringsOfExact(vs[1..]);
      assert StringsOf(vs).value[1..] == StringsOf(vs[1..]).value;
    }
  }

  /** The daemon reads back exactly the call that was sent. */
  predicate ReadsBack(c: Call) {
    FromWire(MethodName(c), ParamsOf(c)) == Some(c)
  }

  /* One lemma per call keeps each proof about the wire format small; each
     names the method string and the first letter the decoder dispatches on. */

  lemma PoolListReadsBack()
    ensures ReadsBack(PoolList)
  {
    var m := MethodName(PoolList);
    assert m == "pool_list";
    assert m[0] == 'p';
  }

  lemma VolListReadsBack(pool: string)
    ensures ReadsBack(VolList(pool))
  {
    var m := MethodName(VolList(pool));
    assert m == "vol_list";
    assert m[0] == 'v';
  }

  lemma VolCreateReadsBack(pool: string, name: string, size: int)
    ensures ReadsBack(VolCreate(pool, name, size))
  {
    var m := MethodName(VolCreate(pool, name, size));
    assert m == "vol_create";
    assert m[0] == 'v';
  }

  lemma VolDestroyReadsBack(pool: string, name: string)
    ensures ReadsBack(VolDestroy(pool, name))
  {
    var m := MethodName(VolDestroy(pool, name));
    assert m == "vol_destroy";
    assert m[0] == 'v';
  }

  lemma VolCopyReadsBack(pool: string, volOrig: string, volNew: string, size: int)
    ensures ReadsBack(VolCopy(pool, volOrig, volNew, size))
  {
    var m := MethodName(VolCopy(pool, volOrig, volNew, size));
    assert m == "vol_copy";
    assert m[0] == 'v';
  }

  lemma ExportListReadsBack()
    ensures ReadsBack(ExportList)
  {
    var m := MethodName(ExportList);
    assert m == "export_list";
    assert m[0] == 'e';
  }

  lemma ExportCreateReadsBack(pool: string, vol: string, initiatorWwn: string, lun: int)
    ensures ReadsBack(ExportCreate(pool, vol, initiatorWwn, lun))
  {
    var m := MethodName(ExportCreate(pool, vol, initiatorWwn, lun));
    assert m == "export_create";
    assert m[0] == 'e';
  }

  lemma ExportDestroyReadsBack(pool: string, vol: string, initiatorWwn: string)
    ensures ReadsBack(ExportDestroy(pool, vol, initiatorWwn))
  {
    var m := MethodName(ExportDestroy(pool, vol, initiatorWwn));
    assert m == "export_destroy";
    assert m[0] == 'e';
  }

  lemma InitiatorSetAuthReadsBack(initiatorWwn: string, inUser: string, inPass: string, outUser: string, outPass: string)
    ensures ReadsBack(InitiatorSetAuth(initiatorWwn, inUser, inPass, outUser, outPass))
  {
    var m := MethodName(InitiatorSetAuth(initiatorWwn, inUser, inPass, outUser, outPass));
    assert m == "initiator_set_auth";
    assert m[0] == 'i';
  }

  lemma InitiatorListReadsBack(standaloneOnly: bool)
    ensures ReadsBack(InitiatorList(standaloneOnly))
  {
    var m := MethodName(InitiatorList(standaloneOnly));
    assert m == "initiator_list";
    assert m[0] == 'i';
  }

  lemma AccessGroupListReadsBack()
    ensures ReadsBack(AccessGroupList)
  {
    var m := MethodName(AccessGroupList);
    assert m == "access_group_list";
    assert m[0] == 'a';
  }

  lemma AccessGroupCreateReadsBack(agName: string, initId: string, initType: string)
    ensures ReadsBack(AccessGroupCreate(agName, initId, initType))
  {
    var m := MethodName(AccessGroupCreate(agName, initId, initType));
    assert m == "access_group_create";
    assert m[0] == 'a';
  }

  lemma AccessGroupDestroyReadsBack(agName: string)
    ensures ReadsBack(AccessGroupDestroy(agName))
  {
    var m := MethodName(AccessGroupDestroy(agName));
    assert m == "access_group_destroy";
    assert m[0] == 'a';
  }

  lemma AccessGroupInitAddReadsBack(agName: string, initId: string, initType: string)
    ensures ReadsBack(AccessGroupInitAdd(agName, initId, initType))
  {
    var m := MethodName(AccessGroupInitAdd(agName, initId, initType));
    assert m == "access_group_init_add";
    assert m[0] == 'a';
  }

  lemma AccessGroupInitDelReadsBack(agName: string, initId: string, initType: string)
    ensures ReadsBack(AccessGroupInitDel(agName, initId, initType))
  {
    var m := MethodName(AccessGroupInitDel(agName, initId, initType));
    assert m == "access_group_init_del";
    assert m[0] == 'a';
  }

  lemma AccessGroupMapListReadsBack()
    ensures ReadsBack(AccessGroupMapList)
  {
    var m := MethodName(AccessGroupMapList);
    assert m == "access_group_map_list";
    assert m[0] == 'a';
  }

  lemma AccessGroupMapCreateReadsBack(poolName: string, volName: string, agName: string, hLunId: Option<int>)
    ensures ReadsBack(AccessGroupMapCreate(poolName, volName, agName, hLunId))
  {
    var m := MethodName(AccessGroupMapCreate(poolName, volName, agName, hLunId));
    assert m == "access_group_map_create";
    assert m[0] == 'a';
  }

  lemma AccessGroupMapDestroyReadsBack(poolName: string, volName: string, agName: string)
    ensures ReadsBack(AccessGroupMapDestroy(poolName, volName, agName))
  {
    var m := MethodName(AccessGroupMapDestroy(poolName, volName, agName));
    assert m == "access_group_map_destroy";
    assert m[0] == 'a';
  }

  lemma FsListReadsBack()
    ensures ReadsBack(FsList)
  {
    var m := MethodName(FsList);
    assert m == "fs_list";
    assert m[0] == 'f';
  }

  lemma FsDestroyReadsBack(uuid: string)
    ensures ReadsBack(FsDestroy(uuid))
  {
    var m := MethodName(FsDestroy(uuid));
    assert m == "fs_destroy";
    assert m[0] == 'f';
  }

  lemma FsCreateReadsBack(poolName: string, name: string, sizeBytes: int)
    ensures ReadsBack(FsCreate(poolName, name, sizeBytes))
  {
    var m := MethodName(FsCreate(poolName, name, sizeBytes));
    assert m == "fs_create";
    assert m[0] == 'f';
  }

  lemma FsCloneReadsBack(fsUuid: string, destFsName: string, snapshotId: string)
    ensures ReadsBack(FsClone(fsUuid, destFsName, snapshotId))
  {
    var m := MethodName(FsClone(fsUuid, destFsName, snapshotId));
    assert m == "fs_clone";
    assert m[0] == 'f';
  }

  lemma SsListReadsBack(fsUuid: string)
    ensures ReadsBack(SsList(fsUuid))
  {
    var m := MethodName(SsList(fsUuid));
    assert m == "ss_list";
    assert m[0] == 's';
  }

  lemma FsSnapshotReadsBack(fsUuid: string, destSsName: string)
    ensures ReadsBack(FsSnapshot(fsUuid, destSsName))
  {
    var m := MethodName(FsSnapshot(fsUuid, destSsName));
    assert m == "fs_snapshot";
    assert m[0] == 'f';
  }

  lemma FsSnapshotDeleteReadsBack(fsUuid: string, ssUuid: string)
    ensures ReadsBack(FsSnapshotDelete(fsUuid, ssUuid))
  {
    var m := MethodName(FsSnapshotDelete(fsUuid, ssUuid));
    assert m == "fs_snapshot_delete";
    assert m[0] == 'f';
  }

  lemma NfsExportAuthListReadsBack()
    ensures ReadsBack(NfsExportAuthList)
  {
    var m := MethodName(NfsExportAuthList);
    assert m == "nfs_export_auth_list";
    assert m[0] == 'n';
  }

  lemma NfsExportListReadsBack()
    ensures ReadsBack(NfsExportList)
  {
    var m := MethodName(NfsExportList);
    assert m == "nfs_export_list";
    assert m[0] == 'n';
  }

  lemma NfsExportAddReadsBack(host: string, path: string, options: seq<string>, chown: string)
    ensures ReadsBack(NfsExportAdd(host, path, options, chown))
  {
    var c := NfsExportAdd(host, path, options, chown);
    var m := MethodName(c);
    assert m == "nfs_export_add";
    assert m[0] == 'n';
    var p := ParamsOf(c);
    assert p.Keys == {"host", "path", "options", "chown"};
    StringsRoundTrip(options);
    assert NfsAddParams(p) == Some(c);
  }

  lemma NfsExportRemoveReadsBack(host: string, path: string)
    ensures ReadsBack(NfsExportRemove(host, path))
  {
    var m := MethodName(NfsExportRemove(host, path));
    assert m == "nfs_export_remove";
    assert m[0] == 'n';
  }

  /** Every call can be read back from what it sends: the method names are
      distinct and every argument travels under its own key. */
  lemma WireRoundTrip(c: Call)
    ensures FromWire(MethodName(c), ParamsOf(c)) == Some(c)
  {
    match c
    case PoolList => PoolListReadsBack();
    case VolList(pool) => VolListReadsBack(pool);
    case VolCreate(pool, name, size) => VolCreateReadsBack(pool, name, size);
    case VolDestroy(pool, name) => VolDestroyReadsBack(pool, name);
    case VolCopy(pool, volOrig, volNew, size) => VolCopyReadsBack(pool, volOrig, volNew, size);
    case ExportList => ExportListReadsBack();
    case ExportCreate(pool, vol, initiatorWwn, lun) => ExportCreateReadsBack(pool, vol, initiatorWwn, lun);
    case ExportDestroy(pool, vol, initiatorWwn) => ExportDestroyReadsBack(pool, vol, initiatorWwn);
    case InitiatorSetAuth(initiatorWwn, inUser, inPass, outUser, outPass) => InitiatorSetAuthReadsBack(initiatorWwn, inUser, inPass, outUser, outPass);
    case InitiatorList(standaloneOnly) => InitiatorListReadsBack(standaloneOnly);
    case AccessGroupList => AccessGroupListReadsBack();
    case AccessGroupCreate(agName, initId, initType) => AccessGroupCreateReadsBack(agName, initId, initType);
    case AccessGroupDestroy(agName) => AccessGroupDestroyReadsBack(agName);
    case AccessGroupInitAdd(agName, initId, initType) => AccessGroupInitAddReadsBack(agName, initId, initType);
    case AccessGroupInitDel(agName, initId, initType) => AccessGroupInitDelReadsBack(agName, initId, initType);
    case AccessGroupMapList => AccessGroupMapListReadsBack();
    case AccessGroupMapCreate(poolName, volName, agName, hLunId) => AccessGroupMapCreateReadsBack(poolName, volName, agName, hLunId);
    case AccessGroupMapDestroy(poolName, volName, agName) => AccessGroupMapDestroyReadsBack(poolName, volName, agName);
    case FsList => FsListReadsBack();
    case FsDestroy(uuid) => FsDestroyReadsBack(uuid);
    case FsCreate(poolName, name, sizeBytes) => FsCreateReadsBack(poolName, name, sizeBytes);
    case FsClone(fsUuid, destFsName, snapshotId) => FsCloneReadsBack(fsUuid, destFsName, snapshotId);
    case SsList(fsUuid) => SsListReadsBack(fsUuid);
    case FsSnapshot(fsUuid, destSsName) => FsSnapshotReadsBack(fsUuid, destSsName);
    case FsSnapshotDelete(fsUuid, ssUuid) => FsSnapshotDeleteReadsBack(fsUuid, ssUuid);
    case NfsExportAuthList => NfsExportAuthListReadsBack();
    case NfsExportList => NfsExportListReadsBack();
    case NfsExportAdd(host, path, options, chown) => NfsExportAddReadsBack(host, path, options, chown);
    case NfsExportRemove(host, path) => NfsExportRemoveReadsBack(host, path);
  }
}
