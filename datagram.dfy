/** Bus datagrams: a command, its parameters, a task id, an ordered list of
    file descriptors and one metadata entry per descriptor.  The serialised
    form handed to the transport is a JSON value tree; the text encoding of
    JSON is left abstract. */
module Datagram {
  import opened Wrappers
  import opened Strings
  import opened Command

  /** Descriptor roles, carried as the 'type' entry of a descriptor's metadata. */
  type FdType = string

  const SBUS_FD_INPUT_OBJECT: FdType := "SBUS_FD_INPUT_OBJECT"
  const SBUS_FD_OUTPUT_OBJECT: FdType := "SBUS_FD_OUTPUT_OBJECT"
  const SBUS_FD_OUTPUT_OBJECT_METADATA: FdType := "SBUS_FD_OUTPUT_OBJECT_METADATA"
  const SBUS_FD_OUTPUT_OBJECT_AND_METADATA: FdType := "SBUS_FD_OUTPUT_OBJECT_AND_METADATA"
  const SBUS_FD_LOGGER: FdType := "SBUS_FD_LOGGER"
  const SBUS_FD_OUTPUT_CONTAINER: FdType := "SBUS_FD_OUTPUT_CONTAINER"
  const SBUS_FD_OUTPUT_TASK_ID: FdType := "SBUS_FD_OUTPUT_TASK_ID"
  const SBUS_FD_SERVICE_OUT: FdType := "SBUS_FD_SERVICE_OUT"

  const STORLETS_KEY: string := "storlets"
  const STORAGE_KEY: string := "storage"
  const TYPE_KEY: string := "type"

  const BARE_MESSAGE: string := "SBusDatagram class should not be initialized as bare"
  const NO_TYPES_MESSAGE: string := "SBusDatagram class should define _required_fd_types"
  const FD_TYPE_MISMATCH_PREFIX: string := "Fd type mismatch given_fd_types"

  // ---------------------------------------------------------------------
  // Descriptor metadata

  /** FDMetadata: a role plus sender-side and transport-side metadata. */
  datatype FDMetadata = FDMetadata(fdtype: FdType, storletsMetadata: map<string, string>, storageMetadata: map<string, string>)

  /** The dictionary form of FDMetadata:
      {'storlets': {..., 'type': fdtype}, 'storage': {...}}. */
  datatype MetadataDict = MetadataDict(storlets: map<string, string>, storage: map<string, string>)

  /** FDMetadata.to_dict. */
  function ToDict(md: FDMetadata): MetadataDict {
    MetadataDict(md.storletsMetadata[TYPE_KEY := md.fdtype], md.storageMetadata)
  }

  /** FDMetadata.from_dict: pops 'type' out of the storlets part (a KeyError
      when it is missing). */
  function FromDict(d: MetadataDict): Result<FDMetadata, DatagramError> {
    if TYPE_KEY in d.storlets then Ok(FDMetadata(d.storlets[TYPE_KEY], d.storlets - {TYPE_KEY}, d.storage))
    else Err(MissingKey(TYPE_KEY))
  }

  /** FDMetadata(t).to_dict(): a role with no further metadata. */
  function PlainMetadata(t: FdType): MetadataDict {
    ToDict(FDMetadata(t, map[], map[]))
  }

  /** from_dict recovers what to_dict was given, provided the sender metadata
      does not itself use the key 'type' (to_dict would overwrite it). */
  lemma FromDictToDict(md: FDMetadata)
    requires TYPE_KEY !in md.storletsMetadata
    ensures FromDict(ToDict(md)) == Ok(md)
  {
    assert ToDict(md).storlets - {TYPE_KEY} == md.storletsMetadata;
  }

  /** to_dict rebuilds every dictionary from_dict accepts. */
  lemma ToDictFromDict(d: MetadataDict)
    requires FromDict(d).Ok?
    ensures ToDict(FromDict(d).value) == d
  {
    assert (d.storlets - {TYPE_KEY})[TYPE_KEY := d.storlets[TYPE_KEY]] == d.storlets;
  }

  /** The test example: type and sender metadata nest under 'storlets',
      transport metadata under 'storage'. */
  lemma ToDictExample()
    ensures ToDict(FDMetadata("MYTYPE", map["storlets_key" := "storlets_value"], map["storage_key" := "storage_value"]))
         == MetadataDict(map["type" := "MYTYPE", "storlets_key" := "storlets_value"], map["storage_key" := "storage_value"])
  {
  }

  // ---------------------------------------------------------------------
  // Errors

  datatype DatagramError =
    | NotImplementedError(message: string)
    | FdTypeMismatch(given: seq<FdType>, required: seq<FdType>)
    | FdNumMismatch(numFds: nat, numMetadata: nat)
    | MissingKey(key: string)
    | MalformedMessage

  function ShowList(items: seq<string>): string {
    "[" + Join(seq(|items|, i requires 0 <= i < |items| => "'" + items[i] + "'"), ", ") + "]"
  }

  function ErrorMessage(e: DatagramError): string {
    match e
    case NotImplementedError(m) => m
    case FdTypeMismatch(g, r) => FD_TYPE_MISMATCH_PREFIX + ":" + ShowList(g) + " required_fd_types:" + ShowList(r)
    case FdNumMismatch(n, m) => "Length mismatch fds: " + NatToString(n) + " metadata: " + NatToString(m)
    case MissingKey(k) => k
    case MalformedMessage => "malformed message"
  }

  /** A role mismatch names itself first, for diagnosability. */
  lemma MismatchMessagePrefix(given: seq<FdType>, required: seq<FdType>)
    ensures StartsWith(ErrorMessage(FdTypeMismatch(given, required)), FD_TYPE_MISMATCH_PREFIX)
  {
    var m := ErrorMessage(FdTypeMismatch(given, required));
    assert m == FD_TYPE_MISMATCH_PREFIX + (":" + ShowList(given) + " required_fd_types:" + ShowList(required));
    assert m[..|FD_TYPE_MISMATCH_PREFIX|] == FD_TYPE_MISMATCH_PREFIX;
  }

  // ---------------------------------------------------------------------
  // Datagram kinds and the role check

  /** The two concrete datagram classes. */
  datatype Kind = ServiceKind | ExecuteKind

  /** What is instantiated: the bare base class, a subclass that forgot its
      required roles, or one of the two concrete classes. */
  datatype DatagramClass = BareClass | NoRequiredTypesClass | Concrete(kind: Kind)

  /** _required_fd_types of each concrete class. */
  function RequiredFdTypes(k: Kind): seq<FdType> {
    match k
    case ServiceKind => [SBUS_FD_SERVICE_OUT]
    case ExecuteKind => [SBUS_FD_INPUT_OBJECT, SBUS_FD_OUTPUT_TASK_ID, SBUS_FD_OUTPUT_OBJECT,
                         SBUS_FD_OUTPUT_OBJECT_METADATA, SBUS_FD_LOGGER]
  }

  /** given_fd_types[:len(required)] == required. */
  predicate HasRequiredPrefix(k: Kind, given: seq<FdType>) {
    var required := RequiredFdTypes(k);
    |required| <= |given| && given[..|required|] == required
  }

  /** _check_required_fd_types. */
  function CheckRequiredFdTypes(k: Kind, given: seq<FdType>): (r: Outcome<DatagramError>)
    ensures r.Fail? ==> r.error == FdTypeMismatch(given, RequiredFdTypes(k))
  {
    if HasRequiredPrefix(k, given) then Pass else Fail(FdTypeMismatch(given, RequiredFdTypes(k)))
  }

  /** Fewer roles than required (the empty list in particular) are rejected. */
  lemma CheckRejectsShort(k: Kind, given: seq<FdType>)
    requires |given| < |RequiredFdTypes(k)|
    ensures CheckRequiredFdTypes(k, given) == Fail(FdTypeMismatch(given, RequiredFdTypes(k)))
  {
  }

  /** A role other than the first required one, put in front, is rejected. */
  lemma CheckRejectsPrepended(k: Kind, t: FdType, given: seq<FdType>)
    requires t != RequiredFdTypes(k)[0]
    ensures CheckRequiredFdTypes(k, [t] + given).Fail?
  {
    var g := [t] + given;
    assert |RequiredFdTypes(k)| >= 1 && g[0] == t;
  }

  /** Only the first len(required) roles are checked: trailing roles of any
      kind are tolerated. */
  lemma CheckAcceptsExtension(k: Kind, given: seq<FdType>, extra: seq<FdType>)
    requires CheckRequiredFdTypes(k, given).Pass?
    ensures CheckRequiredFdTypes(k, given + extra).Pass?
  {
    var n := |RequiredFdTypes(k)|;
    assert (given + extra)[..n] == given[..n];
  }

  /** The execute roles in reverse order are rejected. */
  lemma CheckRejectsReversedExecute()
    ensures CheckRequiredFdTypes(ExecuteKind, [SBUS_FD_LOGGER, SBUS_FD_OUTPUT_OBJECT_METADATA, SBUS_FD_OUTPUT_OBJECT,
                                               SBUS_FD_OUTPUT_TASK_ID, SBUS_FD_INPUT_OBJECT]).Fail?
  {
    CheckRejectsPrepended(ExecuteKind, SBUS_FD_LOGGER, [SBUS_FD_OUTPUT_OBJECT_METADATA, SBUS_FD_OUTPUT_OBJECT,
                                                        SBUS_FD_OUTPUT_TASK_ID, SBUS_FD_INPUT_OBJECT]);
  }

  /** _check_fd_nums. */
  function CheckFdNums(fds: seq<int>, metadata: seq<MetadataDict>): (r: Outcome<DatagramError>)
    ensures r.Pass? <==> |fds| == |metadata|
    ensures r.Fail? ==> r.error == FdNumMismatch(|fds|, |metadata|)
  {
    if |fds| != |metadata| then Fail(FdNumMismatch(|fds|, |metadata|)) else Pass
  }

  // ---------------------------------------------------------------------
  // Datagrams

  datatype Datagram = Datagram(
    kind: Kind,
    command: string,
    fds: seq<int>,
    metadata: seq<MetadataDict>,
    params: map<string, string>,
    taskId: string)

  /** Every metadata entry names its role. */
  predicate Typed(metadata: seq<MetadataDict>) {
    forall i :: 0 <= i < |metadata| ==> TYPE_KEY in metadata[i].storlets
  }

  /** The roles of the descriptors, in order: md['storlets']['type']. */
  function TypesOf(metadata: seq<MetadataDict>): (ts: seq<FdType>)
    requires Typed(metadata)
    ensures |ts| == |metadata|
    ensures forall i :: 0 <= i < |metadata| ==> ts[i] == metadata[i].storlets[TYPE_KEY]
  {
    seq(|metadata|, i requires 0 <= i < |metadata| => metadata[i].storlets[TYPE_KEY])
  }

  /** What construction guarantees of every datagram object. */
  predicate WellFormed(d: Datagram) {
    && Typed(d.metadata)
    && HasRequiredPrefix(d.kind, TypesOf(d.metadata))
    && |d.fds| == |d.metadata|
  }

  /** SBusDatagram.__init__ for the class `cls`: the class checks first, then
      the role prefix, then the two lengths. */
  function NewDatagram(cls: DatagramClass, command: string, fds: seq<int>, metadata: seq<MetadataDict>,
                       params: map<string, string>, taskId: string): (r: Result<Datagram, DatagramError>)
    ensures r.Ok? <==> cls.Concrete? && Typed(metadata) && HasRequiredPrefix(cls.kind, TypesOf(metadata)) && |fds| == |metadata|
    ensures r.Ok? ==> WellFormed(r.value) && r.value == Datagram(cls.kind, command, fds, metadata, params, taskId)
    ensures cls == BareClass ==> r == Err(NotImplementedError(BARE_MESSAGE))
    ensures cls == NoRequiredTypesClass ==> r == Err(NotImplementedError(NO_TYPES_MESSAGE))
    ensures cls.Concrete? && Typed(metadata) && !HasRequiredPrefix(cls.kind, TypesOf(metadata))
            ==> r == Err(FdTypeMismatch(TypesOf(metadata), RequiredFdTypes(cls.kind)))
  {
    match cls
    case BareClass => Err(NotImplementedError(BARE_MESSAGE))
    case NoRequiredTypesClass => Err(NotImplementedError(NO_TYPES_MESSAGE))
    case Concrete(k) =>
      if !Typed(metadata) then Err(MissingKey(TYPE_KEY))
      else match CheckRequiredFdTypes(k, TypesOf(metadata))
        case Fail(e) => Err(e)
        case Pass =>
          match CheckFdNums(fds, metadata)
          case Fail(e) => Err(e)
          case Pass => Ok(Datagram(k, command, fds, metadata, params, taskId))
  }

  /** num_fds: one per role. */
  function NumFds(d: Datagram): (n: nat)
    requires WellFormed(d)
    ensures n == |TypesOf(d.metadata)|
  {
    |d.fds|
  }

  // ---------------------------------------------------------------------
  // Descriptor lookup by role

  /** The descriptors whose role is t, in order. */
  function FdsOfType(fds: seq<int>, types: seq<FdType>, t: FdType): (r: seq<int>)
    requires |fds| == |types|
    ensures |r| <= |fds|
  {
    if fds == [] then []
    else (if types[0] == t then [fds[0]] else []) + FdsOfType(fds[1..], types[1..], t)
  }

  /** Position of the first role t, or |types| when there is none. */
  function FirstIndexOf(types: seq<FdType>, t: FdType): (i: nat)
    ensures i <= |types|
    ensures i < |types| ==> types[i] == t
    ensures forall j :: 0 <= j < i ==> types[j] != t
  {
    if types == [] then 0 else if types[0] == t then 0 else 1 + FirstIndexOf(types[1..], t)
  }

  /** Every descriptor of role t is found, and only those are.*/
  lemma {:induction false} FdsOfTypeExactly(fds: seq<int>, types: seq<FdType>, t: FdType, x: int)
    requires |fds| == |types|
    ensures x in FdsOfType(fds, types, t) <==> exists i :: 0 <= i < |fds| && types[i] == t && fds[i] == x
  {
    if fds != [] {
      FdsOfTypeExactly(fds[1..], types[1..], t, x);
      var rest := FdsOfType(fds[1..], types[1..], t);
      if x in rest {
        var i :| 0 <= i < |fds| - 1 && types[1..][i] == t && fds[1..][i] == x;
        assert types[i + 1] == t && fds[i + 1] == x;
      }
      if exists i :: 0 <= i < |fds| && types[i] == t && fds[i] == x {
        var i :| 0 <= i < |fds| && types[i] == t && fds[i] == x;
        if i > 0 {
          assert types[1..][i - 1] == t && fds[1..][i - 1] == x;
        }
      }
    }
  }

  /** The lookup is empty exactly when no descriptor has the role, and
      otherwise begins with the first descriptor of that role. */
  lemma {:induction false} FdsOfTypeFirst(fds: seq<int>, types: seq<FdType>, t: FdType)
    requires |fds| == |types|
    ensures FdsOfType(fds, types, t) == [] <==> FirstIndexOf(types, t) == |types|
    ensures FirstIndexOf(types, t) < |types| ==> FdsOfType(fds, types, t)[0] == fds[FirstIndexOf(types, t)]
  {
    if fds != [] && types[0] != t {
      FdsOfTypeFirst(fds[1..], types[1..], t);
    }
  }

  /** _find_fds. */
  function FindFds(d: Datagram, t: FdType): seq<int>
    requires WellFormed(d)
  {
    FdsOfType(d.fds, TypesOf(d.metadata), t)
  }

  /** _find_fd: the first descriptor of role t, or None. */
  function FindFd(d: Datagram, t: FdType): (r: Option<int>)
    requires WellFormed(d)
    ensures var i := FirstIndexOf(TypesOf(d.metadata), t);
            r == if i < |d.fds| then Some(d.fds[i]) else None
  {
    FdsOfTypeFirst(d.fds, TypesOf(d.metadata), t);
    var found := FindFds(d, t);
    if found == [] then None else Some(found[0])
  }

  /** The storage-side metadata of the descriptors whose role is t. */
  function StorageOfType(metadata: seq<MetadataDict>, types: seq<FdType>, t: FdType): (r: seq<map<string, string>>)
    requires |metadata| == |types|
  {
    if metadata == [] then []
    else (if types[0] == t then [metadata[0].storage] else []) + StorageOfType(metadata[1..], types[1..], t)
  }

  lemma {:induction false} StorageOfTypeLength(fds: seq<int>, metadata: seq<MetadataDict>, types: seq<FdType>, t: FdType)
    requires |fds| == |metadata| == |types|
    ensures |StorageOfType(metadata, types, t)| == |FdsOfType(fds, types, t)|
  {
    if fds != [] {
      StorageOfTypeLength(fds[1..], metadata[1..], types[1..], t);
    }
  }

  /** The role at index k of a well-formed datagram, when k is inside the
      required prefix. */
  lemma RequiredRoleAt(d: Datagram, k: nat)
    requires WellFormed(d) && k < |RequiredFdTypes(d.kind)|
    ensures TypesOf(d.metadata)[k] == RequiredFdTypes(d.kind)[k]
  {
    var n := |RequiredFdTypes(d.kind)|;
    assert TypesOf(d.metadata)[..n][k] == TypesOf(d.metadata)[k];
  }

  /** Lookup of a role that first occurs at index k of the required prefix. */
  lemma FirstRequiredRole(d: Datagram, k: nat)
    requires WellFormed(d) && k < |RequiredFdTypes(d.kind)|
    requires forall j :: 0 <= j < k ==> RequiredFdTypes(d.kind)[j] != RequiredFdTypes(d.kind)[k]
    ensures FirstIndexOf(TypesOf(d.metadata), RequiredFdTypes(d.kind)[k]) == k
  {
    forall j | 0 <= j <= k ensures TypesOf(d.metadata)[j] == RequiredFdTypes(d.kind)[j] {
      RequiredRoleAt(d, j);
    }
  }

  // ---------------------------------------------------------------------
  // Role accessors

  predicate IsExecute(d: Datagram) { WellFormed(d) && d.kind == ExecuteKind }
  predicate IsService(d: Datagram) { WellFormed(d) && d.kind == ServiceKind }

  /** SBusServiceDatagram.service_out_fd. */
  function ServiceOutFd(d: Datagram): (fd: int)
    requires IsService(d)
    ensures fd == d.fds[0]
  {
    FirstRequiredRole(d, 0);
    FindFd(d, SBUS_FD_SERVICE_OUT).value
  }

  /** object_in_fds: every input-object descriptor, the required one first. */
  function ObjectInFds(d: Datagram): (fds: seq<int>)
    requires IsExecute(d)
    ensures |fds| >= 1 && fds[0] == d.fds[0]
  {
    FirstRequiredRole(d, 0);
    FdsOfTypeFirst(d.fds, TypesOf(d.metadata), SBUS_FD_INPUT_OBJECT);
    FindFds(d, SBUS_FD_INPUT_OBJECT)
  }

  /** object_in_metadata: the storage metadata of each input object. */
  function ObjectInMetadata(d: Datagram): (mds: seq<map<string, string>>)
    requires IsExecute(d)
    ensures |mds| == |ObjectInFds(d)|
  {
    StorageOfTypeLength(d.fds, d.metadata, TypesOf(d.metadata), SBUS_FD_INPUT_OBJECT);
    StorageOfType(d.metadata, TypesOf(d.metadata), SBUS_FD_INPUT_OBJECT)
  }

  /** task_id_out_fd. */
  function TaskIdOutFd(d: Datagram): (fd: int)
    requires IsExecute(d)
    ensures fd == d.fds[1]
  {
    FirstRequiredRole(d, 1);
    FindFd(d, SBUS_FD_OUTPUT_TASK_ID).value
  }

  /** object_out_fds. */
  function ObjectOutFds(d: Datagram): (fds: seq<int>)
    requires IsExecute(d)
    ensures |fds| >= 1 && fds[0] == d.fds[2]
  {
    FirstRequiredRole(d, 2);
    FdsOfTypeFirst(d.fds, TypesOf(d.metadata), SBUS_FD_OUTPUT_OBJECT);
    FindFds(d, SBUS_FD_OUTPUT_OBJECT)
  }

  /** object_metadata_out_fds. */
  function ObjectMetadataOutFds(d: Datagram): (fds: seq<int>)
    requires IsExecute(d)
    ensures |fds| >= 1 && fds[0] == d.fds[3]
  {
    FirstRequiredRole(d, 3);
    FdsOfTypeFirst(d.fds, TypesOf(d.metadata), SBUS_FD_OUTPUT_OBJECT_METADATA);
    FindFds(d, SBUS_FD_OUTPUT_OBJECT_METADATA)
  }

  /** logger_out_fd. */
  function LoggerOutFd(d: Datagram): (fd: int)
    requires IsExecute(d)
    ensures fd == d.fds[4]
  {
    FirstRequiredRole(d, 4);
    FindFd(d, SBUS_FD_LOGGER).value
  }

  // ---------------------------------------------------------------------
  // Serialisation

  /** A JSON value; the text layer of json.dumps / json.loads is abstracted. */
  datatype Json = JString(str: string) | JArray(items: seq<Json>) | JObject(fields: map<string, Json>)

  function StrMapToJson(m: map<string, string>): Json {
    JObject(map k | k in m :: JString(m[k]))
  }

  function JsonToStrMap(j: Json): Option<map<string, string>> {
    match j
    case JObject(f) =>
      if forall k :: k in f ==> f[k].JString? then Some(map k | k in f :: f[k].str) else None
    case _ => None
  }

  lemma StrMapRoundTrip(m: map<string, string>)
    ensures JsonToStrMap(StrMapToJson(m)) == Some(m)
  {
    var f := StrMapToJson(m).fields;
    assert (map k | k in f :: f[k].str) == m;
  }

  function MetadataDictToJson(d: MetadataDict): Json {
    JObject(map[STORLETS_KEY := StrMapToJson(d.storlets), STORAGE_KEY := StrMapToJson(d.storage)])
  }

  function JsonToMetadataDict(j: Json): Option<MetadataDict> {
    if !j.JObject? || STORLETS_KEY !in j.fields || STORAGE_KEY !in j.fields then None
    else match (JsonToStrMap(j.fields[STORLETS_KEY]), JsonToStrMap(j.fields[STORAGE_KEY]))
      case (Some(a), Some(b)) => Some(MetadataDict(a, b))
      case _ => None
  }

  function JsonToMetadataList(items: seq<Json>): Option<seq<MetadataDict>> {
    if items == [] then Some([])
    else match (JsonToMetadataDict(items[0]), JsonToMetadataList(items[1..]))
      case (Some(m), Some(ms)) => Some([m] + ms)
      case _ => None
  }

  function MetadataListToJson(metadata: seq<MetadataDict>): seq<Json> {
    seq(|metadata|, i requires 0 <= i < |metadata| => MetadataDictToJson(metadata[i]))
  }

  lemma {:induction false} MetadataListRoundTrip(metadata: seq<MetadataDict>)
    ensures JsonToMetadataList(MetadataListToJson(metadata)) == Some(metadata)
  {
    if metadata != [] {
      var js := MetadataListToJson(metadata);
      assert js[1..] == MetadataListToJson(metadata[1..]);
      MetadataListRoundTrip(metadata[1..]);
      StrMapRoundTrip(metadata[0].storlets);
      StrMapRoundTrip(metadata[0].storage);
      assert [metadata[0]] + metadata[1..] == metadata;
    }
  }

  /** serialized_metadata: json.dumps(metadata). */
  function SerializedMetadata(d: Datagram): Json {
    JArray(MetadataListToJson(d.metadata))
  }

  /** cmd_params: {'command': ..., 'params': ..., 'task_id': ...}. */
  datatype CmdParams = CmdParams(command: string, params: map<string, string>, taskId: string)

  function GetCmdParams(d: Datagram): (c: CmdParams)
    ensures c.command == d.command && c.params == d.params && c.taskId == d.taskId
  {
    CmdParams(d.command, d.params, d.taskId)
  }

  function CmdParamsToJson(c: CmdParams): Json {
    JObject(map["command" := JString(c.command), "params" := StrMapToJson(c.params), "task_id" := JString(c.taskId)])
  }

  /** serialized_cmd_params: json.dumps(cmd_params). */
  function SerializedCmdParams(d: Datagram): Json {
    CmdParamsToJson(GetCmdParams(d))
  }

  /** json.loads of the command envelope; a missing 'params' reads as no
      parameters and a missing 'task_id' as the empty id. */
  function JsonToCmdParams(j: Json): Option<CmdParams> {
    if !j.JObject? || "command" !in j.fields || !j.fields["command"].JString? then None
    else
      var params := if "params" in j.fields then JsonToStrMap(j.fields["params"]) else Some(map[]);
      var taskId := if "task_id" in j.fields && j.fields["task_id"].JString? then j.fields["task_id"].str else "";
      match params
      case None => None
      case Some(p) => Some(CmdParams(j.fields["command"].str, p, taskId))
  }

  /** build_datagram_from_raw_message: an execute datagram for the execute
      command, a service datagram for every other command. */
  function BuildDatagramFromRawMessage(fds: seq<int>, strMetadata: Json, strCmdParams: Json): (r: Result<Datagram, DatagramError>)
    ensures r.Ok? ==> WellFormed(r.value) && r.value.fds == fds
    ensures r.Ok? ==> (r.value.kind == ExecuteKind <==> r.value.command == SBUS_CMD_EXECUTE)
  {
    if !strMetadata.JArray? then Err(MalformedMessage)
    else match (JsonToMetadataList(strMetadata.items), JsonToCmdParams(strCmdParams))
      case (Some(metadata), Some(c)) =>
        var kind := if c.command == SBUS_CMD_EXECUTE then ExecuteKind else ServiceKind;
        NewDatagram(Concrete(kind), c.command, fds, metadata, c.params, c.taskId)
      case _ => Err(MalformedMessage)
  }

  /** Round trip: rebuilding from (fds, serialized metadata, serialized
      cmd_params) gives the same command, fds, metadata, params and task id. */
  lemma RawMessageRoundTrip(d: Datagram)
    requires WellFormed(d)
    requires d.kind == ExecuteKind <==> d.command == SBUS_CMD_EXECUTE
    ensures BuildDatagramFromRawMessage(d.fds, SerializedMetadata(d), SerializedCmdParams(d)) == Ok(d)
  {
    MetadataListRoundTrip(d.metadata);
    StrMapRoundTrip(d.params);
    var j := SerializedCmdParams(d);
    assert JsonToCmdParams(j) == Some(GetCmdParams(d));
  }

  // ---------------------------------------------------------------------
  // The datagrams of the tests

  function ExecuteTypesWithExtraInputs(): seq<FdType> {
    RequiredFdTypes(ExecuteKind) + [SBUS_FD_INPUT_OBJECT, SBUS_FD_INPUT_OBJECT, SBUS_FD_INPUT_OBJECT]
  }

  /** Descriptors 1..n with role types[i] and per-descriptor sample metadata. */
  function SampleMetadata(types: seq<FdType>): (mds: seq<MetadataDict>)
    ensures |mds| == |types| && Typed(mds) && TypesOf(mds) == types
  {
    seq(|types|, i requires 0 <= i < |types| => ToDict(FDMetadata(types[i], map["key" + NatToString(i) := "value" + NatToString(i)], map["skey" + NatToString(i) := "svalue" + NatToString(i)])))
  }

  /** Construction keeps every descriptor and metadata entry, including
      input objects beyond the five required roles. */
  lemma ExecuteAcceptsExtraInputs(params: map<string, string>, taskId: string)
    ensures var types := ExecuteTypesWithExtraInputs();
            var md := SampleMetadata(types);
            NewDatagram(Concrete(ExecuteKind), SBUS_CMD_EXECUTE, [1, 2, 3, 4, 5, 6, 7, 8], md, params, taskId)
              == Ok(Datagram(ExecuteKind, SBUS_CMD_EXECUTE, [1, 2, 3, 4, 5, 6, 7, 8], md, params, taskId))
  {
    var types := ExecuteTypesWithExtraInputs();
    assert types[..5] == RequiredFdTypes(ExecuteKind);
  }

  /** The accessors on the descriptors 1..5 of an execute datagram. */
  lemma ExecuteAccessorsExample(params: map<string, string>, taskId: string)
    ensures var d := Datagram(ExecuteKind, SBUS_CMD_EXECUTE, [1, 2, 3, 4, 5], SampleMetadata(RequiredFdTypes(ExecuteKind)), params, taskId);
            && IsExecute(d)
            && ObjectInFds(d) == [1] && TaskIdOutFd(d) == 2 && ObjectOutFds(d) == [3]
            && ObjectMetadataOutFds(d) == [4] && LoggerOutFd(d) == 5
  {
    var d := Datagram(ExecuteKind, SBUS_CMD_EXECUTE, [1, 2, 3, 4, 5], SampleMetadata(RequiredFdTypes(ExecuteKind)), params, taskId);
    assert TypesOf(d.metadata)[..5] == RequiredFdTypes(ExecuteKind);
    var ts := TypesOf(d.metadata);
    assert FdsOfType(d.fds, ts, SBUS_FD_INPUT_OBJECT) == [1];
    assert FdsOfType(d.fds, ts, SBUS_FD_OUTPUT_OBJECT) == [3];
    assert FdsOfType(d.fds, ts, SBUS_FD_OUTPUT_OBJECT_METADATA) == [4];
  }
}
