/**
 * The typed RPC command table of the node: for each supported JSON-RPC method,
 * the schema of its parameters and the schema of its result.
 */
module Registry {
  import opened Wrappers
  import Js
  import opened Schemas

  /** A block tag: exactly one of the three literal selectors. */
  const Tag: Schema := Union([Literal("earliest"), Literal("latest"), Literal("pending")])

  /** A block selector: a block number or a tag. */
  const QuantityOrTag: Schema := Union([Quantity, Tag])

  /** The block record returned by `eth_getBlockByNumber`. */
  const BlockInfo: Schema := Record([
    Field("number", Quantity),
    Field("hash", Hash),
    Field("parentHash", Hash),
    Field("nonce", HexData),
    Field("sha3Uncles", Hash),
    Field("logsBloom", HexData),
    Field("transactionsRoot", Hash),
    Field("stateRoot", Hash),
    Field("receiptsRoot", Hash),
    Field("miner", Address),
    Field("difficulty", Quantity),
    Field("totalDifficulty", Quantity),
    Field("extraData", HexData),
    Field("size", Quantity),
    Field("gasLimit", Quantity),
    Field("gasUsed", Quantity),
    Field("timestamp", Quantity),
    Field("transactions", Array(Hash)),
    Field("uncles", Array(Hash))
  ])

  /** The descriptor of one command. */
  datatype Command = Command(parameters: Schema, result: Schema)

  /** The command table. */
  const Commands: map<string, Command> := map[
    "web3_clientVersion" := Command(Undefined, String),
    "net_version" := Command(Undefined, String),
    "eth_gasPrice" := Command(Undefined, Quantity),
    "eth_getBalance" := Command(Tuple([Address, QuantityOrTag]), Quantity),
    "eth_blockNumber" := Command(Undefined, Quantity),
    "eth_getTransactionCount" := Command(Tuple([Address, QuantityOrTag]), Quantity),
    "eth_getCode" := Command(Tuple([Address, QuantityOrTag]), HexData),
    "eth_getBlockByNumber" := Command(Tuple([QuantityOrTag, Boolean]), BlockInfo)
  ]

  /** Why a command call is refused. */
  datatype RpcError =
    | UnknownMethod(name: string)
    | InvalidParams(name: string, at: Path)
    | InvalidReturn(name: string, at: Path)

  /** Validates the parameters of a call to command `name`. */
  function CheckParams(c: Codecs, name: string, params: Js.JsValue): (r: Option<RpcError>)
    ensures r.None? <==> name in Commands && Validates(c, Commands[name].parameters, params)
    ensures name !in Commands ==> r == Some(UnknownMethod(name))
    ensures name in Commands && r.Some? ==> r.value.InvalidParams? && r.value.name == name
  {
    if name !in Commands then Some(UnknownMethod(name))
    else match Check(c, Commands[name].parameters, params)
      case None => None
      case Some(p) => Some(InvalidParams(name, p))
  }

  /** Validates the result a command `name` produced. */
  function CheckReturn(c: Codecs, name: string, result: Js.JsValue): (r: Option<RpcError>)
    ensures r.None? <==> name in Commands && Validates(c, Commands[name].result, result)
    ensures name !in Commands ==> r == Some(UnknownMethod(name))
    ensures name in Commands && r.Some? ==> r.value.InvalidReturn? && r.value.name == name
  {
    if name !in Commands then Some(UnknownMethod(name))
    else match Check(c, Commands[name].result, result)
      case None => None
      case Some(p) => Some(InvalidReturn(name, p))
  }

  // ---------------------------------------------------------------------------
  // What the table promises

  /** `tag` accepts exactly the three selector strings. */
  lemma TagAcceptsExactly(c: Codecs, v: Js.JsValue)
    ensures Validates(c, Tag, v) <==> v == Js.Str("earliest") || v == Js.Str("latest") || v == Js.Str("pending")
  {
    if Validates(c, Tag, v) {
      TagOnlyNames(c, v);
    }
    var ms := Tag.members;
    if v == Js.Str("earliest") {
      assert Validates(c, ms[0], v);
    } else if v == Js.Str("latest") {
      assert Validates(c, ms[1], v);
    } else if v == Js.Str("pending") {
      assert Validates(c, ms[2], v);
    }
  }

  lemma TagOnlyNames(c: Codecs, v: Js.JsValue)
    requires Validates(c, Tag, v)
    ensures v == Js.Str("earliest") || v == Js.Str("latest") || v == Js.Str("pending")
  {
    var ms := Tag.members;
    var i :| 0 <= i < |ms| && Validates(c, ms[i], v);
    if i == 0 {
      assert v == Js.Str("earliest");
    } else if i == 1 {
      assert v == Js.Str("latest");
    } else {
      assert v == Js.Str("pending");
    }
  }

  /** `quantityOrTag` accepts exactly what `quantity` or `tag` accepts. */
  lemma QuantityOrTagAccepts(c: Codecs, v: Js.JsValue)
    ensures Validates(c, QuantityOrTag, v) <==> c.quantity(v) || v == Js.Str("earliest") || v == Js.Str("latest") || v == Js.Str("pending")
  {
    TagAcceptsExactly(c, v);
    if c.quantity(v) {
      assert Validates(c, QuantityOrTag.members[0], v);
    } else if Validates(c, Tag, v) {
      assert Validates(c, QuantityOrTag.members[1], v);
    }
  }

  /** The names the table registers. (Any other name is an unknown method:
      see `CheckParams` and `CheckReturn`.) */
  lemma RegistryNames()
    ensures Commands.Keys == {"web3_clientVersion", "net_version", "eth_gasPrice", "eth_getBalance",
                              "eth_blockNumber", "eth_getTransactionCount", "eth_getCode", "eth_getBlockByNumber"}
  {
  }

  /** The table holds exactly eight commands. */
  lemma CommandCount()
    ensures |Commands| == 8
  {
  }

  /** The four parameterless commands accept `undefined` and nothing else. */
  lemma ParameterlessCommands(c: Codecs, name: string, params: Js.JsValue)
    requires name in {"web3_clientVersion", "net_version", "eth_gasPrice", "eth_blockNumber"}
    ensures CheckParams(c, name, params).None? <==> params == Js.Undef
  {
  }

  /** Balance, nonce and code lookups take (address, block selector), checked in that order. */
  lemma AccountQueryParams(c: Codecs, name: string, params: Js.JsValue)
    requires name in {"eth_getBalance", "eth_getTransactionCount", "eth_getCode"}
    ensures CheckParams(c, name, params).None? <==>
      && params.Arr? && |params.items| == 2
      && c.address(params.items[0])
      && (c.quantity(params.items[1]) || params.items[1] in {Js.Str("earliest"), Js.Str("latest"), Js.Str("pending")})
  {
    if params.Arr? && |params.items| == 2 {
      QuantityOrTagAccepts(c, params.items[1]);
    }
  }

  /** Block lookup takes (block selector, boolean) and answers with a block record. */
  lemma GetBlockByNumberSignature(c: Codecs, params: Js.JsValue)
    ensures CheckParams(c, "eth_getBlockByNumber", params).None? <==>
      && params.Arr? && |params.items| == 2
      && (c.quantity(params.items[0]) || params.items[0] in {Js.Str("earliest"), Js.Str("latest"), Js.Str("pending")})
      && params.items[1].Bool?
    ensures Commands["eth_getBlockByNumber"].result == BlockInfo
  {
    if params.Arr? && |params.items| == 2 {
      QuantityOrTagAccepts(c, params.items[0]);
    }
  }

  /** The result schemas: quantities for gas price, balance, block number and nonce;
      hex data for code; plain strings for the client and network versions. */
  lemma ReturnSchemas(c: Codecs, v: Js.JsValue)
    ensures forall name | name in {"eth_gasPrice", "eth_getBalance", "eth_blockNumber", "eth_getTransactionCount"} ::
      CheckReturn(c, name, v).None? <==> c.quantity(v)
    ensures CheckReturn(c, "eth_getCode", v).None? <==> c.hexData(v)
    ensures forall name | name in {"web3_clientVersion", "net_version"} :: CheckReturn(c, name, v).None? <==> v.Str?
  {
  }

  /** A block record is an object whose nineteen fields each pass their codec. */
  predicate BlockFields(c: Codecs, m: map<string, Js.JsValue>) {
    BlockHeaderFields(c, m) && BlockTailFields(c, m)
  }

  /** Fields `number` to `miner`. */
  predicate BlockHeaderFields(c: Codecs, m: map<string, Js.JsValue>) {
    && c.quantity(Js.Member(m, "number"))
    && c.hash(Js.Member(m, "hash"))
    && c.hash(Js.Member(m, "parentHash"))
    && c.hexData(Js.Member(m, "nonce"))
    && c.hash(Js.Member(m, "sha3Uncles"))
    && c.hexData(Js.Member(m, "logsBloom"))
    && c.hash(Js.Member(m, "transactionsRoot"))
    && c.hash(Js.Member(m, "stateRoot"))
    && c.hash(Js.Member(m, "receiptsRoot"))
    && c.address(Js.Member(m, "miner"))
  }

  /** Fields `difficulty` to `uncles`. */
  predicate BlockTailFields(c: Codecs, m: map<string, Js.JsValue>) {
    && c.quantity(Js.Member(m, "difficulty"))
    && c.quantity(Js.Member(m, "totalDifficulty"))
    && c.hexData(Js.Member(m, "extraData"))
    && c.quantity(Js.Member(m, "size"))
    && c.quantity(Js.Member(m, "gasLimit"))
    && c.quantity(Js.Member(m, "gasUsed"))
    && c.quantity(Js.Member(m, "timestamp"))
    && AllHashes(c, Js.Member(m, "transactions"))
    && AllHashes(c, Js.Member(m, "uncles"))
  }

  /** A block record is accepted exactly when it is an object whose nineteen fields
      each pass their codec. */
  lemma BlockInfoValidates(c: Codecs, v: Js.JsValue)
    ensures Validates(c, BlockInfo, v) <==> v.Obj? && BlockFields(c, v.fields)
  {
    if Validates(c, BlockInfo, v) {
      BlockInfoFieldsHold(c, v);
    }
    if v.Obj? && BlockFields(c, v.fields) {
      BlockFieldsSuffice(c, v);
    }
  }

  lemma BlockFieldsSuffice(c: Codecs, v: Js.JsValue)
    requires v.Obj? && BlockFields(c, v.fields)
    ensures Validates(c, BlockInfo, v)
  {
    var fs := BlockInfo.fields;
    forall i | 0 <= i < |fs|
      ensures LeafHolds(c, fs[i].schema, Js.Member(v.fields, fs[i].name))
    {
    }
    RecordFromLeaves(c, fs, v);
  }

  lemma BlockInfoFieldsHold(c: Codecs, v: Js.JsValue)
    requires Validates(c, BlockInfo, v)
    ensures v.Obj? && BlockFields(c, v.fields)
  {
    BlockHeaderFieldsHold(c, v);
    BlockTailFieldsHold(c, v);
  }

  lemma BlockHeaderFieldsHold(c: Codecs, v: Js.JsValue)
    requires Validates(c, BlockInfo, v)
    ensures v.Obj? && BlockHeaderFields(c, v.fields)
  {
    BlockIdentityFieldsHold(c, v);
    BlockUncleAndBloomFieldsHold(c, v);
    BlockRootAndMinerFieldsHold(c, v);
  }

  lemma BlockIdentityFieldsHold(c: Codecs, v: Js.JsValue)
    requires Validates(c, BlockInfo, v)
    ensures v.Obj?
    ensures c.quantity(Js.Member(v.fields, "number"))
    ensures c.hash(Js.Member(v.fields, "hash"))
    ensures c.hash(Js.Member(v.fields, "parentHash"))
    ensures c.hexData(Js.Member(v.fields, "nonce"))
  {
    RecordFieldLeaf(c, BlockInfo.fields, v, 0);
    RecordFieldLeaf(c, BlockInfo.fields, v, 1);
    RecordFieldLeaf(c, BlockInfo.fields, v, 2);
    RecordFieldLeaf(c, BlockInfo.fields, v, 3);
  }

  lemma BlockUncleAndBloomFieldsHold(c: Codecs, v: Js.JsValue)
    requires Validates(c, BlockInfo, v)
    ensures v.Obj?
    ensures c.hash(Js.Member(v.fields, "sha3Uncles"))
    ensures c.hexData(Js.Member(v.fields, "logsBloom"))
    ensures c.hash(Js.Member(v.fields, "transactionsRoot"))
  {
    RecordFieldLeaf(c, BlockInfo.fields, v, 4);
    RecordFieldLeaf(c, BlockInfo.fields, v, 5);
    RecordFieldLeaf(c, BlockInfo.fields, v, 6);
  }

  lemma BlockRootAndMinerFieldsHold(c: Codecs, v: Js.JsValue)
    requires Validates(c, BlockInfo, v)
    ensures v.Obj?
    ensures c.hash(Js.Member(v.fields, "stateRoot"))
    ensures c.hash(Js.Member(v.fields, "receiptsRoot"))
    ensures c.address(Js.Member(v.fields, "miner"))
  {
    RecordFieldLeaf(c, BlockInfo.fields, v, 7);
    RecordFieldLeaf(c, BlockInfo.fields, v, 8);
    RecordFieldLeaf(c, BlockInfo.fields, v, 9);
  }

  lemma BlockTailFieldsHold(c: Codecs, v: Js.JsValue)
    requires Validates(c, BlockInfo, v)
    ensures v.Obj? && BlockTailFields(c, v.fields)
  {
    var fs := BlockInfo.fields;
    RecordFieldLeaf(c, fs, v, 10);
    RecordFieldLeaf(c, fs, v, 11);
    RecordFieldLeaf(c, fs, v, 12);
    RecordFieldLeaf(c, fs, v, 13);
    RecordFieldLeaf(c, fs, v, 14);
    RecordFieldLeaf(c, fs, v, 15);
    RecordFieldLeaf(c, fs, v, 16);
    RecordFieldLeaf(c, fs, v, 17);
    RecordFieldLeaf(c, fs, v, 18);
  }

  /** With codecs that reject `undefined`, a valid block record has all nineteen fields present. */
  lemma BlockInfoFieldsPresent(c: Codecs, v: Js.JsValue)
    requires !c.quantity(Js.Undef) && !c.hash(Js.Undef) && !c.hexData(Js.Undef) && !c.address(Js.Undef)
    requires Validates(c, BlockInfo, v)
    ensures v.Obj?
    ensures forall i :: 0 <= i < |BlockInfo.fields| ==> BlockInfo.fields[i].name in v.fields
  {
    BlockInfoValidates(c, v);
  }

  /** A block with no transactions and no uncles passes the two array fields. */
  lemma EmptyHashArraysAccepted(c: Codecs)
    ensures Validates(c, Array(Hash), Js.Arr([]))
    ensures AllHashes(c, Js.Arr([]))
  {
  }
}
