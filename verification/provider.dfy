/**
 * The provider bridge of the test node: `TestProvider.perform`, which routes an
 * ethers "method name + parameter bag" call either to one chain operation or to
 * the base provider, and `toRpcTransactionRequest`, which normalises an ethers
 * transaction request before it reaches the chain.
 *
 * The chain itself is not modelled: a routed call is a `ChainCall` value naming
 * the operation and carrying the arguments it would receive.
 */
module Provider {
  import opened Wrappers
  import opened Js

  /** An ethers transaction request: its fields as read by `transaction.<key>`. */
  type TransactionRequest = map<string, JsValue>

  /** The value produced by one of the three converters. The encodings
      themselves (`hexlify`, `hexStripZeros`, `makeQuantity`, ...) are foreign;
      a `Wire` value records which converter was applied to which input. */
  datatype Wire = QuantityOf(source: JsValue) | AddressOf(source: JsValue) | HexDataOf(source: JsValue)

  /** The normalised request: keys are the RPC field names. */
  type RpcTransactionRequest = map<string, Wire>

  function ToQuantity(v: JsValue): Wire { QuantityOf(v) }
  function ToAddress(v: JsValue): Wire { AddressOf(v) }
  function ToHexData(v: JsValue): Wire { HexDataOf(v) }

  // ---------------------------------------------------------------------------
  // Reference description of the normalisation, as a table of copy rules.

  datatype Converter = AsQuantity | AsAddress | AsHexData

  function Convert(k: Converter, v: JsValue): Wire {
    match k
    case AsQuantity => ToQuantity(v)
    case AsAddress => ToAddress(v)
    case AsHexData => ToHexData(v)
  }

  /** Whether the foreign encoder behind a converter accepts a value. `hexlify`
      throws on a value that is not a hex string, a safe non-negative integer,
      bytes or a hexable object; which values those are is decided outside this
      model, so the predicate is a parameter. */
  type Encodable = (Converter, JsValue) -> bool

  /** Copy `source` of the ethers request to `target` of the RPC request through `converter`. */
  datatype Rule = Rule(source: string, target: string, converter: Converter)

  const Rules: seq<Rule> := [
    Rule("gasLimit", "gas", AsQuantity),
    Rule("gasPrice", "gasPrice", AsQuantity),
    Rule("nonce", "nonce", AsQuantity),
    Rule("value", "value", AsQuantity),
    Rule("from", "from", AsAddress),
    Rule("to", "to", AsAddress),
    Rule("data", "data", AsHexData)
  ]

  /** The only keys a normalised request may hold. */
  const RpcKeys: set<string> := {"gas", "gasPrice", "nonce", "value", "from", "to", "data"}

  ghost predicate RuleHolds(tx: TransactionRequest, r: RpcTransactionRequest, rule: Rule) {
    && (rule.target in r <==> Truthy(Member(tx, rule.source)))
    && (rule.target in r ==> r[rule.target] == Convert(rule.converter, Member(tx, rule.source)))
  }

  /** `r` is the normalisation of `tx`: no key outside the seven RPC names, and every
      rule of the table holds. */
  ghost predicate Normalises(tx: TransactionRequest, r: RpcTransactionRequest) {
    && r.Keys <= RpcKeys
    && forall i :: 0 <= i < |Rules| ==> RuleHolds(tx, r, Rules[i])
  }

  /** `toRpcTransactionRequest` when no conversion throws: the seven
      `if (transaction.<field>)` statements, in source order, each a rule of the
      table. `NormaliseTransaction` adds the throwing paths. */
  function ToRpcTransactionRequest(tx: TransactionRequest): (r: RpcTransactionRequest)
    ensures Normalises(tx, r)
  {
    CopyRules(tx, map[], 0)
  }

  /** One statement: `if (transaction.<source>) result.<target> = <converter>(transaction.<source>)`. */
  function CopyIfTruthy(tx: TransactionRequest, r: RpcTransactionRequest, rule: Rule): RpcTransactionRequest {
    var v := Member(tx, rule.source);
    if Truthy(v) then r[rule.target := Convert(rule.converter, v)] else r
  }

  /** Runs the statements for rules `n` onwards on the partial result `r`. */
  function CopyRules(tx: TransactionRequest, r: RpcTransactionRequest, n: nat): (out: RpcTransactionRequest)
    requires n <= |Rules| && NormalisedUpTo(tx, r, n)
    ensures Normalises(tx, out)
    decreases |Rules| - n
  {
    if n == |Rules| then
      AllTargets();
      r
    else
      CopyStep(tx, r, n);
      CopyRules(tx, CopyIfTruthy(tx, r, Rules[n]), n + 1)
  }

  /** The targets of the first `n` rules. */
  ghost function TargetsBefore(n: nat): set<string>
    requires n <= |Rules|
  {
    set i | 0 <= i < n :: Rules[i].target
  }

  /** `r` is the partial result after the first `n` statements. */
  ghost predicate NormalisedUpTo(tx: TransactionRequest, r: RpcTransactionRequest, n: nat)
    requires n <= |Rules|
  {
    && r.Keys <= TargetsBefore(n)
    && forall i :: 0 <= i < n ==> RuleHolds(tx, r, Rules[i])
  }

  /** No two rules write the same key. */
  lemma DistinctTargets()
    ensures forall i, j :: 0 <= i < j < |Rules| ==> Rules[i].target != Rules[j].target
  {
  }

  lemma AllTargets()
    ensures TargetsBefore(|Rules|) == RpcKeys
  {
    assert forall k :: k in RpcKeys ==> Rules[TargetIndex(k)].target == k;
  }

  /** One more statement extends the partial result by one rule, leaving the
      earlier rules' keys untouched. */
  lemma CopyStep(tx: TransactionRequest, r: RpcTransactionRequest, n: nat)
    requires n < |Rules| && NormalisedUpTo(tx, r, n)
    ensures NormalisedUpTo(tx, CopyIfTruthy(tx, r, Rules[n]), n + 1)
  {
    var r' := CopyIfTruthy(tx, r, Rules[n]);
    DistinctTargets();
    forall i | 0 <= i < n
      ensures RuleHolds(tx, r', Rules[i])
    {
      assert RuleHolds(tx, r, Rules[i]);
      assert Rules[i].target != Rules[n].target;
    }
    assert TargetsBefore(n + 1) == TargetsBefore(n) + {Rules[n].target};
  }

  /** The table pins the request down: at most one request normalises a given input. */
  lemma {:induction false} NormalisesUnique(tx: TransactionRequest, r1: RpcTransactionRequest, r2: RpcTransactionRequest)
    requires Normalises(tx, r1) && Normalises(tx, r2)
    ensures r1 == r2
  {
    forall k | k in RpcKeys
      ensures (k in r1 <==> k in r2) && (k in r1 ==> r1[k] == r2[k])
    {
      var i := TargetIndex(k);
      assert RuleHolds(tx, r1, Rules[i]) && RuleHolds(tx, r2, Rules[i]);
    }
  }

  /** The rule writing key `k`. */
  function TargetIndex(k: string): (i: nat)
    requires k in RpcKeys
    ensures i < |Rules| && Rules[i].target == k
  {
    if k == "gas" then 0 else if k == "gasPrice" then 1 else if k == "nonce" then 2
    else if k == "value" then 3 else if k == "from" then 4 else if k == "to" then 5 else 6
  }

  /** Falsy fields vanish: a request whose seven fields are all absent or falsy
      normalises to the empty request. */
  lemma AllFalsyGivesEmpty(tx: TransactionRequest)
    requires forall i :: 0 <= i < |Rules| ==> !Truthy(Member(tx, Rules[i].source))
    ensures ToRpcTransactionRequest(tx) == map[]
  {
    var r := ToRpcTransactionRequest(tx);
    forall k | k in RpcKeys
      ensures k !in r
    {
      var i := TargetIndex(k);
      assert RuleHolds(tx, r, Rules[i]);
    }
    assert r.Keys == {};
  }

  /** Omission: a `value` that is absent, the number `0` or `''` is dropped, and so
      is a `nonce` of `0`; a zero written as a BigNumber (an object) or as the
      non-empty hex string `'0x0'` is truthy, so it is kept and converted. */
  lemma ValueOmission(tx: TransactionRequest, bigZero: map<string, JsValue>)
    ensures Member(tx, "value") in {Undef, Num(0.0), Str("")} ==> "value" !in ToRpcTransactionRequest(tx)
    ensures Member(tx, "nonce") == Num(0.0) ==> "nonce" !in ToRpcTransactionRequest(tx)
    ensures var withBig := tx["value" := Obj(bigZero)];
      ToRpcTransactionRequest(withBig)["value"] == QuantityOf(Obj(bigZero))
    ensures var withHex := tx["value" := Str("0x0")];
      ToRpcTransactionRequest(withHex)["value"] == QuantityOf(Str("0x0"))
  {
  }

  /** `gasLimit` is renamed: the normalised request never carries a `gasLimit` key,
      and its `gas` entry is the quantity of the source `gasLimit`. */
  lemma GasLimitRenamed(tx: TransactionRequest)
    ensures "gasLimit" !in ToRpcTransactionRequest(tx)
    ensures Truthy(Member(tx, "gasLimit")) ==>
      ToRpcTransactionRequest(tx)["gas"] == QuantityOf(Member(tx, "gasLimit"))
  {
    assert RuleHolds(tx, ToRpcTransactionRequest(tx), Rules[0]);
  }

  /** Converter routing: quantity fields hold quantities, address fields addresses,
      the data field hex data; and each depends on its own source field only. */
  lemma ConvertersByField(tx: TransactionRequest, k: string)
    requires k in ToRpcTransactionRequest(tx)
    ensures k in {"gas", "gasPrice", "nonce", "value"} ==> ToRpcTransactionRequest(tx)[k].QuantityOf?
    ensures k in {"from", "to"} ==> ToRpcTransactionRequest(tx)[k].AddressOf?
    ensures k == "data" ==> ToRpcTransactionRequest(tx)[k].HexDataOf?
    ensures k == "gas" ==> ToRpcTransactionRequest(tx)[k].source == Member(tx, "gasLimit")
    ensures k != "gas" ==> ToRpcTransactionRequest(tx)[k].source == Member(tx, k)
  {
    var i := TargetIndex(k);
    assert RuleHolds(tx, ToRpcTransactionRequest(tx), Rules[i]);
  }

  // ---------------------------------------------------------------------------
  // perform

  /** The parameter bag ethers hands to `perform`. */
  type Params = map<string, JsValue>

  /** One chain operation with the arguments it receives, or the base provider. */
  datatype ChainCall =
    | GetBlockNumber
    | GetGasPrice
    | GetBalance(address: JsValue, blockTag: JsValue)
    | GetTransactionCount(address: JsValue, blockTag: JsValue)
    | GetCode(address: JsValue, blockTag: JsValue)
    | GetStorageAt(address: JsValue, position: JsValue, blockTag: JsValue)
    | SendTransaction(signedTransaction: JsValue)
    | Call(transaction: RpcTransactionRequest, blockTag: JsValue)
    | EstimateGas(transaction: RpcTransactionRequest)
    | GetBlock(blockTagOrHash: JsValue, includeTransactions: JsValue)
    | GetTransaction(transactionHash: JsValue)
    | GetTransactionReceipt(transactionHash: JsValue)
    | GetLogs(filter: JsValue)
    | Fallback(name: string, params: Params)

  /** Reading a property of `undefined` or `null` throws a TypeError; a converter
      given a value its encoder rejects throws too, naming the source field. */
  datatype BridgeError = TypeError(property: string) | ConversionError(field: string)

  /** The method name each chain call answers to; a fallback answers to its own. */
  function MethodName(c: ChainCall): string {
    match c
    case GetBlockNumber => "getBlockNumber"
    case GetGasPrice => "getGasPrice"
    case GetBalance(_, _) => "getBalance"
    case GetTransactionCount(_, _) => "getTransactionCount"
    case GetCode(_, _) => "getCode"
    case GetStorageAt(_, _, _) => "getStorageAt"
    case SendTransaction(_) => "sendTransaction"
    case Call(_, _) => "call"
    case EstimateGas(_) => "estimateGas"
    case GetBlock(_, _) => "getBlock"
    case GetTransaction(_) => "getTransaction"
    case GetTransactionReceipt(_) => "getTransactionReceipt"
    case GetLogs(_) => "getLogs"
    case Fallback(m, _) => m
  }

  /** The recognised method names and the parameter fields each one reads. */
  const FieldsRead: map<string, set<string>> := map[
    "getBlockNumber" := {},
    "getGasPrice" := {},
    "getBalance" := {"address", "blockTag"},
    "getTransactionCount" := {"address", "blockTag"},
    "getCode" := {"address", "blockTag"},
    "getStorageAt" := {"address", "position", "blockTag"},
    "sendTransaction" := {"signedTransaction"},
    "call" := {"transaction", "blockTag"},
    "estimateGas" := {"transaction"},
    "getBlock" := {"blockTag", "blockHash", "includeTransactions"},
    "getTransaction" := {"transactionHash"},
    "getTransactionReceipt" := {"transactionHash"},
    "getLogs" := {"filter"}
  ]

  /** The statement for `rule` throws: its field is truthy, so it is converted,
      and the encoder rejects it. */
  predicate ConversionThrows(ok: Encodable, tx: TransactionRequest, rule: Rule) {
    Truthy(Member(tx, rule.source)) && !ok(rule.converter, Member(tx, rule.source))
  }

  /** No statement of the table throws on `tx`. */
  predicate AllConvertible(ok: Encodable, tx: TransactionRequest) {
    forall i :: 0 <= i < |Rules| ==> !ConversionThrows(ok, tx, Rules[i])
  }

  /** The first statement, from rule `n` on, that throws. */
  function FirstThrowing(ok: Encodable, tx: TransactionRequest, n: nat): (r: Option<nat>)
    requires n <= |Rules|
    ensures r.Some? ==> n <= r.value < |Rules| && ConversionThrows(ok, tx, Rules[r.value])
    ensures r.Some? ==> forall j :: n <= j < r.value ==> !ConversionThrows(ok, tx, Rules[j])
    ensures r.None? <==> forall j :: n <= j < |Rules| ==> !ConversionThrows(ok, tx, Rules[j])
    decreases |Rules| - n
  {
    if n == |Rules| then None
    else if ConversionThrows(ok, tx, Rules[n]) then Some(n)
    else FirstThrowing(ok, tx, n + 1)
  }

  /** `toRpcTransactionRequest(params.transaction)`: the first read, `.gasLimit`,
      throws on a nullish transaction; the statements then run in order and the
      first conversion the encoder rejects throws; a primitive has none of the
      seven fields. */
  function NormaliseTransaction(ok: Encodable, transaction: JsValue): (r: Result<RpcTransactionRequest, BridgeError>)
    ensures Nullish(transaction) ==> r == Failure(TypeError("gasLimit"))
    ensures transaction.Obj? ==> (r.Success? <==> AllConvertible(ok, transaction.fields))
    ensures transaction.Obj? && r.Success? ==> r.value == ToRpcTransactionRequest(transaction.fields)
    ensures transaction.Obj? && r.Failure? ==>
      exists i :: 0 <= i < |Rules| && r.error == ConversionError(Rules[i].source)
        && ConversionThrows(ok, transaction.fields, Rules[i])
        && forall j :: 0 <= j < i ==> !ConversionThrows(ok, transaction.fields, Rules[j])
    ensures !transaction.Obj? && !Nullish(transaction) ==> r == Success(map[])
  {
    match transaction
    case Undef => Failure(TypeError("gasLimit"))
    case Null => Failure(TypeError("gasLimit"))
    case Obj(fields) =>
      (match FirstThrowing(ok, fields, 0)
       case Some(i) => Failure(ConversionError(Rules[i].source))
       case None => Success(ToRpcTransactionRequest(fields)))
    case _ => AllFalsyGivesEmpty(map[]); Success(ToRpcTransactionRequest(map[]))
  }

  /** With encoders that accept everything, normalising throws exactly on a
      nullish transaction. */
  lemma OnlyNullishThrowsWhenEncodersTotal(ok: Encodable, transaction: JsValue)
    requires forall k, v :: ok(k, v)
    ensures NormaliseTransaction(ok, transaction).Failure? <==> Nullish(transaction)
  {
  }

  /** `case 'call'`: the normalised transaction and the block tag. */
  function RouteCall(ok: Encodable, params: Params): (r: Result<ChainCall, BridgeError>)
    ensures r.Success? ==> r.value.Call?
  {
    match NormaliseTransaction(ok, Member(params, "transaction"))
    case Success(tx) => Success(Call(tx, Member(params, "blockTag")))
    case Failure(e) => Failure(e)
  }

  /** `case 'estimateGas'`: the normalised transaction alone. */
  function RouteEstimateGas(ok: Encodable, params: Params): (r: Result<ChainCall, BridgeError>)
    ensures r.Success? ==> r.value.EstimateGas?
  {
    match NormaliseTransaction(ok, Member(params, "transaction"))
    case Success(tx) => Success(EstimateGas(tx))
    case Failure(e) => Failure(e)
  }

  /** The routing switch. */
  function Perform(ok: Encodable, name: string, params: Params): (r: Result<ChainCall, BridgeError>)
    ensures r.Success? ==> MethodName(r.value) == name
  {
    match name
    case "getBlockNumber" => Success(GetBlockNumber)
    case "getGasPrice" => Success(GetGasPrice)
    case "getBalance" => Success(GetBalance(Member(params, "address"), Member(params, "blockTag")))
    case "getTransactionCount" =>
      Success(GetTransactionCount(Member(params, "address"), Member(params, "blockTag")))
    case "getCode" => Success(GetCode(Member(params, "address"), Member(params, "blockTag")))
    case "getStorageAt" =>
      Success(GetStorageAt(Member(params, "address"), Member(params, "position"), Member(params, "blockTag")))
    case "sendTransaction" => Success(SendTransaction(Member(params, "signedTransaction")))
    case "call" => RouteCall(ok, params)
    case "estimateGas" => RouteEstimateGas(ok, params)
    case "getBlock" =>
      var blockTag := Member(params, "blockTag");
      Success(GetBlock(if Nullish(blockTag) then Member(params, "blockHash") else blockTag,
                       Member(params, "includeTransactions")))
    case "getTransaction" => Success(GetTransaction(Member(params, "transactionHash")))
    case "getTransactionReceipt" => Success(GetTransactionReceipt(Member(params, "transactionHash")))
    case "getLogs" => Success(GetLogs(Member(params, "filter")))
    case _ => Success(Fallback(name, params))
  }

  /** Unrecognised names go to the base provider with name and bag unchanged, and
      only they do. */
  lemma PerformFallback(ok: Encodable, name: string, params: Params)
    ensures name !in FieldsRead ==> Perform(ok, name, params) == Success(Fallback(name, params))
    ensures Perform(ok, name, params).Success? ==> (Perform(ok, name, params).value.Fallback? <==> name !in FieldsRead)
  {
  }

  /** Routing throws only where the transaction is normalised: `call` or
      `estimateGas` with an undefined or null `transaction`, or with an object
      one of whose truthy fields its encoder rejects. */
  lemma PerformThrows(ok: Encodable, name: string, params: Params)
    ensures Perform(ok, name, params).Failure? <==>
      name in {"call", "estimateGas"}
      && var t := Member(params, "transaction");
         Nullish(t) || (t.Obj? && !AllConvertible(ok, t.fields))
  {
  }

  /** A recognised method reads only its own fields of the bag: two bags that agree
      on those fields route to the same call. */
  lemma PerformReadsOnlyNamedFields(ok: Encodable, name: string, p1: Params, p2: Params)
    requires name in FieldsRead
    requires forall f :: f in FieldsRead[name] ==> Member(p1, f) == Member(p2, f)
    ensures Perform(ok, name, p1) == Perform(ok, name, p2)
  {
  }

  /** The account queries hand over the same-named fields unchanged. */
  lemma AccountArgumentsFromNamedFields(ok: Encodable, p: Params)
    ensures Perform(ok, "getBalance", p) == Success(GetBalance(Member(p, "address"), Member(p, "blockTag")))
    ensures Perform(ok, "getTransactionCount", p)
      == Success(GetTransactionCount(Member(p, "address"), Member(p, "blockTag")))
    ensures Perform(ok, "getCode", p) == Success(GetCode(Member(p, "address"), Member(p, "blockTag")))
    ensures Perform(ok, "getStorageAt", p)
      == Success(GetStorageAt(Member(p, "address"), Member(p, "position"), Member(p, "blockTag")))
  {
  }

  /** Sending, transaction and receipt lookups and log queries hand over the
      same-named fields unchanged. */
  lemma LookupArgumentsFromNamedFields(ok: Encodable, p: Params)
    ensures Perform(ok, "sendTransaction", p) == Success(SendTransaction(Member(p, "signedTransaction")))
    ensures Perform(ok, "getTransaction", p) == Success(GetTransaction(Member(p, "transactionHash")))
    ensures Perform(ok, "getTransactionReceipt", p) == Success(GetTransactionReceipt(Member(p, "transactionHash")))
    ensures Perform(ok, "getLogs", p) == Success(GetLogs(Member(p, "filter")))
  {
  }

  /** `getBlock` selects with `??`: the tag wins whenever it is not nullish, even
      when it is falsy (`0`, `''`); with neither tag nor hash the selector stays
      undefined (no default tag is substituted). */
  lemma GetBlockSelector(ok: Encodable, p: Params)
    ensures Perform(ok, "getBlock", p).Success?
    ensures Perform(ok, "getBlock", p).value.includeTransactions == Member(p, "includeTransactions")
    ensures !Nullish(Member(p, "blockTag")) ==> Perform(ok, "getBlock", p).value.blockTagOrHash == Member(p, "blockTag")
    ensures Nullish(Member(p, "blockTag")) ==> Perform(ok, "getBlock", p).value.blockTagOrHash == Member(p, "blockHash")
    ensures Member(p, "blockTag") == Num(0.0) ==> Perform(ok, "getBlock", p).value.blockTagOrHash == Num(0.0)
    ensures "blockTag" !in p && "blockHash" !in p ==> Perform(ok, "getBlock", p).value.blockTagOrHash == Undef
  {
  }

  /** A transaction whose `value` the quantity encoder rejects makes both `call`
      and `estimateGas` throw, naming `value`, whenever the earlier fields are
      falsy or convertible. */
  lemma UnconvertibleValueThrows(ok: Encodable, tx: TransactionRequest, p: Params)
    requires Member(p, "transaction") == Obj(tx)
    requires Truthy(Member(tx, "value")) && !ok(AsQuantity, Member(tx, "value"))
    requires forall i :: 0 <= i < 3 ==> !ConversionThrows(ok, tx, Rules[i])
    ensures Perform(ok, "call", p) == Failure(ConversionError("value"))
    ensures Perform(ok, "estimateGas", p) == Failure(ConversionError("value"))
  {
  }

  /** `call` and `estimateGas` normalise the same transaction, so they succeed or
      fail together, with the same request or the same error; only `call`
      forwards a block tag. A primitive transaction gives the empty request. */
  lemma CallAndEstimateGas(ok: Encodable, p: Params)
    ensures Perform(ok, "call", p).Success? <==> Perform(ok, "estimateGas", p).Success?
    ensures Perform(ok, "call", p).Success? ==>
      && Perform(ok, "call", p).value.transaction == Perform(ok, "estimateGas", p).value.transaction
      && Perform(ok, "call", p).value.blockTag == Member(p, "blockTag")
    ensures Perform(ok, "call", p).Failure? ==> Perform(ok, "call", p).error == Perform(ok, "estimateGas", p).error
    ensures var t := Member(p, "transaction");
      t.Obj? && AllConvertible(ok, t.fields) ==>
        Perform(ok, "call", p) == Success(Call(ToRpcTransactionRequest(t.fields), Member(p, "blockTag")))
    ensures var t := Member(p, "transaction");
      !t.Obj? && !Nullish(t) ==> Perform(ok, "estimateGas", p) == Success(EstimateGas(map[]))
  {
  }
}
