# Provider bridge, RPC command table and EVM trap handlers — a Dafny model

This project models three small, pure pieces of a local EVM test node:

- **The provider bridge** (`TestProvider.perform` and `toRpcTransactionRequest`).
  `perform` receives an ethers-style method name and an untyped parameter bag. It either
  routes the call to one chain operation, with arguments read from the bag by field name,
  or hands it unchanged to the base provider. Before `call` and `estimateGas`, the
  transaction request is normalised: each of seven fields is copied only when it is
  JavaScript-truthy, and `gasLimit` is renamed to `gas`.
- **The typed RPC command table** (`description.ts`). This is a declarative io-ts table:
  the block `tag` literal union, the `quantityOrTag` union, the `blockInfo` record and
  eight commands, each with a parameter schema and a result schema.
- **The EVM trap handlers** (`invalid.ts`). `invalidOpcode(n)` builds a handler that always
  fails with `InvalidOpcode(n)`. `opUnreachable` always fails with the payload-free
  `UnreachableInstruction`.

Files and modules:

| file | module | contents |
|---|---|---|
| `wrappers.dfy` | `Wrappers` | `Option`, `Result` |
| `js.dfy` | `Js` | JavaScript values, truthiness (`if (x)`), nullishness (`??`), property reads |
| `provider.dfy` | `Provider` | `ToRpcTransactionRequest` with its rule table, `ChainCall`, `Perform` |
| `schemas.dfy` | `Schemas` | io-ts schemas, the `Validates` predicate, the path-reporting `Check` |
| `registry.dfy` | `Registry` | `Tag`, `QuantityOrTag`, `BlockInfo`, the `Commands` table, `CheckParams`/`CheckReturn` |
| `traps.dfy` | `Traps` | handler outcomes, `InvalidOpcodeHandler`, `OpUnreachable` |

Modelling choices:

- **JavaScript values.** A JavaScript value is a `Js.JsValue`. Every non-array object is
  an `Obj`, and so is truthy. This includes an ethers `BigNumber` (even zero) and a
  `Uint8Array` (even empty).
- **Converters.** The three converters `toQuantity`, `toAddress` and `toHexData` call
  foreign encoders. Each produces a symbolic `Wire` value that records which converter
  was applied to which input. Whether an encoder accepts a value (`hexlify` throws on
  anything that is not a hex string, a safe non-negative integer, bytes or a hexable
  object) is the predicate `Provider.Encodable`, passed as a parameter.
- **Leaf codecs.** The four leaf codecs (`quantity`, `address`, `hexData`, `hash`) are
  defined in a file that is not part of this model. They enter as the predicates of a
  `Codecs` record, passed as a parameter.
- **Execution context.** `Traps.Ctx` is a stand-in for the EVM execution context, whose
  structure is not part of this model. The trap handlers never read it.

Behaviour of the code worth knowing:

- **Explicit zero.** Every field is copied only when it is truthy. So a `value` given as
  the number `0` (or as `''`) is dropped from the normalised request, and so is a numeric
  `nonce` of `0`. A zero written as a BigNumber (an object) or as a non-empty hex string
  such as `'0x0'` is truthy and is kept. See `Provider.ValueOmission`.
- **No default block tag.** `perform` substitutes no default block tag: `getBlock` passes
  `blockTag ?? blockHash`, so with neither field the selector is `undefined`. See
  `Provider.GetBlockSelector`.
- **No mining case.** `perform` has no case for mining a block, so such a name reaches
  the fallback. See `Provider.PerformFallback`.

## Model

| member | source | states |
|---|---|---|
| Provider.ToRpcTransactionRequest | packages/node/src/TestProvider.ts:69-94 | The result of a run in which no conversion throws satisfies the copy-rule table: no key outside the seven RPC names. Each target key is present iff its source field is truthy. When present, it holds that field passed through the rule's converter. |
| Provider.NormalisesUnique | packages/node/src/TestProvider.ts:69-94 | The rule table determines the normalised request completely: two requests that both satisfy it for the same input are equal. |
| Provider.AllFalsyGivesEmpty | packages/node/src/TestProvider.ts:70-93 | If all seven source fields are absent or falsy, the result is the empty request. |
| Provider.ValueOmission | packages/node/src/TestProvider.ts:78-83 | A `value` that is absent, the number `0` or `''` is omitted, and so is a `nonce` of `0`. A BigNumber zero (an object) and the hex string `'0x0'` are truthy, so each is kept and converted as a quantity. |
| Provider.GasLimitRenamed | packages/node/src/TestProvider.ts:72-74 | The result never has a `gasLimit` key. A truthy `gasLimit` appears under `gas` as a quantity. |
| Provider.ConvertersByField | packages/node/src/TestProvider.ts:72-98 | `gas`, `gasPrice`, `nonce` and `value` hold quantities. `from` and `to` hold addresses. `data` holds hex data. `gas` is built from the source `gasLimit`; each other key is built from the source field of the same name. |
| Provider.FirstThrowing | packages/node/src/TestProvider.ts:72-98 | The statements run in table order: the result is the first rule from `n` on whose field is truthy and rejected by its encoder, and none is returned exactly when no later rule throws. |
| Provider.NormaliseTransaction | packages/node/src/TestProvider.ts:69-98 | An undefined or null transaction throws a TypeError at the first read. An object succeeds iff no truthy field is rejected by its encoder, and then gives the copy-rule request. Otherwise it throws a conversion error naming the first such field in statement order. Any other primitive gives the empty request. |
| Provider.OnlyNullishThrowsWhenEncodersTotal | packages/node/src/TestProvider.ts:69-98 | When every encoder accepts every value, normalising throws exactly on an undefined or null transaction. |
| Provider.Perform | packages/node/src/TestProvider.ts:35-66 | A successfully routed call always answers to the requested method name. |
| Provider.PerformFallback | packages/node/src/TestProvider.ts:63-64 | A name that is not one of the 13 recognised ones goes to the base provider with the name and bag unchanged. A routed call is the fallback exactly when the name is unrecognised. |
| Provider.PerformThrows | packages/node/src/TestProvider.ts:51-54 | Routing fails exactly for `call` or `estimateGas` when the `transaction` is undefined or null, or is an object with a truthy field its encoder rejects. Every other name and bag routes successfully. |
| Provider.PerformReadsOnlyNamedFields | packages/node/src/TestProvider.ts:36-62 | A recognised method depends only on its own named fields: two bags that agree on those fields route to the same call. |
| Provider.AccountArgumentsFromNamedFields | packages/node/src/TestProvider.ts:41-48 | Balance, nonce, code and storage calls receive the `address`, `position` and `blockTag` bag fields unchanged. |
| Provider.LookupArgumentsFromNamedFields | packages/node/src/TestProvider.ts:49-62 | Send-transaction, transaction, receipt and log calls receive the `signedTransaction`, `transactionHash` and `filter` bag fields unchanged. |
| Provider.GetBlockSelector | packages/node/src/TestProvider.ts:55-56 | `getBlock` passes `blockTag` when it is not nullish, even a falsy `0`, and otherwise passes `blockHash`. `includeTransactions` is forwarded. No default tag is substituted. |
| Provider.UnconvertibleValueThrows | packages/node/src/TestProvider.ts:81-83 | A truthy `value` that the quantity encoder rejects, after falsy or convertible `gasLimit`, `gasPrice` and `nonce`, makes both `call` and `estimateGas` throw a conversion error naming `value`. |
| Provider.CallAndEstimateGas | packages/node/src/TestProvider.ts:51-54 | `call` and `estimateGas` succeed or fail together, with the same normalised request or the same error. Only `call` forwards `blockTag`. A convertible object transaction gives its copy-rule request. Any non-nullish primitive transaction gives the empty request. |
| Js.NullishIsStrictlyFalsy | packages/node/src/TestProvider.ts:56-90 | Every nullish value is falsy. `0`, `NaN`, `''` and `false` are falsy but not nullish: this is the contrast between `??` and `if`. |
| Schemas.Check | packages/node/src/node/rpc/description.ts:5-71 | Path-reporting validation accepts a value exactly when the declarative `Validates` predicate holds for it. |
| Schemas.RecordFieldLeaf | packages/node/src/node/rpc/description.ts:14-34 | In an accepted record, a field declared with a leaf codec holds a value that codec accepts; the value is `undefined` when the field is absent. A field declared as an array of hashes holds an array of hashes. |
| Schemas.RecordFromLeaves | packages/node/src/node/rpc/description.ts:14-34 | Conversely, an object whose every field passes its leaf codec is an accepted record. Properties the record does not name are ignored. |
| Registry.TagAcceptsExactly | packages/node/src/node/rpc/description.ts:5-9 | `tag` accepts a value iff it is the string `earliest`, `latest` or `pending`. |
| Registry.QuantityOrTagAccepts | packages/node/src/node/rpc/description.ts:11 | `quantityOrTag` accepts a value iff the quantity codec accepts it or it is one of the three tags. |
| Registry.RegistryNames | packages/node/src/node/rpc/description.ts:36-71 | The table registers exactly the eight listed command names. |
| Registry.CommandCount | packages/node/src/node/rpc/description.ts:36-71 | The table holds eight distinct commands. |
| Registry.CheckParams | packages/node/src/node/rpc/description.ts:36-71 | Parameters are accepted iff the command exists and its parameter schema validates them. An unknown name gives `UnknownMethod`. A known name that fails gives `InvalidParams` for that name. |
| Registry.CheckReturn | packages/node/src/node/rpc/description.ts:36-71 | A result is accepted iff the command exists and its result schema validates it. Otherwise the error is `UnknownMethod` or `InvalidReturn` for that name. |
| Registry.ParameterlessCommands | packages/node/src/node/rpc/description.ts:37-58 | `web3_clientVersion`, `net_version`, `eth_gasPrice` and `eth_blockNumber` accept `undefined` parameters and nothing else. |
| Registry.AccountQueryParams | packages/node/src/node/rpc/description.ts:51-66 | Balance, transaction-count and code lookups accept exactly a 2-element array of an address and a block selector, in that order. |
| Registry.GetBlockByNumberSignature | packages/node/src/node/rpc/description.ts:67-70 | `eth_getBlockByNumber` accepts exactly a 2-element array of a block selector and a boolean, and returns `blockInfo`. |
| Registry.ReturnSchemas | packages/node/src/node/rpc/description.ts:37-66 | Gas price, balance, block number and transaction count return quantities. Code returns hex data. Client and network version return strings. |
| Registry.BlockInfoValidates | packages/node/src/node/rpc/description.ts:14-34 | A block record is accepted iff it is an object whose 19 named fields each pass their codec. `transactions` and `uncles` must be arrays whose every element is a hash. |
| Registry.BlockInfoFieldsHold | packages/node/src/node/rpc/description.ts:14-34 | Every accepted block record is an object whose 19 named fields each pass their codec. |
| Registry.BlockInfoFieldsPresent | packages/node/src/node/rpc/description.ts:14-34 | If the codecs reject `undefined`, an accepted block record has all 19 fields present. |
| Registry.EmptyHashArraysAccepted | packages/node/src/node/rpc/description.ts:32-33 | An empty `transactions` or `uncles` array is accepted. |
| Traps.InvalidOpcodeHandler | packages/evm/src/opcodes/invalid.ts:4-8 | For every context, the handler built for opcode `n` fails with `InvalidOpcode` carrying exactly `n`. |
| Traps.OpUnreachable | packages/evm/src/opcodes/invalid.ts:10-12 | The handler fails with `UnreachableInstruction`, which carries no payload. |
| Traps.TrapsHaltAndDiffer | packages/evm/src/opcodes/invalid.ts:2-12 | Neither handler ever continues, and neither depends on the context. `invalidOpcode(n)` never raises `UnreachableInstruction`. Handlers for different opcodes raise different payloads. |

## Left out

- The chain-state executor that `perform` calls into (balances, mining, transaction pool, receipts, logs) is not part of this model. A routed call is only a `ChainCall` value.
- The base provider's `perform` is the `Fallback` variant; what it does is not modelled.
- The converters' encodings (`hexlify`, `hexStripZeros`, `makeQuantity`, `makeAddress`, `makeHexData`) are foreign. `Wire` values record only the converter and its input. Which inputs an encoder rejects is the parameter `Provider.Encodable`, not a definition. The thrown error is modelled only by the name of the field whose conversion failed, not by its message.
- The leaf codecs (`quantity`, `address`, `hexData`, `hash`) are not part of this model. They are parameters, and no encoding, round-trip or length fact is claimed about them.
- `Registry.AccountQueryParams`: tuples are modelled with exact arity. How io-ts treats shorter arrays (missing positions read as `undefined`) and longer arrays (extra elements dropped) is library behaviour that is not modelled. `Registry.GetBlockByNumberSignature` follows the same rule.
- `Schemas.Check`: it reports the path of the first rejected component, not io-ts's complete error list. Decoding that transforms values is not modelled; only acceptance is.
- The type-level `RPCExecutorType` mapping (description.ts lines 73-88) exists only at compile time.
- `async`/Promise plumbing and the constructor's option handling are not modelled. `getWallets`, `createEmptyWallet` and `mineBlock` are thin wrappers over the chain and wallet library and are not modelled either.
- The parameter bag of `perform` is modelled as an object (ethers always passes one). A non-object bag is not modelled.
- JavaScript numbers are reals plus `NaN`. BigInt values and inherited (prototype) properties are not modelled.
- `Traps.Ctx` stands in for the EVM's `ExecutionContext`, which is not part of this model; the trap handlers never read it.
- The EVM execution context and the rest of the opcode table are not part of this model. The opcode dispatch table and any guard against dispatching into a halted context are not modelled.
