# Kitsunet client core, modelled in Dafny

This project models the core of MetaMask's kitsunet network client
(`app/scripts/controllers/network/createKitsunetClient.js`). The client serves
the Ethereum JSON-RPC interface from a peer-to-peer light client called kitsunet.
The model covers four parts:

- **`KsnBlockTracker`** (`block_tracker.dfy`). This is a class with the one mutable
  field `current`. It starts as null and is overwritten only by the client's
  `latest` notification. It re-emits `latest`, and it re-emits `sync` with both
  sides in hex, using `"0x0"` for a missing side. A null `latest` payload throws
  before anything is stored or emitted. A ghost log `events` records
  what the tracker emits. The invariant `Valid()` says that `current` is the value
  of the last emitted `latest` event.
- **The kitsunet handlers** (`kitsunet_middleware.dfy`). `eth_getBlockByNumber`
  asks the client for its latest block when the reference is `'latest'`.
  Otherwise it asks `getBlockByNumber(ref, false)` and never forwards the caller's
  `fullTx`. A found block is answered with `blockToRpc`. A missing block defers to
  `next()`. A rejection fails the request. `net_version` always answers
  `MAINNET_CODE`.
- **`blockToRpc`** (`block_shape.dfy`). This is the field renaming from the block's
  JSON form to the RPC block shape. `receiptRoot` falls back to `SHA3_NULL` when
  `receiptTrie` is falsy. The object literal has the key `transactionsRoot`
  twice, and the later one (the top-level `transactionsRoot`) is the one kept.
- **The merged network middleware** (`pipeline.dfy`). The stages run in this fixed
  order: the kitsunet handler, block-reference rewrite, slice (depth 10), then VM.
  One request object is threaded through the stages, so a stage that passes a
  request on may have rewritten it first. The first stage that ends a request
  decides its outcome.

Supporting modules:

- `hex.dfy` models `Buffer.toString('hex')` and `addHexPrefix`. It also has a
  reference parser `ParseHex`, which states what the written text means.
- `chain_client.dfy` is the client interface. A `Client` is a function from the
  two lookups (`Query`) to what each settles to (`Fetch`: a block, null, or a
  rejection).
- `wrappers.dfy` holds `Option` and `Result`.

The client's block lookups, the three later stages, and the VM's provider are
all parameters. Nothing here performs I/O.

Three behaviours of the code worth noting:

- The VM stage's provider is built from the kitsunet handler alone (line 54).
  It is not built from the whole merged stack. `Pipeline.Provider` and
  `Pipeline.NetworkMiddleware` make that explicit.
- The head pointer changes on every `latest` notification, whether or not a
  `sync` carrying the same number came first. No such ordering is enforced.
- A repeated `latest` for the same block leaves `current` unchanged, but the
  tracker emits `latest` again.

## Model

| member | source | states |
|---|---|---|
| Hex.HexOf | app/scripts/controllers/network/createKitsunetClient.js:109 | `toString('hex')` writes exactly two lower-case hex digits per byte |
| Hex.DigitValue | app/scripts/controllers/network/createKitsunetClient.js:109 | a character is a digit exactly when it is lower-case hex, and the nibble it reads as writes back as that character |
| Hex.ParseHexOfHex | app/scripts/controllers/network/createKitsunetClient.js:109 | the hex text of a byte buffer reads back as exactly that buffer |
| Hex.HexOfParseHex | app/scripts/controllers/network/createKitsunetClient.js:109 | any text the reader accepts is exactly the hex text of what it reads, so hex text and buffers correspond one to one |
| Hex.HexOfInjective | app/scripts/controllers/network/createKitsunetClient.js:109 | two buffers have the same hex text if and only if they are equal |
| Hex.HasHexPrefix | app/scripts/controllers/network/createKitsunetClient.js:95 | `isHexPrefixed`, used by `addHexPrefix`: true exactly when the first two characters, `s.slice(0, 2)`, are "0x" |
| Hex.AddHexPrefix | app/scripts/controllers/network/createKitsunetClient.js:95 | the result always starts with "0x"; text already prefixed is left alone, and other text follows the new prefix unchanged |
| Hex.AddHexPrefixIdempotent | app/scripts/controllers/network/createKitsunetClient.js:95 | adding the prefix twice is the same as adding it once |
| Hex.PrefixedHexRoundTrip | app/scripts/controllers/network/createKitsunetClient.js:95 | hex text never starts with "0x", so `addHexPrefix` always prepends, and the prefixed text reads back as the buffer |
| ChainClient.NumberHex | app/scripts/controllers/network/createKitsunetClient.js:95 | the hex-prefixed block number starts with "0x"; its digits read back as the block's number buffer |
| ChainClient.NumberHexDistinguishes | app/scripts/controllers/network/createKitsunetClient.js:101-102 | two blocks get the same hex number exactly when their number buffers are equal |
| BlockTracker.HexOrZero | app/scripts/controllers/network/createKitsunetClient.js:101-102 | a sync side is "0x0" if and only if the block is absent; a present block gets text that reads back as its number, never the sentinel |
| BlockTracker.LastLatest | app/scripts/controllers/network/createKitsunetClient.js:94-104 | the value of the most recent `latest` event: absent if and only if every emitted event is a sync, and otherwise the value of a `latest` event that was emitted; `SyncKeepsLastLatest` and `LatestThenSyncs` state how it evolves |
| BlockTracker.SyncKeepsLastLatest | app/scripts/controllers/network/createKitsunetClient.js:99-104 | any run of sync events leaves the value of the last latest event unchanged |
| BlockTracker.LatestThenSyncs | app/scripts/controllers/network/createKitsunetClient.js:94-104 | after a latest event, however many sync events come, the last latest value is that event's value |
| BlockTracker.KsnBlockTracker.Valid | app/scripts/controllers/network/createKitsunetClient.js:92-97 | the invariant: `current` is `LastLatest(events)`, so it is null exactly while no `latest` event has been emitted, and otherwise a value some `latest` event carried; the constructor, `OnLatest` and `OnSync` preserve it |
| BlockTracker.KsnBlockTracker.constructor | app/scripts/controllers/network/createKitsunetClient.js:89-92 | a new tracker has a null head and has emitted nothing |
| BlockTracker.KsnBlockTracker.OnLatest | app/scripts/controllers/network/createKitsunetClient.js:94-97 | for a block, the head becomes its hex-prefixed number and the one event appended is `latest` carrying exactly the stored value; a null payload fails with `NoBlock` (the TypeError at the header read) and changes nothing; the invariant holds |
| BlockTracker.KsnBlockTracker.OnSync | app/scripts/controllers/network/createKitsunetClient.js:99-104 | the head is unchanged; the one event appended is `sync` with each side's hex number or "0x0"; the invariant holds |
| BlockTracker.KsnBlockTracker.GetLatestBlock | app/scripts/controllers/network/createKitsunetClient.js:107-110 | it succeeds exactly when the client finds a latest block, returning text that reads back as that block's number; null gives a NoBlock failure and a rejection passes through; it changes no state |
| BlockTracker.KsnBlockTracker.GetCurrentBlock | app/scripts/controllers/network/createKitsunetClient.js:112-114 | it returns the stored head, which is the value of the last latest event, and null while only sync events (or none) have been emitted |
| BlockShape.BlockToRpc | app/scripts/controllers/network/createKitsunetClient.js:117-138 | the object literal of `blockToRpc`; its contract is stated by `RenamedFieldsCopied`, `ReceiptRootFallback`, `TransactionsRootFromTopLevel` and `TransactionsRootAgreement` |
| BlockShape.RenamedFieldsCopied | app/scripts/controllers/network/createKitsunetClient.js:117-138 | every header field of the renaming table (uncleHash to sha3Uncles, coinbase to miner, bloom to logsBloom, unchanged names) reaches the RPC block with its value unchanged, as do the transactions |
| BlockShape.ReceiptRootFallback | app/scripts/controllers/network/createKitsunetClient.js:125 | `receiptRoot` is `receiptTrie` when that is truthy (present and non-empty), and `SHA3_NULL` otherwise |
| BlockShape.TransactionsRootFromTopLevel | app/scripts/controllers/network/createKitsunetClient.js:124-136 | `transactionsRoot` is the top-level field (the later duplicate key wins), and the header's `transactionsTrie` has no influence on the result |
| BlockShape.TransactionsRootAgreement | app/scripts/controllers/network/createKitsunetClient.js:124-136 | the result carries the header's trie if and only if the block duplicates it at the top level |
| KitsunetMiddleware.BlockQuery | app/scripts/controllers/network/createKitsunetClient.js:71-77 | the lookup is the latest block exactly when the first parameter is 'latest'; otherwise it is by that reference, with `fullTx` false |
| KitsunetMiddleware.GetBlockByNumber | app/scripts/controllers/network/createKitsunetClient.js:70-81 | answers `blockToRpc` of the block the selected lookup finds, defers with the request unchanged if and only if there is no block, and fails with a rejection's reason; `HandlerReadsOneLookup` and `FullTxNotForwarded` state what it depends on |
| KitsunetMiddleware.NetVersion | app/scripts/controllers/network/createKitsunetClient.js:82-84 | `net_version` answers `MAINNET_CODE` |
| KitsunetMiddleware.KitsunetHandler | app/scripts/controllers/network/createKitsunetClient.js:69-85 | the scaffold: `eth_getBlockByNumber` goes to its handler, `net_version` answers `MAINNET_CODE`, and a request it passes on is never altered; `OtherMethodsDefer` covers every other method |
| KitsunetMiddleware.BlockLookupOutcome | app/scripts/controllers/network/createKitsunetClient.js:72-80 | the handler defers if and only if the client has no block, answers `blockToRpc` of a found block, and fails with a rejection's reason |
| KitsunetMiddleware.HandlerReadsOneLookup | app/scripts/controllers/network/createKitsunetClient.js:70-81 | two clients that agree on the one lookup a request selects get the same outcome |
| KitsunetMiddleware.FullTxNotForwarded | app/scripts/controllers/network/createKitsunetClient.js:76 | requests with the same block reference issue the same lookup whatever follows it, and a non-'latest' reference is looked up with `fullTx` false |
| KitsunetMiddleware.MissingBlockDefers | app/scripts/controllers/network/createKitsunetClient.js:79 | with no block 42, `['0x2a', true]` is passed on unchanged to the next stage rather than failing |
| KitsunetMiddleware.NetVersionConstant | app/scripts/controllers/network/createKitsunetClient.js:82-84 | `net_version` answers `MAINNET_CODE` for every client and every parameter list |
| KitsunetMiddleware.OtherMethodsDefer | app/scripts/controllers/network/createKitsunetClient.js:69-85 | every method other than the two listed is passed to `next()` unchanged |
| Pipeline.RunStages | app/scripts/controllers/network/createKitsunetClient.js:57-62 | `mergeMiddleware`: the stages run in order on one threaded request until one ends it; its contract is stated by `Trace`, `AllDeferred`, `FirstEndingStageDecides`, `RunStagesFollowsTrace` and `RunStagesAppend` |
| Pipeline.Trace | app/scripts/controllers/network/createKitsunetClient.js:57-62 | the requests the stages receive: it starts with the incoming request, each stage in it hands the next one its forwarded request, and it either covers every stage or stops at a stage that ends the request |
| Pipeline.AllDeferred | app/scripts/controllers/network/createKitsunetClient.js:57-62 | when every stage passes the request on, the merged stages pass on the request as the last stage forwarded it |
| Pipeline.FirstEndingStageDecides | app/scripts/controllers/network/createKitsunetClient.js:57-62 | when the stages before k pass the request on and stage k ends it, the merged outcome is stage k's on the request it received |
| Pipeline.RunStagesFollowsTrace | app/scripts/controllers/network/createKitsunetClient.js:57-62 | every merged outcome is decided by the trace: the last forwarded request when all stages pass, otherwise the outcome of the stage that ended it |
| Pipeline.RunStagesAppend | app/scripts/controllers/network/createKitsunetClient.js:57-62 | merging front and back stages behaves like merging the concatenated list, with the back stages receiving the request the front stages forwarded |
| Pipeline.LaterStagesUnseen | app/scripts/controllers/network/createKitsunetClient.js:57-62 | once the front stages end a request, no stages placed after them can change its outcome |
| Pipeline.NetworkMiddleware | app/scripts/controllers/network/createKitsunetClient.js:54-62 | four stages in order: the kitsunet handler, the rewrite, the slice at depth 10, and the VM over a provider made of the kitsunet handler alone |
| Pipeline.Serve | app/scripts/controllers/network/createKitsunetClient.js:57-62 | the network middleware applied to one request; its contract is stated by `HandlerRunsFirst`, `RewriteFeedsLaterStages`, `NetVersionServed`, `BlockRequestServed`, `OtherMethodsPassThrough` and `LatestBlockNumberAgrees` |
| Pipeline.HandlerRunsFirst | app/scripts/controllers/network/createKitsunetClient.js:57-62 | an outcome decided by the kitsunet handler is final; a deferred request goes to the three later stages in order |
| Pipeline.NetVersionServed | app/scripts/controllers/network/createKitsunetClient.js:57-84 | through the whole stack, `net_version` is answered with `MAINNET_CODE` whatever the later stages do |
| Pipeline.BlockRequestServed | app/scripts/controllers/network/createKitsunetClient.js:57-81 | through the whole stack, a found block is answered by its RPC shape, a rejection fails, and only a missing block reaches the later stages |
| Pipeline.OtherMethodsPassThrough | app/scripts/controllers/network/createKitsunetClient.js:57-62 | any other method is decided by the later stages alone |
| Pipeline.RewriteFeedsLaterStages | app/scripts/controllers/network/createKitsunetClient.js:57-61 | a request the kitsunet handler passes on reaches the rewrite as it arrived, and the slice and VM stages receive the request as the rewrite forwarded it |
| Pipeline.LatestBlockNumberAgrees | app/scripts/controllers/network/createKitsunetClient.js:73-80 | for a client whose serialiser writes the number as hex, 'latest' through the stack answers a block whose `number` is the text `getLatestBlock` returns |

`BlockTracker.ReorgScenario` is a verified client of the tracker's
contracts. It walks the reorg sequence from head 0x64 to 0x65. The head stays
0x64 across the sync notification and across a null `latest` payload. It moves
only on the `latest` notification for 0x65.

## Left out

- Startup (lines 22-48 and 64) is not modelled: peer identity, peer info, libp2p addresses, the kitsunet configuration and `kitsunet.start()`. It is peer-to-peer plumbing behind foreign libraries.
- `createBlockRefRewriteMiddleware`, `createSliceMiddleware`, `createVmMiddleware`, `providerFromMiddleware`, `mergeMiddleware`, `scaffold` and `createAsyncMiddleware` are libraries that are not part of this model. The three later stages are uninterpreted parameters. Only the ordering and the short-circuit are kept. So is the handler lookup by method name; the scaffold's lookup through JavaScript object prototypes is left out.
- The in-place write `res.result = …` (lines 80 and 83) is modelled as the value `Answered(result)`. The handlers are pure functions over the request and the client's answers. The response object, and aliasing of it, are not modelled.
- The request object `mergeMiddleware` shares among the stages is modelled by value: a stage that calls `next()` returns `Deferred(forwarded)`, the request as it left it, and the next stage receives that request. Aliasing of the request object outside the stages, and changes a stage makes after `next()` returns, are not modelled.
- OnSync: a null `sync` payload, which throws at the destructuring on line 99, is not modelled; the method takes the payload's two sides, each of which may be null.
- A present block whose header or number is missing, which would also throw in the `latest` and `sync` handlers, is not modelled.
- Promise timing and the event emitter's dispatch are not modelled. Notifications are sequential method calls, and emitted events are a ghost log. The tracker's stored `client` reference and its subscriptions (`client.on`) are not fields of the class.
- `block.toJSON(true)` belongs to the block library. A `Block` carries its JSON form as a field. The raw header holds only the number buffer, the one raw field the core reads. The only link between the two forms is the predicate `SerialisesNumber`, which is used only as a requirement.
- `SHA3_NULL` and `MAINNET_CODE` come from ethereumjs-util and from the enums module, which are not part of this model. `SHA3_NULL` is a fixed hex string; that library exports it as a byte buffer. `MAINNET_CODE` is 1. No proof depends on either value.
- Request parameters are limited to strings, booleans, integers and null. A `params` value that is not a list is not modelled.
- The head text is the buffer's hex, not a canonical quantity: a number buffer `[5]` gives "0x05", and an empty buffer gives "0x". The model reproduces this and does not correct it.
- `babel.config.js` is build configuration with no logic.
