/**
 * `createKitsunetMiddleware`: a scaffold that answers `eth_getBlockByNumber`
 * and `net_version` from the client and passes every other method on.
 * Setting `res.result` and ending is `Answered`, calling `next()` is
 * `Deferred` with the request as it is passed on, and a rejection caught by
 * the async wrapper is `Failed`.
 */
module KitsunetMiddleware {
  import opened Wrappers
  import opened ChainClient
  import opened BlockShape

  /** The network id of the Ethereum main network, from the enums module. */
  const MAINNET_CODE: int := 1

  datatype Request = Request(name: string, params: seq<Param>)

  /** What a handler can put in `res.result`. */
  datatype RpcResult = BlockResult(block: RpcBlock) | NetworkId(code: int)

  /**
   * How one middleware stage leaves a request. A stage that calls `next()` may
   * have changed the shared request object first; `forwarded` is the request
   * as the next stage sees it.
   */
  datatype Outcome = Answered(result: RpcResult) | Failed(error: string) | Deferred(forwarded: Request)

  /** `const [blockRef] = req.params`: the first parameter, undefined when there is none. */
  function BlockRef(req: Request): Option<Param> {
    if |req.params| > 0 then Some(req.params[0]) else None
  }

  /** The lookup `eth_getBlockByNumber` issues: the client's latest block for 'latest', otherwise by number with `fullTx` false. */
  function BlockQuery(req: Request): (q: Query)
    ensures q.LatestBlock? <==> BlockRef(req) == Some(PStr("latest"))
    ensures q.BlockByNumber? ==> q.ref == BlockRef(req) && !q.fullTx
  {
    if BlockRef(req) == Some(PStr("latest")) then LatestBlock else BlockByNumber(BlockRef(req), false)
  }

  /**
   * The `eth_getBlockByNumber` handler: it answers from the one lookup the
   * request selects and passes the request on untouched when there is no block.
   */
  function GetBlockByNumber(client: Client, req: Request): (o: Outcome)
    ensures o.Deferred? <==> client(BlockQuery(req)).Missing?
    ensures o.Deferred? ==> o.forwarded == req
    ensures o.Answered? <==> client(BlockQuery(req)).Found?
    ensures o.Answered? ==> o.result == BlockResult(BlockToRpc(client(BlockQuery(req)).block))
    ensures o.Failed? ==> o.error == client(BlockQuery(req)).reason
  {
    match client(BlockQuery(req))
    case Found(block) => Answered(BlockResult(BlockToRpc(block)))
    case Missing => Deferred(req)
    case Rejected(reason) => Failed(reason)
  }

  /** The `net_version` handler. */
  function NetVersion(req: Request): (o: Outcome)
    ensures o == Answered(NetworkId(MAINNET_CODE))
  {
    Answered(NetworkId(MAINNET_CODE))
  }

  /** The scaffold: a handler per listed method, `next()` for any other; it never alters the request it passes on. */
  function KitsunetHandler(client: Client, req: Request): (o: Outcome)
    ensures req.name == "eth_getBlockByNumber" ==> o == GetBlockByNumber(client, req)
    ensures req.name == "net_version" ==> o == Answered(NetworkId(MAINNET_CODE))
    ensures o.Deferred? ==> o.forwarded == req
  {
    if req.name == "eth_getBlockByNumber" then GetBlockByNumber(client, req)
    else if req.name == "net_version" then NetVersion(req)
    else Deferred(req)
  }

  /**
   * The handler answers with `blockToRpc` of the block the client found, defers
   * exactly when the client has no block, and fails with the client's rejection.
   */
  lemma BlockLookupOutcome(client: Client, req: Request)
    requires req.name == "eth_getBlockByNumber"
    ensures var fetched := client(BlockQuery(req));
      && (KitsunetHandler(client, req).Deferred? <==> fetched.Missing?)
      && (fetched.Found? ==> KitsunetHandler(client, req) == Answered(BlockResult(BlockToRpc(fetched.block))))
      && (fetched.Rejected? ==> KitsunetHandler(client, req) == Failed(fetched.reason))
  {
  }

  /** The answer depends on the client only through the one lookup the request selects. */
  lemma HandlerReadsOneLookup(c1: Client, c2: Client, req: Request)
    requires c1(BlockQuery(req)) == c2(BlockQuery(req))
    ensures KitsunetHandler(c1, req) == KitsunetHandler(c2, req)
  {
  }

  /** The caller's `fullTx` flag is never forwarded: any two requests that agree on the block reference issue the same lookup. */
  lemma FullTxNotForwarded(ref: Param, first: seq<Param>, second: seq<Param>)
    ensures BlockQuery(Request("eth_getBlockByNumber", [ref] + first))
         == BlockQuery(Request("eth_getBlockByNumber", [ref] + second))
    ensures ref != PStr("latest") ==>
      BlockQuery(Request("eth_getBlockByNumber", [ref] + first)) == BlockByNumber(Some(ref), false)
  {
  }

  /** A missing block is a pass to the next stage, not an error, whatever `fullTx` says. */
  lemma MissingBlockDefers(client: Client)
    requires client(BlockByNumber(Some(PStr("0x2a")), false)) == Missing
    ensures var req := Request("eth_getBlockByNumber", [PStr("0x2a"), PBool(true)]);
      KitsunetHandler(client, req) == Deferred(req)
  {
  }

  /** `net_version` answers the main-network id for every client and every parameter list. */
  lemma NetVersionConstant(c1: Client, c2: Client, p1: seq<Param>, p2: seq<Param>)
    ensures KitsunetHandler(c1, Request("net_version", p1)) == Answered(NetworkId(MAINNET_CODE))
    ensures KitsunetHandler(c1, Request("net_version", p1)) == KitsunetHandler(c2, Request("net_version", p2))
  {
  }

  /** Every method other than the two listed passes straight on, unchanged. */
  lemma OtherMethodsDefer(client: Client, req: Request)
    requires req.name != "eth_getBlockByNumber" && req.name != "net_version"
    ensures KitsunetHandler(client, req) == Deferred(req)
  {
  }
}
