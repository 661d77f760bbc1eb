/**
 * The network middleware of the kitsunet client: `mergeMiddleware` over four
 * stages in a fixed order, threading one request object through them. A stage
 * either ends the request (an answer or an error) or calls `next()`, after
 * possibly rewriting the request; the first stage that ends it decides the
 * outcome and no later stage runs. Only the first stage is defined in this model; the
 * block-reference rewrite, the slice stage and the VM stage are parameters.
 */
module Pipeline {
  import opened ChainClient
  import opened KitsunetMiddleware

  /** A middleware stage, seen through how it leaves a request. */
  type Stage = Request -> Outcome

  /** The trie depth the slice stage is configured with. */
  const SLICE_DEPTH: nat := 10

  /**
   * `mergeMiddleware(stages)`: run the stages in order on one shared request,
   * each seeing it as the stage before passed it on, until one ends it; if
   * none does, `next()` with the request as the last stage left it.
   */
  function RunStages(stages: seq<Stage>, req: Request): Outcome {
    if stages == [] then Deferred(req)
    else if stages[0](req).Deferred? then RunStages(stages[1..], stages[0](req).forwarded)
    else stages[0](req)
  }

  lemma RunStagesCons(first: Stage, rest: seq<Stage>, req: Request)
    ensures RunStages([first] + rest, req)
         == if first(req).Deferred? then RunStages(rest, first(req).forwarded) else first(req)
  {
  }

  /**
   * `reqs[j]` is the request stage `j` receives: it starts as `reqs[0]`, and
   * each of the first `|reqs| - 1` stages passes the next one on.
   */
  ghost predicate Forwards(stages: seq<Stage>, reqs: seq<Request>) {
    && 1 <= |reqs| <= |stages| + 1
    && forall j :: 0 <= j < |reqs| - 1 ==> stages[j](reqs[j]) == Deferred(reqs[j + 1])
  }

  /**
   * The requests the stages actually receive: either every stage passes the
   * request on, or the trace stops at the first stage that ends it.
   */
  ghost function Trace(stages: seq<Stage>, req: Request): (reqs: seq<Request>)
    ensures Forwards(stages, reqs) && reqs[0] == req
    ensures |reqs| == |stages| + 1 || !stages[|reqs| - 1](reqs[|reqs| - 1]).Deferred?
    decreases |stages|
  {
    if stages == [] || !stages[0](req).Deferred? then [req]
    else
      var tail := Trace(stages[1..], stages[0](req).forwarded);
      assert forall j :: 1 <= j < |tail| ==> stages[j] == stages[1..][j - 1];
      [req] + tail
  }

  /** When every stage passes the request on, the merged stages pass on what the last one forwarded. */
  lemma {:induction false} AllDeferred(stages: seq<Stage>, reqs: seq<Request>)
    requires Forwards(stages, reqs) && |reqs| == |stages| + 1
    ensures RunStages(stages, reqs[0]) == Deferred(reqs[|stages|])
  {
    if stages != [] {
      assert forall j :: 0 <= j < |reqs[1..]| - 1 ==> stages[1..][j] == stages[j + 1];
      AllDeferred(stages[1..], reqs[1..]);
    }
  }

  /**
   * Short-circuit: when the stages before `k` pass the request on and stage
   * `k` ends it, stage `k`'s outcome is the merged outcome.
   */
  lemma {:induction false} FirstEndingStageDecides(stages: seq<Stage>, reqs: seq<Request>)
    requires Forwards(stages, reqs) && |reqs| <= |stages|
    requires !stages[|reqs| - 1](reqs[|reqs| - 1]).Deferred?
    ensures RunStages(stages, reqs[0]) == stages[|reqs| - 1](reqs[|reqs| - 1])
  {
    if |reqs| > 1 {
      assert forall j :: 0 <= j < |reqs[1..]| - 1 ==> stages[1..][j] == stages[j + 1];
      FirstEndingStageDecides(stages[1..], reqs[1..]);
    }
  }

  /** Together, the trace and the two lemmas above decide every merged outcome. */
  lemma RunStagesFollowsTrace(stages: seq<Stage>, req: Request)
    ensures var reqs := Trace(stages, req);
      RunStages(stages, req)
        == if |reqs| == |stages| + 1 then Deferred(reqs[|stages|]) else stages[|reqs| - 1](reqs[|reqs| - 1])
  {
    var reqs := Trace(stages, req);
    if |reqs| == |stages| + 1 {
      AllDeferred(stages, reqs);
    } else {
      FirstEndingStageDecides(stages, reqs);
    }
  }

  /** Merging nests: the back stages receive the request as the merged front stages pass it on. */
  lemma {:induction false} RunStagesAppend(front: seq<Stage>, back: seq<Stage>, req: Request)
    ensures RunStages(front + back, req)
         == match RunStages(front, req)
            case Deferred(forwarded) => RunStages(back, forwarded)
            case ended => ended
  {
    if front == [] {
      assert front + back == back;
    } else {
      assert (front + back)[1..] == front[1..] + back;
      assert (front + back)[0] == front[0];
      if front[0](req).Deferred? {
        RunStagesAppend(front[1..], back, front[0](req).forwarded);
      }
    }
  }

  /** Once the front stages have ended a request, nothing placed after them can change its outcome. */
  lemma LaterStagesUnseen(front: seq<Stage>, back1: seq<Stage>, back2: seq<Stage>, req: Request)
    requires !RunStages(front, req).Deferred?
    ensures RunStages(front + back1, req) == RunStages(front + back2, req) == RunStages(front, req)
  {
    RunStagesAppend(front, back1, req);
    RunStagesAppend(front, back2, req);
  }

  /** The kitsunet handler as a stage. */
  function KitsunetStage(client: Client): Stage {
    req => KitsunetHandler(client, req)
  }

  /** The provider the VM stage is built on: the kitsunet handler alone, not the merged stack. */
  function Provider(client: Client): Stage {
    KitsunetStage(client)
  }

  /** The stages after the kitsunet handler: block-reference rewrite, slice at depth 10, VM over the provider. */
  function Downstream(client: Client, rewrite: Stage, slice: nat -> Stage, vm: Stage -> Stage): seq<Stage> {
    [rewrite, slice(SLICE_DEPTH), vm(Provider(client))]
  }

  /** The merged network middleware in its fixed order. */
  function NetworkMiddleware(client: Client, rewrite: Stage, slice: nat -> Stage, vm: Stage -> Stage): (stages: seq<Stage>)
    ensures |stages| == 4
    ensures forall req :: stages[0](req) == KitsunetHandler(client, req)
    ensures forall req :: stages[1](req) == rewrite(req)
    ensures forall req :: stages[2](req) == slice(SLICE_DEPTH)(req)
    ensures forall req :: stages[3](req) == vm(Provider(client))(req)
  {
    [KitsunetStage(client)] + Downstream(client, rewrite, slice, vm)
  }

  /** How the network middleware leaves a request. */
  function Serve(client: Client, rewrite: Stage, slice: nat -> Stage, vm: Stage -> Stage, req: Request): Outcome {
    RunStages(NetworkMiddleware(client, rewrite, slice, vm), req)
  }

  /** The kitsunet handler runs first: what it decides is final, and what it passes on goes to the later stages in order. */
  lemma HandlerRunsFirst(client: Client, rewrite: Stage, slice: nat -> Stage, vm: Stage -> Stage, req: Request)
    ensures Serve(client, rewrite, slice, vm, req)
         == if KitsunetHandler(client, req).Deferred?
            then RunStages(Downstream(client, rewrite, slice, vm), req)
            else KitsunetHandler(client, req)
  {
    RunStagesCons(KitsunetStage(client), Downstream(client, rewrite, slice, vm), req);
  }

  /** `net_version` is answered with the main-network id whatever the later stages would do. */
  lemma NetVersionServed(client: Client, rewrite: Stage, slice: nat -> Stage, vm: Stage -> Stage, params: seq<Param>)
    ensures Serve(client, rewrite, slice, vm, Request("net_version", params)) == Answered(NetworkId(MAINNET_CODE))
  {
    HandlerRunsFirst(client, rewrite, slice, vm, Request("net_version", params));
  }

  /**
   * `eth_getBlockByNumber` through the whole stack: a found block is answered with
   * its RPC shape, a rejection fails the request, and only a missing block
   * reaches the later stages.
   */
  lemma BlockRequestServed(client: Client, rewrite: Stage, slice: nat -> Stage, vm: Stage -> Stage, req: Request)
    requires req.name == "eth_getBlockByNumber"
    ensures var fetched := client(BlockQuery(req));
      Serve(client, rewrite, slice, vm, req)
        == match fetched
           case Found(block) => Answered(BlockResult(BlockShape.BlockToRpc(block)))
           case Rejected(reason) => Failed(reason)
           case Missing => RunStages(Downstream(client, rewrite, slice, vm), req)
  {
    HandlerRunsFirst(client, rewrite, slice, vm, req);
  }

  /** Every other method is decided by the later stages alone. */
  lemma OtherMethodsPassThrough(client: Client, rewrite: Stage, slice: nat -> Stage, vm: Stage -> Stage, req: Request)
    requires req.name != "eth_getBlockByNumber" && req.name != "net_version"
    ensures Serve(client, rewrite, slice, vm, req) == RunStages(Downstream(client, rewrite, slice, vm), req)
  {
    HandlerRunsFirst(client, rewrite, slice, vm, req);
  }

  /**
   * A request the kitsunet handler passes on reaches the rewrite stage as it
   * arrived; whatever the rewrite forwards (its rewritten block reference) is
   * what the slice stage and then the VM stage receive.
   */
  lemma RewriteFeedsLaterStages(client: Client, rewrite: Stage, slice: nat -> Stage, vm: Stage -> Stage, req: Request)
    requires KitsunetHandler(client, req).Deferred?
    ensures Serve(client, rewrite, slice, vm, req)
         == if rewrite(req).Deferred?
            then RunStages([slice(SLICE_DEPTH), vm(Provider(client))], rewrite(req).forwarded)
            else rewrite(req)
  {
    HandlerRunsFirst(client, rewrite, slice, vm, req);
    RunStagesCons(rewrite, [slice(SLICE_DEPTH), vm(Provider(client))], req);
    assert Downstream(client, rewrite, slice, vm) == [rewrite] + [slice(SLICE_DEPTH), vm(Provider(client))];
  }

  /**
   * 'latest' through the stack agrees with the tracker: the answered block's
   * `number` is the text `getLatestBlock` returns for the same client block.
   */
  lemma LatestBlockNumberAgrees(client: Client, rewrite: Stage, slice: nat -> Stage, vm: Stage -> Stage, rest: seq<Param>)
    requires client(LatestBlock).Found?
    requires SerialisesNumber(client(LatestBlock).block)
    ensures var out := Serve(client, rewrite, slice, vm, Request("eth_getBlockByNumber", [PStr("latest")] + rest));
      && out.Answered? && out.result.BlockResult?
      && out.result.block.number == NumberHex(client(LatestBlock).block)
  {
    BlockRequestServed(client, rewrite, slice, vm, Request("eth_getBlockByNumber", [PStr("latest")] + rest));
  }
}
