/**
 * `KsnBlockTracker`: keeps the hex number of the client's latest block and
 * re-emits the client's `latest` and `sync` notifications in hex form.
 * Notifications arrive as method calls, in the order the client emits them;
 * `events` records what the tracker has emitted to its own listeners.
 */
module BlockTracker {
  import opened Wrappers
  import opened Hex
  import opened ChainClient

  /** The text a `sync` payload carries for a side that has no block. */
  const ZERO_HEX: string := "0x0"

  /** An event emitted by the tracker. */
  datatype Event = LatestEvent(head: string) | SyncEvent(newBlock: string, oldBlock: string)

  /** Why `getLatestBlock` rejects: the client rejected, or it resolved to null (reading its header throws). */
  datatype LatestFailure = ClientRejected(reason: string) | NoBlock

  /** One side of a `sync` payload: the hex number of a block that is there, "0x0" for one that is not. */
  function HexOrZero(block: Option<Block>): (s: string)
    ensures s == ZERO_HEX <==> block.None?
    ensures block.Some? ==> ParsePrefixedHex(s) == Some(block.value.header.number)
  {
    if block.Some? then NumberHex(block.value) else ZERO_HEX
  }

  /** The value carried by the most recent `latest` event, if there was one. */
  ghost function LastLatest(events: seq<Event>): (r: Option<string>)
    ensures r.None? <==> forall i :: 0 <= i < |events| ==> events[i].SyncEvent?
    ensures r.Some? ==> LatestEvent(r.value) in events
  {
    if events == [] then None
    else match events[|events| - 1]
      case LatestEvent(head) => Some(head)
      case SyncEvent(_, _) => LastLatest(events[..|events| - 1])
  }

  /** Any run of `sync` events leaves the last `latest` value where it was. */
  lemma {:induction false} SyncKeepsLastLatest(events: seq<Event>, syncs: seq<Event>)
    requires forall i :: 0 <= i < |syncs| ==> syncs[i].SyncEvent?
    ensures LastLatest(events + syncs) == LastLatest(events)
    decreases |syncs|
  {
    if syncs != [] {
      var init := syncs[..|syncs| - 1];
      assert (events + syncs)[|events + syncs| - 1] == syncs[|syncs| - 1];
      assert (events + syncs)[..|events + syncs| - 1] == events + init;
      SyncKeepsLastLatest(events, init);
      assert LastLatest(events + syncs) == LastLatest(events + init);
    } else {
      assert events + syncs == events;
    }
  }

  /** A `latest` event followed by any run of `sync` events leaves exactly its value as the last `latest` value. */
  lemma LatestThenSyncs(events: seq<Event>, head: string, syncs: seq<Event>)
    requires forall i :: 0 <= i < |syncs| ==> syncs[i].SyncEvent?
    ensures LastLatest(events + [LatestEvent(head)] + syncs) == Some(head)
  {
    SyncKeepsLastLatest(events + [LatestEvent(head)], syncs);
  }

  class KsnBlockTracker {
    /** `this.current`: null until the first `latest` notification. */
    var current: Option<string>
    ghost var events: seq<Event>

    /** The stored head is always the value of the last emitted `latest` event. */
    ghost predicate Valid()
      reads this
      ensures Valid() ==> (current.None? <==> forall i :: 0 <= i < |events| ==> events[i].SyncEvent?)
      ensures Valid() && current.Some? ==> LatestEvent(current.value) in events
    {
      current == LastLatest(events)
    }

    constructor ()
      ensures Valid()
      ensures current == None && events == []
    {
      current := None;
      events := [];
    }

    /**
     * The client's `latest` handler: store the block's hex number, then emit it.
     * A null payload throws at the header read (`NoBlock`) before anything is
     * stored or emitted.
     */
    method OnLatest(block: Option<Block>) returns (r: Result<string, LatestFailure>)
      requires Valid()
      modifies this
      ensures Valid()
      ensures r.Success? <==> block.Some?
      ensures block.None? ==> r == Failure(NoBlock) && current == old(current) && events == old(events)
      ensures block.Some? ==> current == Some(NumberHex(block.value)) && r.value == current.value
      ensures block.Some? ==> events == old(events) + [LatestEvent(current.value)]
    {
      if block.None? {
        return Failure(NoBlock);
      }
      current := Some(NumberHex(block.value));
      events := events + [LatestEvent(current.value)];
      r := Success(current.value);
    }

    /** The client's `sync` handler: emit both sides in hex, "0x0" for a missing one; the head is untouched. */
    method OnSync(newBlock: Option<Block>, oldBlock: Option<Block>)
      requires Valid()
      modifies this
      ensures Valid()
      ensures current == old(current)
      ensures events == old(events) + [SyncEvent(HexOrZero(newBlock), HexOrZero(oldBlock))]
    {
      SyncKeepsLastLatest(events, [SyncEvent(HexOrZero(newBlock), HexOrZero(oldBlock))]);
      events := events + [SyncEvent(HexOrZero(newBlock), HexOrZero(oldBlock))];
    }

    /**
     * `getLatestBlock()`, given what the client's own `getLatestBlock()` settled to.
     * The method changes nothing: the head moves only on `latest` notifications.
     */
    method GetLatestBlock(client: Client) returns (r: Result<string, LatestFailure>)
      ensures r.Success? <==> client(LatestBlock).Found?
      ensures client(LatestBlock).Found? ==> ParsePrefixedHex(r.value) == Some(client(LatestBlock).block.header.number)
      ensures client(LatestBlock).Found? ==> r.value == NumberHex(client(LatestBlock).block)
      ensures client(LatestBlock).Missing? ==> r == Failure(NoBlock)
      ensures client(LatestBlock).Rejected? ==> r == Failure(ClientRejected(client(LatestBlock).reason))
    {
      match client(LatestBlock)
      case Found(block) => r := Success(NumberHex(block));
      case Missing => r := Failure(NoBlock);
      case Rejected(reason) => r := Failure(ClientRejected(reason));
    }

    /** `getCurrentBlock()`: the value of the last `latest` event, null before the first. */
    method GetCurrentBlock() returns (head: Option<string>)
      requires Valid()
      ensures head == current && head == LastLatest(events)
      ensures (forall i :: 0 <= i < |events| ==> events[i].SyncEvent?) ==> head == None
    {
      head := current;
    }
  }

  /**
   * A reorg as a listener sees it: the head is 0x64, a sync from 0x64 to 0x65
   * is re-emitted with both numbers, and the head stays 0x64, also across a
   * null `latest` payload, until a `latest` notification for 0x65.
   */
  method ReorgScenario(json: JsonBlock) {
    var b64 := Block(Header([0x64]), json);
    var b65 := Block(Header([0x65]), json);
    assert NumberHex(b64) == "0x64" && NumberHex(b65) == "0x65" by {
      assert [0x64][1..] == [] && [0x65][1..] == [];
      assert HexOf([0x64]) == "64" && HexOf([0x65]) == "65";
    }
    var tracker := new KsnBlockTracker();
    var head := tracker.GetCurrentBlock();
    assert head == None;

    var stored := tracker.OnLatest(Some(b64));
    head := tracker.GetCurrentBlock();
    assert head == Some("0x64");

    tracker.OnSync(Some(b65), Some(b64));
    assert tracker.events[|tracker.events| - 1] == SyncEvent("0x65", "0x64");
    head := tracker.GetCurrentBlock();
    assert head == Some("0x64");

    tracker.OnSync(None, Some(b65));
    assert tracker.events[|tracker.events| - 1] == SyncEvent(ZERO_HEX, "0x65");

    stored := tracker.OnLatest(None);
    head := tracker.GetCurrentBlock();
    assert head == Some("0x64");

    stored := tracker.OnLatest(Some(b65));
    head := tracker.GetCurrentBlock();
    assert head == Some("0x65");
  }
}
