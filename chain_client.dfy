/**
 * The narrow interface through which the kitsunet core sees its peer-to-peer
 * client: block objects, the two lookups it issues, and what a lookup can
 * come back with.
 */
module ChainClient {
  import opened Wrappers
  import opened Hex

  /** A JSON value as it can appear in a request's `params` list. */
  datatype Param = PStr(s: string) | PBool(b: bool) | PNum(n: int) | PNull

  /** The block's raw header; the core reads nothing from it but the number buffer. */
  datatype Header = Header(number: seq<Byte>)

  /**
   * The header as the block's `toJSON(true)` presents it. `receiptTrie` may be
   * absent; the other fields are copied verbatim and need no shape here.
   */
  datatype JsonHeader = JsonHeader(
    parentHash: string, uncleHash: string, coinbase: string, stateRoot: string,
    transactionsTrie: string, receiptTrie: Option<string>, bloom: string,
    difficulty: string, number: string, gasLimit: string, gasUsed: string,
    timestamp: string, extraData: string, mixHash: string, nonce: string)

  /** The whole of `toJSON(true)`: the header, the transactions (opaque here) and a top-level `transactionsRoot`, which may be absent. */
  datatype JsonBlock = JsonBlock(header: JsonHeader, transactions: seq<string>, transactionsRoot: Option<string>)

  /** A client block object: its raw header and the JSON its serialiser produces. */
  datatype Block = Block(header: Header, json: JsonBlock)

  /** The two lookups the core issues: `getLatestBlock()` and `getBlockByNumber(ref, fullTx)`. */
  datatype Query = LatestBlock | BlockByNumber(ref: Option<Param>, fullTx: bool)

  /** What a lookup settles to: a block, null (no such block), or a rejection. */
  datatype Fetch = Found(block: Block) | Missing | Rejected(reason: string)

  /** The client's answers at the moment a request is handled. */
  type Client = Query -> Fetch

  /** `addHexPrefix(block.header.number.toString('hex'))`: "0x" and the number's digits, which read back as the number. */
  function NumberHex(block: Block): (s: string)
    ensures HasHexPrefix(s)
    ensures ParsePrefixedHex(s) == Some(block.header.number)
  {
    PrefixedHexRoundTrip(block.header.number);
    AddHexPrefix(HexOf(block.header.number))
  }

  /** Two blocks get the same hex number exactly when their number buffers agree. */
  lemma NumberHexDistinguishes(a: Block, b: Block)
    ensures NumberHex(a) == NumberHex(b) <==> a.header.number == b.header.number
  {
  }

  /** The serialiser writes the number field as the "0x"-prefixed hex of the raw number buffer. */
  predicate SerialisesNumber(block: Block) {
    block.json.header.number == NumberHex(block)
  }
}
