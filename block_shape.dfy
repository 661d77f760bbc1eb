/**
 * `blockToRpc`: the renaming of a client block's JSON into the block shape of
 * the Ethereum JSON-RPC interface.
 */
module BlockShape {
  import opened Wrappers
  import opened ChainClient

  /** ethereumjs-util's `SHA3_NULL`, the fallback receipt root (its value is not used by any proof). */
  const SHA3_NULL: string := "0xc5d2460186f7233c927e7db2dcc703c0e500b653ca82273b7bfad8045d85a470"

  /** The block object `blockToRpc` returns. `transactionsRoot` is absent when the top-level field is. */
  datatype RpcBlock = RpcBlock(
    parentHash: string, sha3Uncles: string, miner: string, stateRoot: string,
    transactionsRoot: Option<string>, receiptRoot: string, logsBloom: string,
    difficulty: string, number: string, gasLimit: string, gasUsed: string,
    timestamp: string, extraData: string, mixHash: string, nonce: string,
    transactions: seq<string>)

  /** JavaScript truthiness of an optional string: present and not "". */
  predicate Truthy(v: Option<string>) {
    v.Some? && v.value != ""
  }

  /**
   * The object literal of `blockToRpc`. Its key `transactionsRoot` is written
   * twice; the later entry, the top-level `transactionsRoot`, is the one kept.
   */
  function BlockToRpc(block: Block): RpcBlock {
    var h := block.json.header;
    RpcBlock(
      parentHash := h.parentHash,
      sha3Uncles := h.uncleHash,
      miner := h.coinbase,
      stateRoot := h.stateRoot,
      transactionsRoot := block.json.transactionsRoot,
      receiptRoot := if Truthy(h.receiptTrie) then h.receiptTrie.value else SHA3_NULL,
      logsBloom := h.bloom,
      difficulty := h.difficulty,
      number := h.number,
      gasLimit := h.gasLimit,
      gasUsed := h.gasUsed,
      timestamp := h.timestamp,
      extraData := h.extraData,
      mixHash := h.mixHash,
      nonce := h.nonce,
      transactions := block.json.transactions)
  }

  /** The property names that occur on either side of the renaming. */
  datatype Key =
    | ParentHash | UncleHash | Sha3Uncles | Coinbase | Miner | StateRoot
    | TransactionsTrie | TransactionsRoot | ReceiptTrie | ReceiptRoot
    | Bloom | LogsBloom | Difficulty | Number | GasLimit | GasUsed
    | Timestamp | ExtraData | MixHash | Nonce

  /** Property lookup on the JSON header; None for a name it does not carry or an absent value. */
  function HeaderField(h: JsonHeader, k: Key): Option<string> {
    match k
    case ParentHash => Some(h.parentHash)
    case UncleHash => Some(h.uncleHash)
    case Coinbase => Some(h.coinbase)
    case StateRoot => Some(h.stateRoot)
    case TransactionsTrie => Some(h.transactionsTrie)
    case ReceiptTrie => h.receiptTrie
    case Bloom => Some(h.bloom)
    case Difficulty => Some(h.difficulty)
    case Number => Some(h.number)
    case GasLimit => Some(h.gasLimit)
    case GasUsed => Some(h.gasUsed)
    case Timestamp => Some(h.timestamp)
    case ExtraData => Some(h.extraData)
    case MixHash => Some(h.mixHash)
    case Nonce => Some(h.nonce)
    case _ => None
  }

  /** Property lookup on the RPC block; None for a name it does not carry or an absent value. */
  function RpcField(r: RpcBlock, k: Key): Option<string> {
    match k
    case ParentHash => Some(r.parentHash)
    case Sha3Uncles => Some(r.sha3Uncles)
    case Miner => Some(r.miner)
    case StateRoot => Some(r.stateRoot)
    case TransactionsRoot => r.transactionsRoot
    case ReceiptRoot => Some(r.receiptRoot)
    case LogsBloom => Some(r.logsBloom)
    case Difficulty => Some(r.difficulty)
    case Number => Some(r.number)
    case GasLimit => Some(r.gasLimit)
    case GasUsed => Some(r.gasUsed)
    case Timestamp => Some(r.timestamp)
    case ExtraData => Some(r.extraData)
    case MixHash => Some(r.mixHash)
    case Nonce => Some(r.nonce)
    case _ => None
  }

  /** The plain renamings of `blockToRpc`: (RPC name, header name). */
  const RENAMED: seq<(Key, Key)> := [
    (ParentHash, ParentHash), (Sha3Uncles, UncleHash), (Miner, Coinbase),
    (StateRoot, StateRoot), (LogsBloom, Bloom), (Difficulty, Difficulty),
    (Number, Number), (GasLimit, GasLimit), (GasUsed, GasUsed),
    (Timestamp, Timestamp), (ExtraData, ExtraData), (MixHash, MixHash),
    (Nonce, Nonce)]

  /** Every renamed header field reaches the RPC block unchanged, and so do the transactions. */
  lemma RenamedFieldsCopied(block: Block)
    ensures forall i :: 0 <= i < |RENAMED| ==>
      HeaderField(block.json.header, RENAMED[i].1).Some? &&
      RpcField(BlockToRpc(block), RENAMED[i].0) == HeaderField(block.json.header, RENAMED[i].1)
    ensures BlockToRpc(block).transactions == block.json.transactions
  {
  }

  /** `receiptRoot` is the header's `receiptTrie` when that is truthy, and `SHA3_NULL` otherwise. */
  lemma ReceiptRootFallback(block: Block)
    ensures var rt := HeaderField(block.json.header, ReceiptTrie);
      RpcField(BlockToRpc(block), ReceiptRoot) == Some(if Truthy(rt) then rt.value else SHA3_NULL)
  {
  }

  /**
   * The duplicate key: the RPC `transactionsRoot` is the top-level one, and
   * the header's `transactionsTrie` has no influence on the result.
   */
  lemma TransactionsRootFromTopLevel(a: Block, b: Block)
    ensures RpcField(BlockToRpc(a), TransactionsRoot) == a.json.transactionsRoot
    ensures a.json == b.json.(header := b.json.header.(transactionsTrie := a.json.header.transactionsTrie))
      ==> BlockToRpc(a) == BlockToRpc(b)
  {
  }

  /** The header's trie reaches the RPC block only when the block duplicates it at the top level. */
  lemma TransactionsRootAgreement(block: Block)
    ensures BlockToRpc(block).transactionsRoot == Some(block.json.header.transactionsTrie)
      <==> block.json.transactionsRoot == Some(block.json.header.transactionsTrie)
  {
  }
}
