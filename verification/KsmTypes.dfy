/** The vocabulary of the deduplication engine: keys, digests, item states and log entries. */
module KsmTypes {

  /** One half-page digest; a page is identified by the digests of its two 2048-byte halves. */
  datatype Digest = Digest(high64: nat, low64: nat)

  datatype HashPair = HashPair(first: Digest, second: Digest)

  const NULL_HASH := HashPair(Digest(0, 0), Digest(0, 0))

  /** An rmap item is ordered and found by its address space and its virtual address. */
  datatype Key = Key(mmId: int, va: nat)

  datatype ItemState = NoState | Volatile | Unstable | Stable

  datatype ChainType = Head | Chain

  /** The entries the engine writes for the host. */
  datatype LogEntry =
    | StableMerge(from: Key, kpfn: nat, sharedCnt: int)
    | UnstableMerge(from: Key, to: Key)
    | StaleStableNode(last: Key, kpfn: nat)
    | ItemStateChange(from: Key, kpfn: nat, sharedCnt: int)

  const MAX_PAGE_SHARING := 256
  const RMAP_PRUNE_MARGIN := 1000
  const WORD_RANGE := 0x1_0000_0000_0000_0000
}
