/** The cache of block hashes that need an archive node (lb/archive_hash_cache.go). Each chain has its own
    bounded cache; what that cache drops, and when, is arbitrary. */
module ArchiveHashCaches {
  import opened Wrappers
  import opened JsonScan
  import opened BlockContexts

  type Chains = map<string, set<Text>>

  predicate Holds(chains: Chains, chain: string, hash: Text) {
    chain in chains && hash in chains[chain]
  }

  function Added(chains: Chains, chain: string, hash: Text): Chains {
    chains[chain := (if chain in chains then chains[chain] else {}) + {hash}]
  }

  function Evicted(chains: Chains, chain: string, hash: Text): Chains {
    if chain in chains then chains[chain := chains[chain] - {hash}] else chains
  }

  /** The hash a context is pinned to with "Equals", if any (`requestBlockHash`). */
  function PinnedHash(ctx: Option<BlockContext>): Option<Text> {
    if ctx.Some? && ctx.value.kind == "Equals" && ctx.value.blockId.Some? && ctx.value.blockId.value.Hash?
    then Some(ctx.value.blockId.value.h) else None
  }

  /** The pinned hash is that of an "Equals" context with a hash id, and of nothing else. */
  lemma PinnedIs(ctx: Option<BlockContext>, hash: Text)
    ensures PinnedHash(ctx) == Some(hash) <==> ctx == Some(BlockContext(Some(Hash(hash)), "Equals"))
  {
  }

  /** What is held after an addition, and after an eviction: one entry of one chain changes. */
  lemma HeldAfter(chains: Chains, chain: string, hash: Text, otherChain: string, other: Text)
    ensures Holds(Added(chains, chain, hash), otherChain, other)
            <==> Holds(chains, otherChain, other) || (otherChain == chain && other == hash)
    ensures Holds(Evicted(chains, chain, hash), otherChain, other)
            <==> Holds(chains, otherChain, other) && !(otherChain == chain && other == hash)
  {
  }

  /** A size that is not positive gives the disabled cache. */
  class ArchiveHashCache {
    const size: int
    var chains: Chains

    constructor (size: int)
      ensures this.size == size && chains == map[]
    {
      this.size := size;
      chains := map[];
    }

    method HasChain(chain: string) returns (r: bool)
      ensures !r ==> forall hash :: !Holds(chains, chain, hash)
    {
      return chain in chains;
    }

    method Contains(chain: string, hash: Text) returns (r: bool)
      ensures r <==> Holds(chains, chain, hash)
    {
      return chain in chains && hash in chains[chain];
    }

    /** One chain's entries never displace another's. */
    method Add(chain: string, hash: Text)
      modifies this
      ensures chains == if size <= 0 then old(chains) else Added(old(chains), chain, hash)
    {
      if size <= 0 {
        return;
      }
      if chain !in chains {
        chains := chains[chain := {}];
      }
      chains := chains[chain := chains[chain] + {hash}];
    }
  }
}
