/** The shared helpers of the operation modules (`ops/mod.rs`). */
module Ops {
  import opened Wrappers
  import Rest
  import opened Internal

  /** A collection name. It is an unconstrained string: nothing is validated at this layer. */
  type ColName = string

  /** The shard key a selector was made from, if it was made from one. */
  function SelectedKey(s: ShardSelectorInternal): Option<Rest.ShardKeySelector> {
    if s.FromKey? then Some(s.key) else None
  }

  /** `shard_selector`: total, no error outcome; an absent key addresses every shard and a
      present key is converted into the matching selector, losing nothing. */
  function ShardSelector(shardKey: Option<Rest.ShardKeySelector>): (s: ShardSelectorInternal)
    ensures shardKey.None? <==> s.All?
    ensures SelectedKey(s) == shardKey
    ensures !s.Empty? && !s.ShardId?
  {
    match shardKey
    case None => All
    case Some(key) => FromKey(key)
  }
}
