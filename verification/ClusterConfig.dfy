/** The routing flags of `DialogsCluster`: which shard count reads use, which one writes use, and
    whether writes go to both (app/dialogs/cluster.py). */
module ClusterConfig {
  import opened Sharding

  datatype Config = Config(readN: int, writeN: int, dualWrite: bool)

  datatype Option<+T> = None | Some(value: T)

  datatype ClusterError =
    | NotInitialised
    | FlagOutOfRange
    | NoSuchShard
    | Routing(error: RoutingError)
    | NotDualWrite
    | StillDualWrite
    | MissingCopies(count: nat)

  datatype Result<+T> = Ok(value: T) | Err(error: ClusterError)

  /** `_validate_resharding_state` for a cluster of `pools` shards. */
  predicate InRange(cfg: Config, pools: nat) {
    1 <= cfg.readN <= pools && 1 <= cfg.writeN <= pools
  }

  /** The flags after `reconfigure`: assigned first, validated afterwards, so they stay assigned
      even when validation raises. */
  function Assigned(cfg: Config, readN: Option<int>, writeN: Option<int>, dualWrite: Option<bool>): Config {
    Config(if readN.Some? then readN.value else cfg.readN,
           if writeN.Some? then writeN.value else cfg.writeN,
           if dualWrite.Some? then dualWrite.value else cfg.dualWrite)
  }

  function ReadHome(cfg: Config, chat: ChatId): nat
    requires cfg.readN > 0
  {
    Shard(chat, cfg.readN)
  }

  /** The counts a send divides by are positive. */
  predicate CanRoute(cfg: Config) {
    cfg.writeN > 0 && (cfg.dualWrite ==> cfg.readN > 0)
  }

  /** `write_pools_for_chat`: the shards one send inserts into, in order. */
  function WriteHomes(cfg: Config, chat: ChatId): (homes: seq<nat>)
    requires CanRoute(cfg)
    ensures |homes| > 0
  {
    var primary := Shard(chat, cfg.writeN);
    if !cfg.dualWrite then [primary]
    else
      var secondary := Shard(chat, cfg.readN);
      if primary == secondary then [primary] else [secondary, primary]
  }

  /** The home by the write count, and under dual-write also the one by the read count, which is first. */
  lemma {:induction false} WriteHomesAre(cfg: Config, chat: ChatId)
    requires CanRoute(cfg)
    ensures forall i :: i in WriteHomes(cfg, chat) <==>
              i == Shard(chat, cfg.writeN) || (cfg.dualWrite && i == Shard(chat, cfg.readN))
    ensures cfg.dualWrite ==> WriteHomes(cfg, chat)[0] == Shard(chat, cfg.readN)
  {
  }

  /** A completed send is on the shard that reads select exactly when both shards were written or
      the two schemes agree on the chat. */
  lemma SendIsReadable(cfg: Config, chat: ChatId)
    requires cfg.readN > 0 && cfg.writeN > 0
    ensures ReadHome(cfg, chat) in WriteHomes(cfg, chat)
       <==> cfg.dualWrite || Shard(chat, cfg.readN) == Shard(chat, cfg.writeN)
  {
  }

  lemma WriteHomesDistinct(cfg: Config, chat: ChatId)
    requires CanRoute(cfg)
    ensures forall i, j :: 0 <= i < j < |WriteHomes(cfg, chat)| ==>
              WriteHomes(cfg, chat)[i] != WriteHomes(cfg, chat)[j]
  {
  }
}
