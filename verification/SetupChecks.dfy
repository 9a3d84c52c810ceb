/** The checks that every process makes of the configuration before the run. */
module SetupChecks {
  import opened Forge
  import opened Offsets
  import opened Protocol

  /** The codes with which the program aborts. */
  datatype Error = NoError | InvalidPattern | InvalidOperation | StoneWallSetup | InvalidSetup

  /** The number of clients per forwarder, at least one, is the same for all, and the threads are at most 128. */
  ghost predicate Balanced(worldSize: nat, forwarders: nat, handlers: nat, dispatchers: nat) {
    && (exists clients: nat :: clients >= 1 && EachServes(worldSize, forwarders, clients))
    && handlers <= 128 && dispatchers <= 128
  }

  /** The set-ups of the model are those of the configurations that pass the checks, by their own numbers. */
  lemma ConfigsAre(cfg: Config)
    ensures cfg.Valid() <==>
            && Balanced(cfg.worldSize, cfg.forwarders, cfg.handlers, cfg.workers)
            && 1 <= cfg.forwarders && 1 <= cfg.requestSize && (cfg.write || cfg.read)
  {
    SetupsAre(cfg.worldSize, cfg.forwarders);
  }

  /** The first check that fails decides the code; a configuration passes exactly if it meets them all. */
  method Check(individual: bool, strided: bool, write: bool, read: bool, stoneWall: int, worldSize: nat,
      forwarders: nat, handlers: nat, dispatchers: nat)
      returns (error: Error)
    requires 1 <= forwarders
    ensures error == if individual && strided then InvalidPattern
                     else if !write && !read then InvalidOperation
                     else if stoneWall > 0 && write && read then StoneWallSetup
                     else if Balanced(worldSize, forwarders, handlers, dispatchers) then NoError
                     else InvalidSetup
  {
    SetupsAre(worldSize, forwarders);
    if individual && strided {
      return InvalidPattern;
    }
    if !write && !read {
      return InvalidOperation;
    }
    if stoneWall > 0 && !(!write != !read) {
      return StoneWallSetup;
    }
    if worldSize < forwarders * 2 {
      return InvalidSetup;
    }
    if worldSize % forwarders != 0 {
      return InvalidSetup;
    }
    if handlers > MAX_THREADS {
      return InvalidSetup;
    }
    if dispatchers > MAX_THREADS {
      return InvalidSetup;
    }
    return NoError;
  }
}
