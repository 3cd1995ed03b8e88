/** The process-wide MPI context: this process's rank, the size of
    MPI_COMM_WORLD and whether MPI has been initialised. The rank and size
    MPI_Comm_rank / MPI_Comm_size would report are parameters of Init; the
    MPI_Init and MPI_Finalize calls themselves are not modelled. */
module MpiRuntime {

  class MpiContext {
    var rank: nat
    var size: nat
    var initialized: bool

    /** The defaults before MPI is started: rank 0 of a group of 1. */
    constructor ()
      ensures rank == 0 && size == 1 && !initialized
    {
      rank, size, initialized := 0, 1, false;
    }

    /** init: a call while uninitialised takes rank and size from the world
        communicator; a call while initialised changes nothing. */
    method Init(worldRank: nat, worldSize: nat)
      modifies this
      ensures initialized
      ensures old(initialized) ==> rank == old(rank) && size == old(size)
      ensures !old(initialized) ==> rank == worldRank && size == worldSize
    {
      if !initialized {
        rank := worldRank;
        size := worldSize;
        initialized := true;
      }
    }

    /** finalize: acts only when initialised, and clears the flag; rank and
        size keep their last values. */
    method Finalize()
      modifies this
      ensures !initialized
      ensures rank == old(rank) && size == old(size)
    {
      if initialized {
        initialized := false;
      }
    }
  }

  /** A second init (say with another world) does not change what the first
      one established. */
  method InitTwice(firstRank: nat, firstSize: nat, secondRank: nat, secondSize: nat)
    returns (rank: nat, size: nat, initialized: bool)
    ensures rank == firstRank && size == firstSize && initialized
  {
    var ctx := new MpiContext();
    ctx.Init(firstRank, firstSize);
    ctx.Init(secondRank, secondSize);
    rank, size, initialized := ctx.rank, ctx.size, ctx.initialized;
  }

  /** init, then finalize, then finalize again: the second finalize is a no-op
      and the context ends uninitialised with the world's rank and size. */
  method InitFinalizeFinalize(worldRank: nat, worldSize: nat)
    returns (rank: nat, size: nat, initialized: bool)
    ensures rank == worldRank && size == worldSize && !initialized
  {
    var ctx := new MpiContext();
    ctx.Init(worldRank, worldSize);
    ctx.Finalize();
    ctx.Finalize();
    rank, size, initialized := ctx.rank, ctx.size, ctx.initialized;
  }
}
