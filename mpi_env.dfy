/** The launcher probe run before MPI_Init: which process count the
    surrounding launcher announced, if any. The process environment is a
    map from variable name to value; a name absent from the map is unset. */
module MpiEnv {
  import opened Basics
  import Decimal

  type Environment = map<string, string>

  const OpenMpiSize := "OMPI_COMM_WORLD_SIZE"
  const PmiSize := "PMI_SIZE"
  const SlurmTasks := "SLURM_NTASKS"

  /** The variables consulted, highest precedence first: Open MPI, then
      Intel MPI / MPICH, then SLURM. */
  const LauncherVariables: seq<string> := [OpenMpiSize, PmiSize, SlurmTasks]

  /** detect_mpi_size: the first launcher variable that is set, read with
      `std::atoi`; 0 when none is set ("not running under MPI"). */
  function DetectMpiSize(env: Environment): int {
    if OpenMpiSize in env then Decimal.Atoi(env[OpenMpiSize])
    else if PmiSize in env then Decimal.Atoi(env[PmiSize])
    else if SlurmTasks in env then Decimal.Atoi(env[SlurmTasks])
    else 0
  }

  /** Reference lookup: the value of the earliest name in `names` that is set. */
  function FirstSet(env: Environment, names: seq<string>): (r: Option<string>)
    ensures r.None? <==> forall i :: 0 <= i < |names| ==> names[i] !in env
    ensures r.Some? ==> exists i :: 0 <= i < |names| && names[i] in env && r.value == env[names[i]] &&
                                    forall j :: 0 <= j < i ==> names[j] !in env
  {
    if names == [] then None
    else if names[0] in env then Some(env[names[0]])
    else
      var rest := FirstSet(env, names[1..]);
      assert forall i :: 1 <= i < |names| ==> names[i] == names[1..][i - 1];
      rest
  }

  /** The probe is exactly "first set launcher variable, parsed, else 0". */
  lemma DetectIsFirstSetLauncher(env: Environment)
    ensures DetectMpiSize(env) == match FirstSet(env, LauncherVariables)
                                  case Some(v) => Decimal.Atoi(v)
                                  case None => 0
    ensures DetectMpiSize(env) == 0 <== forall i :: 0 <= i < |LauncherVariables| ==> LauncherVariables[i] !in env
  {
    var tail1 := LauncherVariables[1..];
    var tail2 := tail1[1..];
    assert tail1 == [PmiSize, SlurmTasks] && tail2 == [SlurmTasks] && tail2[1..] == [];
    assert FirstSet(env, tail2) == if SlurmTasks in env then Some(env[SlurmTasks]) else None;
    assert FirstSet(env, tail1) == if PmiSize in env then Some(env[PmiSize]) else FirstSet(env, tail2);
  }

  /** A set higher-precedence variable hides every lower one, whatever
      their values. */
  lemma HigherPrecedenceWins(env: Environment, pmi: string, slurm: string)
    requires OpenMpiSize in env
    ensures DetectMpiSize(env[PmiSize := pmi][SlurmTasks := slurm]) == DetectMpiSize(env)
  {
  }

  /** Only the three launcher variables influence the result. */
  lemma OnlyLauncherVariablesMatter(env1: Environment, env2: Environment)
    requires forall i :: 0 <= i < |LauncherVariables| ==>
               (LauncherVariables[i] in env1 <==> LauncherVariables[i] in env2) &&
               (LauncherVariables[i] in env1 ==> env1[LauncherVariables[i]] == env2[LauncherVariables[i]])
    ensures DetectMpiSize(env1) == DetectMpiSize(env2)
  {
    assert LauncherVariables[0] == OpenMpiSize && LauncherVariables[1] == PmiSize && LauncherVariables[2] == SlurmTasks;
  }

  /** `mpirun -np 4` under Open MPI, with a stale PMI_SIZE around: 4 wins. */
  lemma OpenMpiLaunchOfFour()
    ensures DetectMpiSize(map[OpenMpiSize := "4", PmiSize := "2"]) == 4
  {
    Decimal.AtoiOfIntToString(4);
    assert Decimal.IntToString(4) == "4";
  }
}
