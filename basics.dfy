/** Small shared vocabulary: an optional value and the process exit code
    convention used by the example programs (`success ? 0 : 1`). */
module Basics {

  datatype Option<+T> = None | Some(value: T)

  /** The exit status a test driver returns for the runner's verdict. */
  function ExitCode(success: bool): (code: int)
    ensures code == 0 <==> success
    ensures code == 0 || code == 1
  {
    if success then 0 else 1
  }
}
