/** The record a finished child process leaves behind. */
module Subprocess {

  /** Exit status and captured output (already decoded to text) of one child process. */
  datatype Completed = Completed(returncode: int, stdout: string, stderr: string)
}
