/** The POSIX signal numbers the supervisor handles (Linux numbering). */
module Signals {
  const SIGHUP := 1
  const SIGINT := 2
  const SIGQUIT := 3
  const SIGUSR1 := 10
  const SIGUSR2 := 12
  const SIGTERM := 15
  const SIGCHLD := 17
  const SIGCONT := 18
  const SIGWINCH := 28
}
