/** Answers of the operating-system calls the daemon and the factory make.
    The calls themselves are not modelled: each answer is a parameter of the
    operation that makes the call. */
module Os {

  /** The errno values the code distinguishes; every other one is OtherErrno. */
  datatype Errno = ESRCH | ECHILD | EPERM | EBADF | OtherErrno

  /** os.waitpid(pid, options): the (pid, status) pair, or the OSError raised.
      With WNOHANG, (0, 0) means the child is still running. */
  datatype WaitPidAnswer = Status(pid: int, rc: int) | WaitPidFailed(errno: Errno)

  /** os.wait(): the pid of a reaped child, or the OSError raised. */
  datatype WaitAnswer = Reaped(pid: int) | WaitFailed(errno: Errno)

  /** os.close(fd). */
  datatype CloseAnswer = Closed | CloseFailed(errno: Errno)

  /** os.fork(): 0 in the child, the child's pid in the parent, or an OSError. */
  datatype ForkAnswer = Forked(pid: int) | ForkFailed
}
