/** Types every module uses. */
module Core {
  type Byte = bv8

  /** The number of a process. */
  type Pid = nat

  datatype Option<+T> = None | Some(value: T)

  datatype Errno = EAGAIN | ECHILD | EEXIST | EFAULT | EINVAL | EIO | ENOENT | ENOMEM | ENOTSUP | ETIMEDOUT

  datatype Result<+T> = Ok(value: T) | Err(error: Errno)
}
