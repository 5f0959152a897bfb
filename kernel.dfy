/** Small shared vocabulary of the kernel code being modelled: an optional
    value (the C code's NULL pointers) and the errno values the core returns. */
module Kernel {

  datatype Option<+T> = None | Some(value: T)

  // include/uapi/asm-generic/errno-base.h and errno.h (Linux, all architectures
  // that use the generic table)
  const ENOMEM: int := 12
  const EBUSY: int := 16
  const EINVAL: int := 22
  const EOPNOTSUPP: int := 95
  const ETIMEDOUT: int := 110
}
