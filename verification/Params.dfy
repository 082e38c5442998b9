/** Constants of kernel/param.h, kernel/fs.h, kernel/stat.h and of the image that mkfs lays out,
    with the types of bytes and of values that may be absent. */
module Params {
  const MAXOPBLOCKS: nat := 10
  const LOGSIZE: nat := MAXOPBLOCKS * 3
  const NBUF: nat := MAXOPBLOCKS * 3
  const FSSIZE: nat := 2000

  // Log placement chosen by mkfs: the header is block LOGSTART, the data slots follow it.
  const LOGSTART: nat := 2
  const NLOG: nat := LOGSIZE

  // Kinds of inode, and the inode of the root directory.
  const T_DIR: nat := 1
  const T_FILE: nat := 2
  const T_DEVICE: nat := 3
  const ROOTINO: nat := 1

  type byte = x: int | 0 <= x < 256

  datatype Option<+T> = None | Some(value: T)
}
