/**
 * The parts of the POSIX/Linux interface the filesystem code relies on:
 * fixed-width integers, the `struct stat` record, the file-type bits of
 * `st_mode` from <sys/stat.h>, the open access-mode bits from <fcntl.h>
 * and the error numbers from <errno.h> (Linux values).
 */
module Posix {

  /** An unsigned 64-bit value (`uint64_t`, `size_t`, `ino_t` on Linux x86-64). */
  newtype u64 = x: int | 0 <= x < 0x1_0000_0000_0000_0000

  /** A signed 64-bit value (`off_t` on Linux x86-64). */
  newtype i64 = x: int | -0x8000_0000_0000_0000 <= x < 0x8000_0000_0000_0000

  const U64Modulus: int := 0x1_0000_0000_0000_0000
  const IntMax: int := 0x7fff_ffff

  /** `struct stat`; time stamps are kept to whole seconds. */
  datatype Stat = Stat(
    dev: u64,
    ino: u64,
    mode: bv32,
    nlink: u64,
    uid: bv32,
    gid: bv32,
    rdev: u64,
    size: i64,
    blksize: i64,
    blocks: i64,
    atime: i64,
    mtime: i64,
    ctime: i64)

  /** The stat record after it has been zeroed with memset. */
  const ZeroStat: Stat := Stat(0, 0, 0, 0, 0, 0, 0, 0, 0, 0, 0, 0, 0)

  /** S_IFMT, S_IFDIR and S_IFREG (octal 0170000, 0040000, 0100000). */
  const FileTypeMask: bv32 := 0xF000
  const DirectoryType: bv32 := 0x4000
  const RegularType: bv32 := 0x8000

  /** The permission bits below the file type (octal 07777). */
  const PermissionMask: bv32 := 0x0FFF

  /** S_ISDIR: the file-type bits of a mode name a directory. */
  predicate IsDirectoryMode(mode: bv32) {
    mode & FileTypeMask == DirectoryType
  }

  /** S_ISREG: the file-type bits of a mode name a regular file. */
  predicate IsRegularMode(mode: bv32) {
    mode & FileTypeMask == RegularType
  }

  /** `fileType | perm`, as a mode is built from a type and permission bits. */
  function MakeMode(fileType: bv32, perm: bv32): bv32 {
    fileType | perm
  }

  /**
   * A mode built from a type and permission bits has exactly that type:
   * a directory mode is never a regular-file mode and vice versa.
   */
  lemma MakeModeType(perm: bv32)
    requires perm & FileTypeMask == 0
    ensures IsDirectoryMode(MakeMode(DirectoryType, perm))
    ensures !IsRegularMode(MakeMode(DirectoryType, perm))
    ensures IsRegularMode(MakeMode(RegularType, perm))
    ensures !IsDirectoryMode(MakeMode(RegularType, perm))
  {
  }

  /** O_ACCMODE and O_RDONLY. */
  const AccessModeMask: bv32 := 3
  const ReadOnly: bv32 := 0

  /** ENOENT and EACCES. */
  const ENOENT: int := 2
  const EACCES: int := 13
}
