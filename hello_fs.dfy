/**
 * The example filesystem HelloFS: a root directory holding one read-only
 * file. The root path, the file's path and its text are constants of the
 * instance (the source reaches them through the instance the host resolves).
 */
module HelloFileSystem {
  import opened Posix
  import opened Wrappers
  import FuseAdapter

  /** Permission bits 0755 and 0444. */
  const DirectoryPermissions: bv32 := 0x1ED
  const FilePermissions: bv32 := 0x124

  /**
   * The number of bytes `read` copies: nothing when the offset is not inside
   * the file, otherwise the request cut to what remains after the offset.
   */
  function ReadCount(len: int, size: int, offset: int): (n: int)
    requires 0 <= len && 0 <= size
    ensures 0 <= n <= size
    ensures !(0 <= offset < len) ==> n == 0
    ensures 0 <= offset < len ==> n <= len - offset && (n == size || n == len - offset)
  {
    if 0 <= offset < len then
      if offset + size > len then len - offset else size
    else
      0
  }

  /** A request that reaches the end of the file gets every remaining byte. */
  lemma ReadToEnd(len: nat, size: nat, offset: nat)
    requires offset <= len && len - offset <= size
    ensures ReadCount(len, size, offset) == len - offset
  {
  }

  /**
   * The count as the source computes it on 64-bit words: the offset is cast
   * to `size_t`, and `offset + size` is summed modulo 2^64 before it is
   * compared with the length. It never exceeds the request, and an offset
   * at or past the end gives 0.
   */
  function ReadCountAsWritten(len: u64, size: u64, offset: i64): (n: u64)
    ensures n <= size
    ensures (offset as int) % U64Modulus >= len as int ==> n == 0
  {
    var off := (offset as int) % U64Modulus;
    if off < len as int then
      if (off + size as int) % U64Modulus > len as int then (len as int - off) as u64 else size
    else
      0
  }

  /**
   * `static_cast<int>` of a `size_t`: the low 32 bits read as a two's
   * complement `int`. Values up to IntMax are kept.
   */
  function Int32Cast(n: u64): (r: int)
    ensures -0x8000_0000 <= r <= IntMax
    ensures n as int <= IntMax ==> r == n as int
    ensures n as int % 0x1_0000_0000 == r % 0x1_0000_0000
  {
    var low := n as int % 0x1_0000_0000;
    if low <= IntMax then low else low - 0x1_0000_0000
  }

  /** The value `read` returns as written: the 64-bit count cast to `int`. */
  function ReadResultAsWritten(len: u64, size: u64, offset: i64): (r: int)
    ensures -0x8000_0000 <= r <= IntMax
  {
    Int32Cast(ReadCountAsWritten(len, size, offset))
  }

  /**
   * Without wrap-around in `offset + size`, the source's count is ReadCount,
   * and for a text of at most IntMax bytes so is the `int` it returns.
   */
  lemma AsWrittenAgrees(len: u64, size: u64, offset: i64)
    requires len as int < 0x8000_0000_0000_0000
    requires offset as int + size as int < U64Modulus
    ensures ReadCountAsWritten(len, size, offset) as int == ReadCount(len as int, size as int, offset as int)
    ensures len as int <= IntMax ==>
      ReadResultAsWritten(len, size, offset) == ReadCount(len as int, size as int, offset as int)
  {
  }

  /**
   * With offset 1, a 13-byte file and a request of 2^64 - 1 bytes the sum
   * wraps to 0, the cut is skipped and the count exceeds the 12 bytes left;
   * cast to `int` it becomes -1, which the host reads as an error.
   */
  lemma ReadCountOverflow()
    ensures ReadCountAsWritten(13, 0xFFFF_FFFF_FFFF_FFFF, 1) as int > 13 - 1
    ensures ReadResultAsWritten(13, 0xFFFF_FFFF_FFFF_FFFF, 1) == -1
    ensures ReadCount(13, 0xFFFF_FFFF_FFFF_FFFF, 1) == 13 - 1
  {
  }

  /** The handler type HelloFS: it redeclares getattr, readdir, open and read. */
  function Handlers(getattr: FuseAdapter.HandlerId, readdir: FuseAdapter.HandlerId,
                    open: FuseAdapter.HandlerId, read: FuseAdapter.HandlerId): FuseAdapter.HandlerType
  {
    map[FuseAdapter.Getattr := Some(getattr), FuseAdapter.Readdir := Some(readdir),
        FuseAdapter.Open := Some(open), FuseAdapter.Read := Some(read)]
  }

  /** The table built for HelloFS has those four slots and no other. */
  lemma HelloSlots(getattr: FuseAdapter.HandlerId, readdir: FuseAdapter.HandlerId,
                   open: FuseAdapter.HandlerId, read: FuseAdapter.HandlerId, k: FuseAdapter.OpKind)
    ensures FuseAdapter.Expected(Handlers(getattr, readdir, open, read), k).Some?
            <==> k in {FuseAdapter.Getattr, FuseAdapter.Readdir, FuseAdapter.Open, FuseAdapter.Read}
  {
  }

  class HelloFS {
    const rootPath: string
    const helloPath: string
    const helloStr: string

    /**
     * The hello path is non-empty, since `readdir` drops its first character,
     * and the text's length fits the `int` that `read` returns.
     */
    predicate Valid()
    {
      |helloPath| >= 1 && |helloStr| <= IntMax
    }

    constructor (rootPath: string, helloPath: string, helloStr: string)
      requires |helloPath| >= 1
      requires |helloStr| <= IntMax
      ensures this.rootPath == rootPath && this.helloPath == helloPath && this.helloStr == helloStr
      ensures Valid()
    {
      this.rootPath := rootPath;
      this.helloPath := helloPath;
      this.helloStr := helloStr;
    }

    /**
     * `getattr(path, stBuffer)`: the buffer is zeroed; the root is a
     * directory (0755, two links), the hello path a regular file (0444, one
     * link, its size the text's length); any other path is -ENOENT with the
     * buffer left zero. Only the root reports a directory mode.
     */
    method Getattr(path: string) returns (res: int, st: Stat)
      requires Valid()
      ensures res == 0 <==> path == rootPath || path == helloPath
      ensures res != 0 ==> res == -ENOENT && st == ZeroStat
      ensures path == rootPath ==>
        st == ZeroStat.(mode := MakeMode(DirectoryType, DirectoryPermissions), nlink := 2)
      ensures path != rootPath && path == helloPath ==>
        st == ZeroStat.(mode := MakeMode(RegularType, FilePermissions), nlink := 1, size := |helloStr| as i64)
      ensures res == 0 ==> (IsDirectoryMode(st.mode) <==> path == rootPath)
      ensures res == 0 ==> (IsRegularMode(st.mode) <==> path != rootPath)
    {
      res := 0;
      st := ZeroStat;
      if path == rootPath {
        MakeModeType(DirectoryPermissions);
        st := st.(mode := MakeMode(DirectoryType, DirectoryPermissions), nlink := 2);
      } else if path == helloPath {
        MakeModeType(FilePermissions);
        st := st.(mode := MakeMode(RegularType, FilePermissions), nlink := 1, size := |helloStr| as i64);
      } else {
        res := -ENOENT;
      }
    }

    /**
     * `readdir(path, buf, filler, ...)`: only the root can be listed; it
     * lists ".", ".." and the hello path without its leading character,
     * in that order. The names `filler` receives are returned in order.
     */
    method Readdir(path: string) returns (res: int, names: seq<string>)
      requires Valid()
      ensures path != rootPath ==> res == -ENOENT && names == []
      ensures path == rootPath ==> res == 0 && names == [".", "..", helloPath[1..]]
      ensures res == 0 ==> [helloPath[0]] + names[2] == helloPath
    {
      if path != rootPath {
        return -ENOENT, [];
      }
      names := [];
      names := names + ["."];
      names := names + [".."];
      names := names + [helloPath[1..]];
      res := 0;
    }

    /**
     * `open(path, fi)`: succeeds exactly for the hello path opened read-only;
     * another path is -ENOENT, another access mode -EACCES.
     */
    method Open(path: string, flags: bv32) returns (res: int)
      ensures res == 0 <==> path == helloPath && flags & AccessModeMask == ReadOnly
      ensures path != helloPath ==> res == -ENOENT
      ensures path == helloPath && flags & AccessModeMask != ReadOnly ==> res == -EACCES
    {
      if path != helloPath {
        return -ENOENT;
      }
      if flags & AccessModeMask != ReadOnly {
        return -EACCES;
      }
      return 0;
    }

    /**
     * `read(path, buf, size, offset)`: for the hello path, copies the bytes
     * of the text from offset on, at most size of them and none past its
     * end, into the front of buf, and returns how many; the rest of buf is
     * untouched. Another path is -ENOENT and buf is untouched.
     */
    method Read(path: string, buf: array<char>, size: u64, offset: i64) returns (res: int)
      requires Valid()
      requires size as int <= buf.Length
      modifies buf
      ensures path != helloPath ==> res == -ENOENT && buf[..] == old(buf[..])
      ensures path == helloPath ==> res == ReadCount(|helloStr|, size as int, offset as int)
      ensures path == helloPath ==> 0 <= res <= size as int && res <= IntMax
      ensures path == helloPath && res > 0 ==>
        0 <= offset as int && offset as int + res <= |helloStr| &&
        buf[..res] == helloStr[offset as int..offset as int + res]
      ensures path == helloPath ==> buf[res..] == old(buf[res..])
    {
      if path != helloPath {
        return -ENOENT;
      }
      var len := |helloStr|;
      var n := ReadCount(len, size as int, offset as int);
      if n > 0 {
        var off := offset as int;
        forall i | 0 <= i < n {
          buf[i] := helloStr[off + i];
        }
      }
      res := n;
    }
  }
}
