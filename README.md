# Fusepp in Dafny

A model of the core of Fusepp, a C++ wrapper that lets a filesystem for FUSE
be written as a class. The model covers four pieces:

- **The path metadata cache** (`FileInfo.h`, `FileInfo.cpp`). `FileInfo` is a
  record of a `struct stat`, a name, a parent inode and an opaque 64-bit tag.
  It has a getter and a setter per field, and two derived queries, `IsDir` and
  `Ino`. A process-wide `std::map<std::string, FileInfo>` maps paths to records.
  Its operations are fetch, insert, delete and clear. In the model:
  - `FileInfoCache.FileInfo` is a class whose setters update its fields.
  - `FileInfoCache.Record` is the value a copy carries, which is what the map
    stores.
  - `FileInfoCache.FileInfoTable` is the one object standing for the static
    map.
- **The callback-table builder** (`Fuse.h`). The constructor of `Fuse<T>`
  zeroes the static `fuse_operations` table of the handler type `T`.
  `load_operations` then copies 35 named members of `T` into it. A member that
  `T` does not redeclare resolves to the base class static, which is
  `nullptr`. In the model:
  - `FuseAdapter.OpKind` lists every slot of the host's table.
  - A handler type is a map from the kinds it redeclares to the value of its
    member.
  - `FuseAdapter.FuseOperations` is the table, one field per slot.
  - `FuseAdapter.OperationsTable` is the per-type static holding it.
  - `FuseAdapter.Registry` holds the program's statics, one table per handler
    type, and no two types share one.
  - `FuseAdapter.Fuse` is an instance. `run` and `_this` are reduced to
    registering the instance with the host and reading it back.
- **The example filesystem HelloFS** (`example/helloFS.cpp`). It has
  `getattr`, `readdir`, `open` and `read` over a root directory and one
  read-only file. The root path, the file path and the file's text are
  constants of the instance. `filler` is modelled by returning the names in
  order, and `buf` is an array.
- **The JSonFS tree objects** (`JSonFS/directory.cpp`, `JSonFS/file.cpp`). A
  `Directory` keeps a name-keyed map of entries and a `File` keeps a string.
  Each class has an `operator<<` that writes a one-line summary. The summary
  line is modelled as text in `TextFormat`. Its count is written in decimal,
  and a parser recovers the name and the count from the line.

Integers have the source's widths where that matters: `u64`/`i64` for
`size_t`, `off_t`, `ino_t` and `uint64_t`, and `bv32` for `mode_t` and the
open flags. Error codes are the Linux values `ENOENT` = 2 and `EACCES` = 13.

The model follows the code of this version of the library in three points
that a reader might expect otherwise:

- The cache has no insertion time and no time-to-live. Entries never expire.
- `FetchFileInfo` does not take the lock.
- A table slot is filled with the handler type's own static member. No
  forwarding entry wraps it.

## Model

| member | source | states |
|---|---|---|
| `FileInfoCache.FileInfo.Default` | FileInfo.cpp:80-85 | the default record has an all-zero stat, an empty name, parent 0 and data 0 |
| `FileInfoCache.FileInfo.constructor` | FileInfo.cpp:88-93 | the record holds exactly the given stat, parent and data (parent and data default to 0) and an empty name |
| `FileInfoCache.FileInfo.SetName` | FileInfo.h:56-57 | after setting the name, `Name()` returns it; no other field changes |
| `FileInfoCache.FileInfo.SetParent` | FileInfo.h:59-60 | after setting the parent, `Parent()` returns it; no other field changes |
| `FileInfoCache.FileInfo.SetData` | FileInfo.h:62-63 | after setting the tag, `Data()` returns it; no other field changes |
| `FileInfoCache.FileInfo.SetStat` | FileInfo.h:65-66 | the whole stat is replaced and `Stat()` returns it; no other field changes |
| `FileInfoCache.FileInfo.IsDir` | FileInfo.h:68 | true iff the file-type bits of the stored mode are the directory type (S_ISDIR) |
| `FileInfoCache.FileInfo.Ino` | FileInfo.h:70 | the inode number of the stored stat |
| `FileInfoCache.FileInfoTable.constructor` | FileInfo.cpp:77 | the static map starts empty |
| `FileInfoCache.FileInfoTable.FetchFileInfo` | FileInfo.cpp:96-110 | answers true iff the path is a key; on a hit the out-parameter receives the stored record; on a miss it is untouched; the map is never changed |
| `FileInfoCache.FileInfoTable.InsertFileInfo` | FileInfo.cpp:113-118 | the path maps to a copy of the given record, replacing any earlier one; every other key and value is unchanged |
| `FileInfoCache.FileInfoTable.DeleteFileInfo` | FileInfo.cpp:121-132 | only the path's key is removed; an absent path leaves the map unchanged |
| `FileInfoCache.FileInfoTable.ClearFileInfo` | FileInfo.cpp:135-140 | the map becomes empty, so no path is a key |
| `FileInfoCache.InsertThenFetch` | FileInfo.cpp:96-118 | a fetch right after an insert of the same path hits with exactly the inserted record |
| `FileInfoCache.DeleteThenFetch` | FileInfo.cpp:96-132 | a fetch right after a delete of the same path misses and leaves the out-parameter untouched |
| `FileInfoCache.ClearThenFetch` | FileInfo.cpp:96-140 | a fetch of any path after a clear misses |
| `FuseAdapter.PopulatedIff` | Fuse.h:115-152 | a built slot is non-null iff the loader assigns that slot and the handler type redeclares the member with a non-null value; it then holds that value |
| `FuseAdapter.OnlyOverriddenSlots` | Fuse.h:117-151 | a handler type overriding only `read` and `getattr` gets exactly those two non-null slots |
| `FuseAdapter.LoadSlot` | Fuse.h:117-151 | loading writes each of the 35 slots with the type's member of that name and leaves the other slots as they were |
| `FuseAdapter.OperationsTable.constructor` | Fuse.h:154 | the static table starts with every slot null |
| `FuseAdapter.OperationsTable.Zero` | Fuse.h:97 | after the memset every slot is null |
| `FuseAdapter.Fuse.LoadOperations` | Fuse.h:115-152 | the 35 named slots hold the type's members (null when the type inherits the base static) and every other slot keeps its value |
| `FuseAdapter.Registry.constructor` | Fuse.h:154 | the program's statics give each handler type a table of its own |
| `FuseAdapter.Fuse.constructor` | Fuse.h:95-99 | the instance works on the static table of its handler type; after construction every slot is what the type determines, whatever the table held before |
| `FuseAdapter.Fuse.Operations` | Fuse.h:106 | the table handed out is the static of the instance's handler type |
| `FuseAdapter.SameTypeSameTable` | Fuse.h:106 | two instances hand out the same table iff they are instances of the same handler type |
| `FuseAdapter.ConstructTwice` | Fuse.h:95-106 | a second instance of a type hands out the same table as the first, rebuilt to the same slots |
| `FuseAdapter.Fuse.Run` | Fuse.h:101-104 | the host receives the arguments, the type's table and this instance as private data; the host's status is returned unchanged |
| `FuseAdapter.Fuse.This` | Fuse.h:108-111 | `_this()` is exactly the private data registered with the host |
| `FuseAdapter.RunThenResolve` | Fuse.h:101-111 | after `run` registers an instance, `_this()` resolves to that instance |
| `Posix.MakeModeType` | example/helloFS.cpp:14-17 | a mode built from the directory type and permission bits satisfies S_ISDIR and not S_ISREG, and a regular-file mode the reverse |
| `HelloFileSystem.ReadCount` | example/helloFS.cpp:58-64 | the count read returns is never more than the request or the bytes left after the offset; it is 0 when the offset is outside the file and otherwise min(size, len - offset) |
| `HelloFileSystem.ReadToEnd` | example/helloFS.cpp:58-64 | a request reaching the end of the file gets every remaining byte |
| `HelloFileSystem.ReadCountAsWritten` | example/helloFS.cpp:58-64 | the count as computed on 64-bit words, `offset + size` wrapping; it never exceeds the request and is 0 for an offset at or past the end |
| `HelloFileSystem.ReadResultAsWritten` | example/helloFS.cpp:66 | the value returned as written: the count cast to a 32-bit `int`, so it lies in the `int` range |
| `HelloFileSystem.AsWrittenAgrees` | example/helloFS.cpp:58-66 | on 64-bit words, the source's count equals ReadCount whenever `offset + size` does not wrap, negative offsets included; for a text of at most 2^31 - 1 bytes so does the returned `int` |
| `HelloFileSystem.ReadCountOverflow` | example/helloFS.cpp:59-66 | an input for which the source's count, with `offset + size` wrapping, is larger than the bytes left, and the returned `int` is -1 |
| `HelloFileSystem.HelloSlots` | example/helloFS.h:15-24 | the table built for HelloFS has exactly the getattr, readdir, open and read slots |
| `HelloFileSystem.HelloFS.Getattr` | example/helloFS.cpp:8-24 | root: directory with mode 0755 and 2 links, otherwise zero; hello path: regular file with mode 0444, 1 link, size = text length; other paths: -ENOENT and an all-zero buffer; only the root reports a directory |
| `HelloFileSystem.HelloFS.Readdir` | example/helloFS.cpp:26-37 | a non-root path is -ENOENT with nothing listed; the root lists ".", "..", and the hello path minus its first character, in that order |
| `HelloFileSystem.HelloFS.Open` | example/helloFS.cpp:40-49 | 0 iff the hello path is opened read-only (`flags & 3 == O_RDONLY`); another path is -ENOENT; another access mode is -EACCES |
| `HelloFileSystem.HelloFS.Read` | example/helloFS.cpp:52-67 | a non-hello path is -ENOENT with buf untouched; otherwise it returns ReadCount, which fits an `int`, and the returned bytes are the text from the offset on, with the rest of buf untouched |
| `TextFormat.Decimal` | JSonFS/directory.cpp:31 | a count is written as non-empty decimal digits with no leading zero (zero is "0") |
| `TextFormat.DecimalRoundTrip` | JSonFS/directory.cpp:31 | reading back the decimal text of a count gives the count |
| `TextFormat.DecimalInjective` | JSonFS/directory.cpp:31 | different counts are written as different texts |
| `TextFormat.SummaryRoundTrip` | JSonFS/directory.cpp:30-33 | name and count can be read back from a `<name>: <count><suffix>` line |
| `JsonTree.Directory.GetContent` | JSonFS/directory.cpp:3-5 | returns the whole entry map, and the directory is only read |
| `JsonTree.Directory.AddEntry` | JSonFS/directory.cpp:7-9 | the entry is stored under its own name, replacing one of that name; other entries and the directory's name are unchanged; the count grows by one iff the name was new |
| `JsonTree.Directory.Format` | JSonFS/directory.cpp:30-33 | the line is `<name>: <entry count>` followed by the fixed `EntriesSuffix`, and its name and count read back as the directory's |
| `JsonTree.File.SetContent` | JSonFS/file.cpp:3 | the content is replaced wholesale; the name is unchanged |
| `JsonTree.File.GetContent` | JSonFS/file.cpp:5 | returns the stored content, and the file is only read |
| `JsonTree.File.Format` | JSonFS/file.cpp:7-10 | the line is `<name>: <content length> byte(s)`, and its name and length read back as the file's |
| `JsonTree.SetThenGet` | JSonFS/file.cpp:3-5 | setting the content and reading it back gives the string that was set |

## Findings

| source | as written | input that shows it | evidently intended | confidence | as-written member | corrected member |
|---|---|---|---|---|---|---|
| example/helloFS.cpp:59-61 | the test `offset + size > len` is computed in 64-bit `size_t`, so a large `size` wraps the sum below `len`; the cut is then skipped and `memcpy` copies `size` bytes from a shorter string | len = 13, offset = 1, size = 2^64 - 1: the sum wraps to 0, the count stays 2^64 - 1 instead of 12, and `read` returns -1 | the count is min(size, len - offset) | not executed; the host caps `size` in practice, so this is an edge of the code as written | `HelloFileSystem.ReadCountAsWritten`, shown by `HelloFileSystem.ReadCountOverflow` | `HelloFileSystem.ReadCount` |

## Left out

- The mutex and `Lock` guard (FileInfo.cpp:46-76) are left out. This is
  concurrency, so the cache operations are modelled as sequential.
- Time-to-live and expiry of cache entries are left out because this version
  of the code has none.
- `fuse_main` and `fuse_get_context` are foreign libfuse calls. The host is an
  object holding the table and the private data it was handed, and the status
  `fuse_main` returns is a parameter of `Run`. The blocking event loop and the
  unmount are not modelled.
- The C function-pointer typedefs (Fuse.h:51-90) are left out. A handler is
  an opaque address (`HandlerId`) rather than a typed function.
- The per-type statics are one `Registry` object that the program's
  instances are built with. Template instantiation itself is not modelled: a
  handler type is a value, and the registry is given its tables up front.
- Fuse.cpp is used only for the `nullptr` defaults of the base statics. It
  comes from another version of the library:
  - It gives no definition for `getdir`, `utime`, `ftruncate` or `fgetattr`.
    The model treats every base member as null.
  - It calls the table `operations_`.
- `example/helloFS.cpp` is written against another version of the wrapper
  (`this_()`, FUSE 3 `readdir` flags) than `Fuse.h`. Its path comparisons are
  read as string equality. The `fuse_file_info` argument is reduced to its
  `flags` word.
- `rootPath()`, `helloPath()` and `helloStr()` are not part of this model. They
  are constants of the `HelloFS` instance, and its `Valid()` predicate states
  their bounds once:
  - The hello path must be non-empty, because `readdir` skips its first
    character.
  - The text must be at most 2^31 - 1 bytes, so that the `int` result of
    `read` and the `off_t` size of `getattr` hold its length exactly.
- `example/hello.cpp` is process bootstrap only and is left out.
- `JSonFS/io.cpp` is left out. It does file I/O through boost
  `read_json`/`write_json`, and its `add` overloads are stubs that print.
- `Directory::convert` (JSonFS/directory.cpp:11-28) is left out because it only
  prints.
- The bodies of `getName`/`setName` in `JSonFS/filesystemobject.h` are not part
  of this model. The name is a plain field, and `getName()` is read as
  returning it.
- A Dafny `char` stands for one byte of a `std::string` or a `char` buffer.
  The model has no character encoding. `std::string::size()` and `length()`
  count bytes, so for text holding multi-byte UTF-8 characters the lengths in
  `File::operator<<`, `getattr`'s `st_size` and `read`'s count are the byte
  counts, not the `|s|` of a string of Unicode characters.
- `FileInfoCache.FileInfo.Stat`: returns a copy of the stored stat. In the
  source, `Stat()` returns a pointer to the stored struct, so a caller holding
  it sees a later `Stat(..)` update. The model does not capture that aliasing.
- `TextFormat.Decimal`: both `operator<<` overloads write into the caller's
  stream. The model assumes the stream's default formatting (decimal, no
  width or fill). A stream set to `std::hex` or another base prints the count
  differently.
- `Stat` keeps time stamps to whole seconds. The nanosecond parts of the
  timestamps are not modelled.
