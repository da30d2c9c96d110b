/**
 * FileInfo: the metadata record kept for one path, and the process-wide
 * table `FileInfo::_files` (a `std::map<std::string, FileInfo>`) that maps
 * paths to such records.
 *
 * The table is one object standing for the static map; its four operations
 * are sequential (the mutex that serialises them is not modelled).
 */
module FileInfoCache {
  import opened Posix

  /** The value of a FileInfo: what the map stores and what copying transfers. */
  datatype Record = Record(stat: Stat, name: string, parent: u64, data: u64)

  /** `FileInfo::FileMap`. */
  type FileMap = map<string, Record>

  class FileInfo {
    var stat: Stat
    var name: string
    var parent: u64
    var data: u64

    /** The whole record, as a copy of this object would carry it. */
    function Value(): Record
      reads this
    {
      Record(stat, name, parent, data)
    }

    /** `FileInfo()`: parent 0, data 0, an all-zero stat and an empty name. */
    constructor Default()
      ensures Value() == Record(ZeroStat, "", 0, 0)
    {
      stat := ZeroStat;
      name := "";
      parent := 0;
      data := 0;
    }

    /**
     * `FileInfo(fstat, parent = 0, data = 0)`: keeps the given stat, parent
     * and data; the name stays the empty string.
     */
    constructor (fstat: Stat, parent: u64 := 0, data: u64 := 0)
      ensures Value() == Record(fstat, "", parent, data)
    {
      this.parent := parent;
      this.data := data;
      this.name := "";
      this.stat := fstat;
    }

    function Name(): string
      reads this
    {
      name
    }

    method SetName(name: string)
      modifies this
      ensures Value() == old(Value()).(name := name)
      ensures Name() == name
    {
      this.name := name;
    }

    function Parent(): u64
      reads this
    {
      parent
    }

    method SetParent(parent: u64)
      modifies this
      ensures Value() == old(Value()).(parent := parent)
      ensures Parent() == parent
    {
      this.parent := parent;
    }

    function Data(): u64
      reads this
    {
      data
    }

    method SetData(data: u64)
      modifies this
      ensures Value() == old(Value()).(data := data)
      ensures Data() == data
    {
      this.data := data;
    }

    /** `Stat()` hands out the stored record (by address in the source). */
    function Stat(): Stat
      reads this
    {
      stat
    }

    method SetStat(fstat: Stat)
      modifies this
      ensures Value() == old(Value()).(stat := fstat)
      ensures Stat() == fstat
    {
      this.stat := fstat;
    }

    /** `IsDir()`: S_ISDIR of the stored mode. */
    function IsDir(): (r: bool)
      reads this
      ensures r <==> IsDirectoryMode(Stat().mode)
    {
      stat.mode & FileTypeMask == DirectoryType
    }

    /** `Ino()`: the inode number of the stored stat. */
    function Ino(): (r: u64)
      reads this
      ensures r == Stat().ino
    {
      stat.ino
    }
  }

  /** The static `FileInfo::_files` map and the four static operations on it. */
  class FileInfoTable {
    var files: FileMap

    /** Static initialisation: the map starts empty. */
    constructor ()
      ensures files == map[]
    {
      files := map[];
    }

    /**
     * `FetchFileInfo(path, file_info)`: on a hit, copies the stored record
     * into the out-parameter and answers true; on a miss, answers false and
     * leaves the out-parameter as it was. The map itself is only read.
     */
    method FetchFileInfo(path: string, fileInfo: FileInfo) returns (found: bool)
      modifies fileInfo
      ensures files == old(files)
      ensures found <==> path in files
      ensures found ==> fileInfo.Value() == files[path]
      ensures !found ==> fileInfo.Value() == old(fileInfo.Value())
    {
      found := false;
      if path in files {
        var r := files[path];
        fileInfo.stat, fileInfo.name, fileInfo.parent, fileInfo.data := r.stat, r.name, r.parent, r.data;
        found := true;
      }
    }

    /**
     * `InsertFileInfo(path, fi)`: assigning through the map's index operator stores a copy of the
     * whole record, replacing any earlier one; every other key is untouched.
     */
    method InsertFileInfo(path: string, fi: FileInfo)
      modifies this
      ensures files == old(files)[path := fi.Value()]
      ensures path in files && files[path] == fi.Value()
      ensures forall p :: p != path ==> (p in files <==> p in old(files))
      ensures forall p :: p != path && p in files ==> files[p] == old(files)[p]
    {
      files := files[path := fi.Value()];
    }

    /** `DeleteFileInfo(path)`: erases the key when present, and nothing else. */
    method DeleteFileInfo(path: string)
      modifies this
      ensures files == old(files) - {path}
      ensures path !in files
      ensures path !in old(files) ==> files == old(files)
      ensures forall p :: p != path ==> (p in files <==> p in old(files))
      ensures forall p :: p != path && p in files ==> files[p] == old(files)[p]
    {
      if path in files {
        files := files - {path};
      }
    }

    /** `ClearFileInfo()`: the map becomes empty. */
    method ClearFileInfo()
      modifies this
      ensures files == map[]
      ensures forall p :: p !in files
    {
      files := map[];
    }
  }

  /** An insert followed by a fetch of the same path hits with exactly the inserted record. */
  method InsertThenFetch(table: FileInfoTable, path: string, fi: FileInfo, out: FileInfo)
    returns (found: bool)
    modifies table, out
    ensures found && out.Value() == old(fi.Value())
    ensures table.files == old(table.files)[path := old(fi.Value())]
  {
    table.InsertFileInfo(path, fi);
    found := table.FetchFileInfo(path, out);
  }

  /** A delete followed by a fetch of the same path misses, whatever was stored before. */
  method DeleteThenFetch(table: FileInfoTable, path: string, out: FileInfo)
    returns (found: bool)
    modifies table, out
    ensures !found && out.Value() == old(out.Value())
    ensures table.files == old(table.files) - {path}
  {
    table.DeleteFileInfo(path);
    found := table.FetchFileInfo(path, out);
  }

  /** After a clear, a fetch of any path misses. */
  method ClearThenFetch(table: FileInfoTable, path: string, out: FileInfo)
    returns (found: bool)
    modifies table, out
    ensures !found && out.Value() == old(out.Value())
    ensures table.files == map[]
  {
    table.ClearFileInfo();
    found := table.FetchFileInfo(path, out);
  }
}
