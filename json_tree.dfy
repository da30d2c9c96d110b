/**
 * The in-memory tree objects of JSonFS: a Directory keeps its entries in a
 * name-keyed map of references, a File keeps its content as a string. Both
 * carry the name they inherit from FileSystemObject; `getName()` is read as
 * returning that name.
 */
module JsonTree {
  import opened Wrappers
  import TextFormat

  /** The suffixes the two `operator<<` overloads write after the count. */
  const EntriesSuffix: string := " Entr(y|ies)"
  const BytesSuffix: string := " byte(s)"

  /** A `FileSystemObject*`: a reference to a directory or to a file. */
  datatype Entry = DirectoryEntry(dir: Directory) | FileEntry(file: File) {
    /** The object the reference points to. */
    function Target(): object {
      if DirectoryEntry? then dir else file
    }

    /** `fso->getName()`. */
    function Name(): string
      reads Target()
    {
      if DirectoryEntry? then dir.name else file.name
    }
  }

  class Directory {
    var name: string
    var content: map<string, Entry>

    /** A default-constructed directory: empty name, no entries. */
    constructor ()
      ensures name == "" && content == map[]
    {
      name := "";
      content := map[];
    }

    /** `getContent()`: a copy of the whole entry map; the directory is only read. */
    method GetContent() returns (c: map<string, Entry>)
      ensures c == content
    {
      c := content;
    }

    /**
     * `addEntry(fso)`: indexing the map by the entry's own name stores the reference
     * under its own name, replacing an entry of that name; other entries and
     * the directory's name are unchanged, and the count grows by one exactly
     * when the name was new.
     */
    method AddEntry(e: Entry)
      modifies this
      ensures name == old(name)
      ensures content == old(content)[old(e.Name()) := e]
      ensures old(e.Name()) in content && content[old(e.Name())] == e
      ensures forall n :: n != old(e.Name()) ==> (n in content <==> n in old(content))
      ensures forall n :: n != old(e.Name()) && n in content ==> content[n] == old(content)[n]
      ensures |content| == if old(e.Name()) in old(content) then |old(content)| else |old(content)| + 1
    {
      var key := e.Name();
      content := content[key := e];
    }

    /**
     * `os << dir`: the line names the directory and states how many entries
     * it has, and both can be read back from it.
     */
    function Format(): (s: string)
      reads this
      ensures TextFormat.ParseSummary(s, EntriesSuffix) == Some((name, |content|))
    {
      TextFormat.SummaryRoundTrip(name, |content|, EntriesSuffix);
      TextFormat.Summary(name, |content|, EntriesSuffix)
    }
  }

  class File {
    var name: string
    var content: string

    /** A default-constructed file: empty name, empty content. */
    constructor ()
      ensures name == "" && content == ""
    {
      name := "";
      content := "";
    }

    /** `setContent(s)`: replaces the content wholesale and keeps the name. */
    method SetContent(s: string)
      modifies this
      ensures content == s
      ensures name == old(name)
    {
      content := s;
    }

    /** `getContent()`: the stored content; the file is only read. */
    method GetContent() returns (s: string)
      ensures s == content
    {
      s := content;
    }

    /**
     * `os << file`: the line names the file and states its content length
     * in bytes, and both can be read back from it.
     */
    function Format(): (s: string)
      reads this
      ensures TextFormat.ParseSummary(s, BytesSuffix) == Some((name, |content|))
    {
      TextFormat.SummaryRoundTrip(name, |content|, BytesSuffix);
      TextFormat.Summary(name, |content|, BytesSuffix)
    }
  }

  /** Setting a file's content and reading it back gives the string that was set. */
  method SetThenGet(f: File, s: string) returns (r: string)
    modifies f
    ensures r == s && f.name == old(f.name)
  {
    f.SetContent(s);
    r := f.GetContent();
  }
}
