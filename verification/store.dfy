/**
 * The node's local store (storage.go): one byte blob per flat name inside the
 * storage directory. The directory is a map from name to content; what no
 * operation of the node changes (which names are sub-directories, which
 * entries' metadata cannot be read, and whether the directory can be read
 * at all) forms a fixed `Layout`. What the file system does to one write is
 * a parameter.
 */
module Store {

  datatype Option<T> = None | Some(value: T)

  newtype byte = b: int | 0 <= b < 0x100

  /** The `{name, size}` record that ListFiles yields per regular file. */
  datatype FileInfo = FileInfo(name: string, size: int)

  datatype Error = NotFound | ReadDirFailed

  datatype Result<T> = Ok(value: T) | Err(error: Error)

  /**
   * What the file system does to one SaveFile: nothing goes wrong, creating
   * (and truncating) the file fails, or the copy into the freshly truncated
   * file fails after `written` bytes.
   */
  datatype WriteFault = NoFault | CreateFails | CopyFailsAfter(written: nat)

  /**
   * The parts of the storage directory that no operation of the node
   * changes: names that are sub-directories, regular files whose metadata
   * cannot be read while listing, and whether the directory can be read.
   */
  datatype Layout = Layout(dirs: set<string>, unreadable: set<string>, listable: bool)

  function Get(files: map<string, seq<byte>>, name: string): Option<seq<byte>>
  {
    if name in files then Some(files[name]) else None
  }

  function Min(a: int, b: int): int
  {
    if a < b then a else b
  }

  /** A save succeeds when the name is not a directory and the disk does not fail. */
  predicate WriteOk(dirs: set<string>, name: string, fault: WriteFault)
  {
    name !in dirs && fault == NoFault
  }

  /**
   * The directory after one SaveFile: creating a file over a directory or a
   * failing create leaves everything as it was; otherwise the file is
   * truncated and then receives the bytes copied before any failure.
   */
  function AfterWrite(files: map<string, seq<byte>>, dirs: set<string>, name: string,
                      data: seq<byte>, fault: WriteFault): (r: map<string, seq<byte>>)
    ensures WriteOk(dirs, name, fault) ==> Get(r, name) == Some(data)
    ensures name in dirs || fault == CreateFails ==> r == files
    ensures name !in dirs && fault.CopyFailsAfter? ==>
              name in r && r[name] <= data && |r[name]| == Min(fault.written, |data|)
    ensures forall n :: n != name ==> Get(r, n) == Get(files, n)
    ensures files.Keys !! dirs ==> r.Keys !! dirs
  {
    if name in dirs || fault == CreateFails then files
    else match fault
      case CopyFailsAfter(k) => files[name := data[..Min(k, |data|)]]
      case NoFault => files[name := data]
  }

  function NameSet(list: seq<FileInfo>): set<string>
  {
    set i | 0 <= i < |list| :: list[i].name
  }

  lemma NameSetAppend(list: seq<FileInfo>, e: FileInfo)
    ensures NameSet(list + [e]) == NameSet(list) + {e.name}
  {
    var l := list + [e];
    assert forall i :: 0 <= i < |list| ==> l[i] == list[i];
    assert l[|list|] == e;
  }

  /**
   * `list` is a listing of `files`: one entry per regular file whose
   * metadata can be read, none twice, each carrying that file's length.
   */
  ghost predicate Lists(list: seq<FileInfo>, files: map<string, seq<byte>>, unreadable: set<string>)
  {
    && (forall i, j :: 0 <= i < j < |list| ==> list[i].name != list[j].name)
    && (forall i :: 0 <= i < |list| ==> list[i].name in files && list[i].size == |files[list[i].name]|)
    && NameSet(list) == files.Keys - unreadable
  }

  class Storage {
    var files: map<string, seq<byte>>
    const layout: Layout

    /** A name is either a regular file or a sub-directory, never both. */
    ghost predicate Valid()
      reads this
    {
      files.Keys !! layout.dirs
    }

    /** Opens the storage directory as it is found on disk. */
    constructor (files: map<string, seq<byte>>, layout: Layout)
      requires files.Keys !! layout.dirs
      ensures Valid()
      ensures this.files == files && this.layout == layout
    {
      this.files := files;
      this.layout := layout;
    }

    /** Replaces the whole content under `name`. */
    method SaveFile(name: string, data: seq<byte>, fault: WriteFault) returns (ok: bool)
      requires Valid()
      modifies this
      ensures Valid()
      ensures ok == WriteOk(layout.dirs, name, fault)
      ensures files == AfterWrite(old(files), layout.dirs, name, data, fault)
    {
      if name in layout.dirs || fault == CreateFails {
        return false;
      }
      // creating the file truncates whatever it held
      files := files[name := []];
      match fault {
        case CopyFailsAfter(k) =>
          files := files[name := data[..Min(k, |data|)]];
          ok := false;
        case NoFault =>
          files := files[name := data];
          ok := true;
      }
    }

    /** Opens `name` for reading and yields its content. */
    method GetFile(name: string) returns (r: Result<seq<byte>>)
      ensures r.Ok? <==> name in files
      ensures r.Ok? ==> r.value == files[name]
      ensures r.Err? ==> r.error == NotFound
    {
      if name in files {
        r := Ok(files[name]);
      } else {
        r := Err(NotFound);
      }
    }

    /**
     * Lists the directory: an error when it cannot be read, otherwise one
     * entry per regular file, skipping sub-directories and entries whose
     * metadata cannot be read.
     */
    method ListFiles() returns (r: Result<seq<FileInfo>>)
      requires Valid()
      ensures r.Err? <==> !layout.listable
      ensures r.Err? ==> r.error == ReadDirFailed
      ensures r.Ok? ==> Lists(r.value, files, layout.unreadable)
      ensures r.Ok? ==> forall i :: 0 <= i < |r.value| ==>
                r.value[i].name !in layout.dirs && r.value[i].name !in layout.unreadable
    {
      if !layout.listable {
        return Err(ReadDirFailed);
      }
      var entries := files.Keys + layout.dirs;
      var list: seq<FileInfo> := [];
      while entries != {}
        invariant entries <= files.Keys + layout.dirs
        invariant forall i :: 0 <= i < |list| ==>
                    && list[i].name in files && list[i].name !in entries
                    && list[i].name !in layout.unreadable
                    && list[i].size == |files[list[i].name]|
        invariant forall i, j :: 0 <= i < j < |list| ==> list[i].name != list[j].name
        invariant NameSet(list) == (files.Keys - layout.unreadable) - entries
        decreases entries
      {
        var entry :| entry in entries;
        entries := entries - {entry};
        if entry in layout.dirs {
          continue;
        }
        if entry in layout.unreadable {
          continue;
        }
        NameSetAppend(list, FileInfo(entry, |files[entry]|));
        list := list + [FileInfo(entry, |files[entry]|)];
      }
      r := Ok(list);
    }

    /** Removes the regular file `name`; fails when there is none. */
    method DeleteFile(name: string) returns (ok: bool)
      requires Valid()
      modifies this
      ensures Valid()
      ensures ok <==> name in old(files)
      ensures files == old(files) - {name}
    {
      ok := name in files;
      files := files - {name};
    }
  }
}
