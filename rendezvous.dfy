/** The rendezvous directory shared by publishers and the aggregator:
    `{tmp}/_{exename}/{pid}/` holding `connection_info.json` and, while a
    consumer holds the publisher, `lockfile`. The filesystem is modelled as
    the subdirectories of one rendezvous root plus the set of endpoint
    (socket) paths that exist. */
module Rendezvous {
  import opened Wrappers

  const InfoName: string := "connection_info.json"
  const LockName: string := "lockfile"
  const ServerFileKey: string := "server file"

  /** `a / b` on paths. */
  function JoinPath(a: string, b: string): string {
    a + "/" + b
  }

  /** `Path(tmp) / ("_" + exename)`: the rendezvous root. */
  function RootPath(tmp: string, exename: string): string {
    JoinPath(tmp, "_" + exename)
  }

  /** The descriptor path of subdirectory `name`. */
  function InfoPath(root: string, name: string): string {
    JoinPath(JoinPath(root, name), InfoName)
  }

  /** What a `connection_info.json` holds: nothing (the file is absent),
      text that is not a JSON object, or a JSON object of string fields. */
  datatype InfoFile = Absent | Garbled | Json(fields: map<string, string>)

  /** One publisher subdirectory. */
  datatype Entry = Entry(info: InfoFile, hasLock: bool)

  /** The descriptor a publisher writes: the single key "server file". */
  function Descriptor(address: string): InfoFile {
    Json(map[ServerFileKey := address])
  }

  /** `_parse_connection_info_for_server_file`: the "server file" field,
      or `None` when the file is missing, is not JSON or lacks the key. */
  function ParseServerFile(info: InfoFile): Option<string> {
    match info
    case Json(fields) => if ServerFileKey in fields then Some(fields[ServerFileKey]) else None
    case _ => None
  }

  /** The descriptor a publisher writes parses back to its address. */
  lemma DescriptorRoundTrip(address: string)
    ensures ParseServerFile(Descriptor(address)) == Some(address)
    ensures Descriptor(address).fields.Keys == {ServerFileKey}
  {
  }

  /** The descriptor of subdirectory `name` as the filesystem holds it now. */
  function InfoOf(dirs: map<string, Entry>, name: string): InfoFile {
    if name in dirs then dirs[name].info else Absent
  }

  /** `dirs` with the lock of `name` set to `locked` (no change when the
      directory does not exist). */
  function WithLock(dirs: map<string, Entry>, name: string, locked: bool): (r: map<string, Entry>)
    ensures r.Keys == dirs.Keys
    ensures forall n :: n in r ==> r[n].info == dirs[n].info
    ensures forall n :: n in r ==> r[n].hasLock == if n == name then locked else dirs[n].hasLock
  {
    if name in dirs then dirs[name := dirs[name].(hasLock := locked)] else dirs
  }

  /** The outcome of an exclusive create of `lockfile` (`open(..., "x")`). */
  datatype LockOutcome = Created | AlreadyExists | NoDirectory

  class FileSystem {
    /** The subdirectories of the rendezvous root, by name. */
    var dirs: map<string, Entry>
    /** The endpoint paths that exist. */
    var pipes: set<string>

    constructor (dirs0: map<string, Entry>, pipes0: set<string>)
      ensures dirs == dirs0 && pipes == pipes0
    {
      dirs := dirs0;
      pipes := pipes0;
    }

    /** Exclusive create: succeeds only when the directory exists and has no
        lock file; otherwise nothing changes. */
    method CreateLock(name: string) returns (outcome: LockOutcome)
      modifies this
      ensures pipes == old(pipes)
      ensures outcome == (if name !in old(dirs) then NoDirectory
                          else if old(dirs)[name].hasLock then AlreadyExists
                          else Created)
      ensures dirs == WithLock(old(dirs), name, true)
    {
      if name !in dirs {
        outcome := NoDirectory;
      } else if dirs[name].hasLock {
        outcome := AlreadyExists;
      } else {
        dirs := WithLock(dirs, name, true);
        outcome := Created;
      }
    }

    /** `unlink` of the lock file; `found` is false where Python raises
        `FileNotFoundError`, and then nothing changes. */
    method UnlinkLock(name: string) returns (found: bool)
      modifies this
      ensures pipes == old(pipes)
      ensures found == (name in old(dirs) && old(dirs)[name].hasLock)
      ensures dirs == WithLock(old(dirs), name, false)
    {
      found := name in dirs && dirs[name].hasLock;
      dirs := WithLock(dirs, name, false);
    }

    /** `mkdir(parents=True, exist_ok=True)`: an existing directory is left
        as it is, contents included. */
    method MakeDir(name: string)
      modifies this
      ensures pipes == old(pipes)
      ensures dirs == if name in old(dirs) then old(dirs) else old(dirs)[name := Entry(Absent, false)]
    {
      if name !in dirs {
        dirs := dirs[name := Entry(Absent, false)];
      }
    }

    /** Overwrite the descriptor of an existing directory. */
    method WriteInfo(name: string, info: InfoFile)
      requires name in dirs
      modifies this
      ensures pipes == old(pipes)
      ensures dirs == old(dirs)[name := old(dirs)[name].(info := info)]
    {
      dirs := dirs[name := dirs[name].(info := info)];
    }

    /** `unlink` of the descriptor; `found` is false where Python raises. */
    method UnlinkInfo(name: string) returns (found: bool)
      modifies this
      ensures pipes == old(pipes)
      ensures found == (name in old(dirs) && !old(dirs)[name].info.Absent?)
      ensures dirs == if found then old(dirs)[name := old(dirs)[name].(info := Absent)] else old(dirs)
    {
      found := name in dirs && !dirs[name].info.Absent?;
      if found {
        dirs := dirs[name := dirs[name].(info := Absent)];
      }
    }

    /** `rmdir`: removes an existing, empty directory; `ok` is false where
        Python raises. */
    method RemoveDir(name: string) returns (ok: bool)
      modifies this
      ensures pipes == old(pipes)
      ensures ok == (name in old(dirs) && old(dirs)[name] == Entry(Absent, false))
      ensures dirs == if ok then old(dirs) - {name} else old(dirs)
    {
      ok := name in dirs && dirs[name] == Entry(Absent, false);
      if ok {
        dirs := dirs - {name};
      }
    }

    /** A listening endpoint creates its socket path; `ok` is false when
        the path is taken (the bind fails). */
    method Bind(address: string) returns (ok: bool)
      modifies this
      ensures dirs == old(dirs)
      ensures ok == (address !in old(pipes))
      ensures pipes == old(pipes) + {address}
    {
      ok := address !in pipes;
      pipes := pipes + {address};
    }

    /** Closing a listening endpoint removes its socket path. */
    method Unbind(address: string)
      modifies this
      ensures dirs == old(dirs)
      ensures pipes == old(pipes) - {address}
    {
      pipes := pipes - {address};
    }
  }
}
