/** The publisher of `krunch3rIPC/ipc_server.py`: it creates its
    subdirectory `{tmp}/_{exename}/{pid}`, binds an endpoint and writes the
    descriptor; it then serves one consumer at a time, wrapping every
    message from its owner in an envelope; on a broken pipe it drops the
    message, releases the lock and accepts again; on teardown it removes
    the descriptor, the endpoint, the lock and the subdirectory. */
module IpcServer {
  import opened Wrappers
  import Text
  import opened Rendezvous

  /** A message relayed from the owning process, and the envelope built
      for it: text, integers and dictionaries. */
  datatype Value = Text(s: string) | Num(n: int) | Dict(fields: map<string, Value>)

  /** Why construction or teardown raises. */
  datatype ServerError =
    | LoggerUnset  // a logger was passed, so `self._logger` was never assigned
    | BindFailed   // the listening endpoint could not be created
    | InfoMissing  // the descriptor was already gone at teardown

  /** `self._k_pid`: the explicit pid when one is given, else the OS pid. */
  function ServerPid(ppid: Option<int>, osPid: int): int {
    match ppid
    case Some(p) => p
    case None => osPid
  }

  /** The name of the publisher's subdirectory, `str(pid)`. */
  function DirName(pid: int): string {
    Text.IntToString(pid)
  }

  /** A publisher's subdirectory name is read back as its pid by the
      aggregator. */
  lemma DirNameRoundTrip(pid: int)
    ensures Text.ParseInt(DirName(pid)) == Some(pid)
  {
    Text.ParseIntToString(pid);
  }

  /** The envelope of one relayed message, built by successive assignments
      as the source does. The test whether the message already carries a
      "signal" key looks at the fresh, empty envelope, so it never holds
      and a dictionary is nested under "signal" like any other message. */
  method BuildEnvelope(msg: Value, pid: int, exename: string) returns (envelope: map<string, Value>)
    ensures envelope.Keys == {"signal", "pid", "exename"}
    ensures envelope["signal"] == msg
    ensures envelope["pid"] == Num(pid) && envelope["exename"] == Text(exename)
  {
    envelope := map[];
    if !msg.Dict? {
      envelope := envelope["signal" := msg];
    } else if "signal" !in envelope {
      envelope := envelope["signal" := msg];
    }
    envelope := envelope["pid" := Num(pid)];
    envelope := envelope["exename" := Text(exename)];
  }

  class Server {
    /** The filesystem holding the rendezvous root. */
    const fs: FileSystem
    const pid: int
    const exename: string
    /** `_kConnectionDirRoot`, `_kConnectionDirPath`, `_kConnectionInfoFilePath`. */
    const root: string
    const dirPath: string
    const infoPath: string
    /** The name of the subdirectory under the root. */
    const dirName: string
    /** The listening endpoint's address. */
    const address: string
    /** Whether a consumer is attached (the inner relay loop runs). */
    var connected: bool

    constructor Init(fs: FileSystem, tmp: string, pid: int, exename: string, address: string)
      ensures this.fs == fs && this.pid == pid && this.exename == exename && this.address == address
      ensures root == RootPath(tmp, exename) && dirName == DirName(pid)
      ensures dirPath == JoinPath(root, dirName) && infoPath == InfoPath(root, dirName)
      ensures !connected
    {
      this.fs := fs;
      this.pid := pid;
      this.exename := exename;
      this.address := address;
      root := RootPath(tmp, exename);
      dirName := DirName(pid);
      dirPath := JoinPath(RootPath(tmp, exename), DirName(pid));
      infoPath := InfoPath(RootPath(tmp, exename), DirName(pid));
      connected := false;
    }

    /** `IPC_Server(...)`: create the subdirectory (keeping it and its
        contents if it exists), then bind the endpoint at `address` and
        write the descriptor. Passing a logger makes the first log call
        raise right after the directory is made. */
    static method Create(fs: FileSystem, tmp: string, exename: string, ppid: Option<int>, osPid: int,
                         loggerGiven: bool, address: string)
      returns (r: Result<Server, ServerError>)
      modifies fs
      ensures var name := DirName(ServerPid(ppid, osPid));
              var made := if name in old(fs.dirs) then old(fs.dirs) else old(fs.dirs)[name := Entry(Absent, false)];
              && (loggerGiven ==> r == Err(LoggerUnset) && fs.dirs == made && fs.pipes == old(fs.pipes))
              && (!loggerGiven && address in old(fs.pipes) ==>
                    r == Err(BindFailed) && fs.dirs == made && fs.pipes == old(fs.pipes))
              && (!loggerGiven && address !in old(fs.pipes) ==>
                    && r.Ok?
                    && fs.dirs == made[name := made[name].(info := Descriptor(address))]
                    && fs.pipes == old(fs.pipes) + {address})
      ensures r.Ok? ==> fresh(r.value) && r.value.fs == fs && !r.value.connected
      ensures r.Ok? ==> r.value.pid == ServerPid(ppid, osPid) && r.value.exename == exename
      ensures r.Ok? ==> r.value.address == address
      ensures r.Ok? ==> r.value.root == RootPath(tmp, exename) && r.value.dirName == DirName(r.value.pid)
      ensures r.Ok? ==> r.value.infoPath == InfoPath(RootPath(tmp, exename), DirName(r.value.pid))
    {
      var pid := ServerPid(ppid, osPid);
      var name := DirName(pid);
      fs.MakeDir(name);
      if loggerGiven {
        return Err(LoggerUnset);
      }
      var bound := fs.Bind(address);
      if !bound {
        return Err(BindFailed);
      }
      fs.WriteInfo(name, Descriptor(address));
      var s := new Server.Init(fs, tmp, pid, exename, address);
      r := Ok(s);
    }

    /** `accept`: the outer loop waits for the one consumer it serves. */
    method Accept()
      requires !connected
      modifies this
      ensures connected
    {
      connected := true;
    }

    /** One turn of the relay loop: wrap the next message and send it.
        When the send finds the pipe broken the message is lost, the lock
        file is removed best-effort and the server goes back to accepting. */
    method Relay(msg: Value, delivered: bool) returns (envelope: map<string, Value>)
      requires connected
      modifies this, fs
      ensures envelope.Keys == {"signal", "pid", "exename"}
      ensures envelope["signal"] == msg && envelope["pid"] == Num(pid) && envelope["exename"] == Text(exename)
      ensures fs.pipes == old(fs.pipes)
      ensures delivered ==> connected && fs.dirs == old(fs.dirs)
      ensures !delivered ==> !connected && fs.dirs == WithLock(old(fs.dirs), dirName, false)
    {
      envelope := BuildEnvelope(msg, pid, exename);
      if !delivered {
        var _ := fs.UnlinkLock(dirName);
        connected := false;
      }
    }

    /** `__del__`: unlink the descriptor (raising when it is gone, before
        anything else happens), close the endpoint, unlink the lock
        best-effort and remove the subdirectory. The root is left alone. */
    method Teardown() returns (r: Result<(), ServerError>)
      modifies fs
      ensures old(dirName in fs.dirs && !fs.dirs[dirName].info.Absent?) ==>
        r.Ok? && fs.dirs == old(fs.dirs) - {dirName} && fs.pipes == old(fs.pipes) - {address}
      ensures !old(dirName in fs.dirs && !fs.dirs[dirName].info.Absent?) ==>
        r == Err(InfoMissing) && fs.dirs == old(fs.dirs) && fs.pipes == old(fs.pipes)
    {
      var found := fs.UnlinkInfo(dirName);
      if !found {
        return Err(InfoMissing);
      }
      fs.Unbind(address);
      var _ := fs.UnlinkLock(dirName);
      var removed := fs.RemoveDir(dirName);
      assert removed;
      r := Ok(());
    }
  }
}
