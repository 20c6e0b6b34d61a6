/** The aggregator of `krunch3rIPC/ipc_client.py`: the discovery scan over
    the rendezvous root, the per-publisher connection info (descriptor
    parse, lock, repr), and one poll step and one update step over the set
    of tracked connections. The transport is abstract: `wait` hands back
    which connections are readable and what each `recv` gives. */
module IpcClient {
  import opened Wrappers
  import Text
  import opened Rendezvous

  // ---------------------------------------------------------------------
  // _search_for_connection_info_files
  // ---------------------------------------------------------------------

  /** A subdirectory the scan reports: it holds a descriptor and no lock. */
  predicate Claimable(dirs: map<string, Entry>, name: string) {
    name in dirs && !dirs[name].info.Absent? && !dirs[name].hasLock
  }

  /** The pairs (directory name, descriptor path) the scan collects from
      the names the directory iteration yielded, in that order. */
  function Discovered(dirs: map<string, Entry>, root: string, names: seq<string>): seq<(string, string)> {
    if names == [] then []
    else
      var last := names[|names| - 1];
      Discovered(dirs, root, names[..|names| - 1]) +
        (if Claimable(dirs, last) then [(last, InfoPath(root, last))] else [])
  }

  /** The scan reports a pair exactly when it names a listed, claimable
      directory together with that directory's descriptor path. */
  lemma {:induction false} DiscoveredMembership(dirs: map<string, Entry>, root: string, names: seq<string>, pair: (string, string))
    ensures pair in Discovered(dirs, root, names) <==>
      pair.0 in names && Claimable(dirs, pair.0) && pair.1 == InfoPath(root, pair.0)
  {
    if names != [] {
      var init := names[..|names| - 1];
      DiscoveredMembership(dirs, root, init, pair);
      assert names == init + [names[|names| - 1]];
    }
  }

  /** An iteration cut short (by `FileNotFoundError`) returns what the
      completed part collected: the scan of a longer listing extends the
      scan of its prefix. */
  lemma {:induction false} DiscoveredAppend(dirs: map<string, Entry>, root: string, a: seq<string>, b: seq<string>)
    ensures Discovered(dirs, root, a + b) == Discovered(dirs, root, a) + Discovered(dirs, root, b)
    decreases |b|
  {
    if b == [] {
      assert a + b == a;
    } else {
      var init := b[..|b| - 1];
      DiscoveredAppend(dirs, root, a, init);
      assert (a + b)[..|a + b| - 1] == a + init;
    }
  }

  /** The scan as the source runs it: iterate, keep each entry that has
      `connection_info.json` and no `lockfile`. `listing` is what the
      iteration yields before it stops, whether by exhaustion or because
      the directory vanished; a name that has vanished meanwhile fails both
      `exists` tests and is skipped. */
  method ScanForConnectionInfoFiles(fs: FileSystem, root: string, listing: seq<string>)
    returns (pairs: seq<(string, string)>)
    ensures pairs == Discovered(fs.dirs, root, listing)
  {
    pairs := [];
    var i := 0;
    while i < |listing|
      invariant 0 <= i <= |listing|
      invariant pairs == Discovered(fs.dirs, root, listing[..i])
    {
      var nextDir := listing[i];
      if nextDir in fs.dirs && !fs.dirs[nextDir].info.Absent? {
        if !fs.dirs[nextDir].hasLock {
          pairs := pairs + [(nextDir, InfoPath(root, nextDir))];
        }
      }
      assert listing[..i + 1][..i] == listing[..i];
      i := i + 1;
    }
    assert listing[..|listing|] == listing;
  }

  // ---------------------------------------------------------------------
  // _MyClientConnectionInfo and _MyClientConnection
  // ---------------------------------------------------------------------

  /** A discovered publisher: its pid (the directory name read as an
      integer), directory, descriptor path and the parsed endpoint path. */
  datatype Candidate = Candidate(pid: int, dir: string, infoPath: string, pipe: Option<string>)

  /** A tracked connection; hashing goes through the repr of its info. */
  datatype Conn = Conn(info: Candidate, markedBad: bool)

  /** Why an update step raises. */
  datatype ClientError = InvalidPid(name: string)  // `int(pid)` raised `ValueError`

  /** `__repr__` of the info: descriptor path followed by the endpoint path
      (nothing when there is none). */
  function CandidateRepr(c: Candidate): string {
    c.infoPath + (if c.pipe.None? then "" else c.pipe.value)
  }

  /** `whether_pipe_exists`: false when the parse gave nothing or the
      endpoint path does not exist. */
  function WhetherPipeExists(c: Candidate, pipes: set<string>): bool {
    if c.pipe.None? then false
    else if c.pipe.value !in pipes then false
    else true
  }

  /** `_MyClientConnectionInfo(*pair)`, given the pid `int` made of it. */
  function MakeCandidate(dirs: map<string, Entry>, pair: (string, string), pid: int): Candidate {
    Candidate(pid, pair.0, pair.1, ParseServerFile(InfoOf(dirs, pair.0)))
  }

  /** The set comprehension building the infos of all pairs: it raises as
      soon as one directory name is not an integer. */
  function Candidates(dirs: map<string, Entry>, pairs: seq<(string, string)>): (r: Result<seq<Candidate>, ClientError>)
    ensures r.Ok? <==> forall i :: 0 <= i < |pairs| ==> Text.ParseInt(pairs[i].0).Some?
    ensures r.Ok? ==>
      && |r.value| == |pairs|
      && forall i :: 0 <= i < |pairs| ==>
           r.value[i] == MakeCandidate(dirs, pairs[i], Text.ParseInt(pairs[i].0).value)
    ensures r.Err? ==> exists i :: 0 <= i < |pairs| && r.error == InvalidPid(pairs[i].0)
  {
    if pairs == [] then Ok([])
    else
      match Text.ParseInt(pairs[0].0)
      case None => Err(InvalidPid(pairs[0].0))
      case Some(pid) =>
        match Candidates(dirs, pairs[1..])
        case Err(e) => Err(e)
        case Ok(rest) => Ok([MakeCandidate(dirs, pairs[0], pid)] + rest)
  }

  /** Candidates only read descriptors, so clearing or setting locks does
      not change them. */
  lemma {:induction false} CandidatesIgnoreLocks(d1: map<string, Entry>, d2: map<string, Entry>, pairs: seq<(string, string)>)
    requires d1.Keys == d2.Keys
    requires forall n :: n in d1 ==> d1[n].info == d2[n].info
    ensures Candidates(d1, pairs) == Candidates(d2, pairs)
  {
    if pairs != [] {
      CandidatesIgnoreLocks(d1, d2, pairs[1..]);
    }
  }

  /** The infos whose endpoint exists (the filter at lines 233-237). */
  function Viable(cands: seq<Candidate>, pipes: set<string>): (r: seq<Candidate>)
    ensures forall c :: c in r <==> c in cands && WhetherPipeExists(c, pipes)
  {
    if cands == [] then []
    else (if WhetherPipeExists(cands[0], pipes) then [cands[0]] else []) + Viable(cands[1..], pipes)
  }

  // ---------------------------------------------------------------------
  // The tracked set
  // ---------------------------------------------------------------------

  /** The hashes (reprs) of the tracked connections. */
  function Keys(cs: seq<Conn>): set<string> {
    set c | c in cs :: CandidateRepr(c.info)
  }

  /** The publisher directories of the tracked connections. */
  function DirsOf(cs: seq<Conn>): set<string> {
    set c | c in cs :: c.info.dir
  }

  /** No two tracked connections share a repr. */
  ghost predicate DistinctKeys(cs: seq<Conn>) {
    forall i, j :: 0 <= i < j < |cs| ==> CandidateRepr(cs[i].info) != CandidateRepr(cs[j].info)
  }

  /** The connections kept by the purge. */
  function Purged(cs: seq<Conn>): (r: seq<Conn>)
    ensures forall c :: c in r <==> c in cs && !c.markedBad
    ensures |r| <= |cs|
  {
    if cs == [] then []
    else (if cs[0].markedBad then [] else [cs[0]]) + Purged(cs[1..])
  }

  /** The connections the purge removes. */
  function BadOnes(cs: seq<Conn>): (r: seq<Conn>)
    ensures forall c :: c in r <==> c in cs && c.markedBad
  {
    if cs == [] then []
    else (if cs[0].markedBad then [cs[0]] else []) + BadOnes(cs[1..])
  }

  /** Dropping the first connection keeps the reprs distinct. */
  lemma DistinctKeysTail(cs: seq<Conn>)
    requires cs != [] && DistinctKeys(cs)
    ensures DistinctKeys(cs[1..])
  {
    var tail := cs[1..];
    forall i, j | 0 <= i < j < |tail|
      ensures CandidateRepr(tail[i].info) != CandidateRepr(tail[j].info)
    {
      assert tail[i] == cs[i + 1] && tail[j] == cs[j + 1];
    }
  }

  /** Changing only the bad marks keeps the reprs distinct. */
  lemma SameInfosDistinct(a: seq<Conn>, b: seq<Conn>)
    requires DistinctKeys(a) && |a| == |b|
    requires forall i :: 0 <= i < |a| ==> a[i].info == b[i].info
    ensures DistinctKeys(b)
  {
  }

  /** The purge keeps distinct reprs distinct. */
  lemma {:induction false} PurgedDistinct(cs: seq<Conn>)
    requires DistinctKeys(cs)
    ensures DistinctKeys(Purged(cs))
  {
    if cs != [] {
      var tail := cs[1..];
      DistinctKeysTail(cs);
      PurgedDistinct(tail);
      if !cs[0].markedBad {
        var rest := Purged(tail);
        forall j | 0 <= j < |rest| ensures CandidateRepr(cs[0].info) != CandidateRepr(rest[j].info) {
          assert rest[j] in tail;
          var k :| 0 <= k < |tail| && tail[k] == rest[j];
          assert cs[k + 1] == rest[j];
        }
        var r := [cs[0]] + rest;
        forall i, j | 0 <= i < j < |r| ensures CandidateRepr(r[i].info) != CandidateRepr(r[j].info) {
          assert r[j] == rest[j - 1];
          if i > 0 {
            assert r[i] == rest[i - 1];
          }
        }
        assert Purged(cs) == r;
      }
    }
  }

  /** The add loop: each viable info whose repr is not yet tracked is
      connected and added, in order. */
  function AddNew(base: seq<Conn>, cands: seq<Candidate>): (r: seq<Conn>)
    ensures |base| <= |r| && r[..|base|] == base
  {
    if cands == [] then base
    else
      var prev := AddNew(base, cands[..|cands| - 1]);
      var m := cands[|cands| - 1];
      if CandidateRepr(m) in Keys(prev) then prev else prev + [Conn(m, false)]
  }

  /** Adding keeps reprs distinct; every added connection is a fresh, not
      bad connection for one of the infos, with a repr not tracked before. */
  lemma {:induction false} AddNewProperties(base: seq<Conn>, cands: seq<Candidate>)
    requires DistinctKeys(base)
    ensures var r := AddNew(base, cands);
      && DistinctKeys(r)
      && forall j :: |base| <= j < |r| ==>
           !r[j].markedBad && r[j].info in cands && CandidateRepr(r[j].info) !in Keys(base)
  {
    if cands != [] {
      var init := cands[..|cands| - 1];
      var prev := AddNew(base, init);
      var m := cands[|cands| - 1];
      AddNewProperties(base, init);
      forall j | |base| <= j < |prev| ensures prev[j].info in cands {
        assert prev[j].info in init;
      }
      if CandidateRepr(m) !in Keys(prev) {
        var r := prev + [Conn(m, false)];
        forall i | 0 <= i < |prev| ensures CandidateRepr(r[i].info) != CandidateRepr(m) {
          assert prev[i] in prev;
        }
        assert Keys(base) <= Keys(prev) by {
          forall c | c in base ensures c in prev {
            var k :| 0 <= k < |base| && base[k] == c;
            assert prev[k] == c;
          }
        }
      }
    }
  }

  /** After adding, the repr of every viable info is tracked. */
  lemma {:induction false} AddNewCovers(base: seq<Conn>, cands: seq<Candidate>)
    ensures forall c :: c in cands ==> CandidateRepr(c) in Keys(AddNew(base, cands))
  {
    if cands != [] {
      var init := cands[..|cands| - 1];
      var prev := AddNew(base, init);
      AddNewCovers(base, init);
      var r := AddNew(base, cands);
      assert Keys(prev) <= Keys(r) by {
        forall c | c in prev ensures c in r {
          var k :| 0 <= k < |prev| && prev[k] == c;
          assert r[k] == c;
        }
      }
      var m := cands[|cands| - 1];
      if CandidateRepr(m) !in Keys(prev) {
        assert r[|r| - 1] == Conn(m, false);
      }
      assert cands == init + [m];
    }
  }

  // ---------------------------------------------------------------------
  // Poll inputs
  // ---------------------------------------------------------------------

  /** What one `recv` on a readable connection gives. */
  datatype RecvOutcome = Payload(message: string) | Eof | Reset

  /** A readable connection (its position in the tracked sequence) and
      what receiving from it gives. */
  datatype Ready = Ready(index: nat, outcome: RecvOutcome)

  /** What `multiprocessing.connection.wait` gives. */
  datatype WaitResult = WaitValueError | Readable(ready: seq<Ready>)

  /** The payloads printed, in the order received. */
  function Payloads(ready: seq<Ready>): seq<string> {
    if ready == [] then []
    else
      var last := ready[|ready| - 1];
      Payloads(ready[..|ready| - 1]) + (if last.outcome.Payload? then [last.outcome.message] else [])
  }

  /** The connections whose receive hit end of stream or a reset. */
  function FailedIndices(ready: seq<Ready>): set<nat> {
    set r | r in ready && !r.outcome.Payload? :: r.index
  }

  /** Receiving from one more ready connection adds its index to the
      failed ones exactly when it delivered no payload. */
  lemma FailedIndicesAppend(ready: seq<Ready>, p: Ready)
    ensures FailedIndices(ready + [p]) ==
      FailedIndices(ready) + (if p.outcome.Payload? then {} else {p.index})
  {
    assert forall r :: r in ready + [p] <==> r in ready || r == p;
  }

  /** `wait` only reports tracked connections. */
  predicate ReadyWithin(wait: WaitResult, n: nat) {
    wait.Readable? ==> forall i :: 0 <= i < |wait.ready| ==> wait.ready[i].index < n
  }

  /** The tracked connections after one poll: the same connections in the
      same places, each newly marked bad when its receive failed. */
  function Polled(cs: seq<Conn>, wait: WaitResult): seq<Conn> {
    seq(|cs|, i requires 0 <= i < |cs| =>
      Conn(cs[i].info, cs[i].markedBad || (wait.Readable? && i in FailedIndices(wait.ready))))
  }

  /** The receive loop of `_poll_connections` over the connections `orig`:
      each ready connection is received from once, in the order `wait`
      reported them; a payload is printed, and end of stream or a reset
      marks the connection bad. */
  method ReceiveReady(orig: seq<Conn>, ready: seq<Ready>) returns (conns: seq<Conn>, printed: seq<string>)
    requires forall i :: 0 <= i < |ready| ==> ready[i].index < |orig|
    ensures |conns| == |orig|
    ensures forall i :: 0 <= i < |conns| ==> conns[i].info == orig[i].info
    ensures forall i :: 0 <= i < |conns| ==>
      (conns[i].markedBad <==> orig[i].markedBad || i in FailedIndices(ready))
    ensures printed == Payloads(ready)
  {
    conns := orig;
    printed := [];
    var j := 0;
    while j < |ready|
      invariant 0 <= j <= |ready|
      invariant |conns| == |orig|
      invariant forall i :: 0 <= i < |conns| ==> conns[i].info == orig[i].info
      invariant forall i :: 0 <= i < |conns| ==>
        (conns[i].markedBad <==> orig[i].markedBad || i in FailedIndices(ready[..j]))
      invariant printed == Payloads(ready[..j])
    {
      var p := ready[j];
      assert ready[..j + 1] == ready[..j] + [p];
      FailedIndicesAppend(ready[..j], p);
      match p.outcome {
        case Payload(received) =>
          printed := printed + [received];
        case _ =>
          conns := conns[p.index := conns[p.index].(markedBad := true)];
      }
      j := j + 1;
    }
    assert ready[..|ready|] == ready;
  }

  // ---------------------------------------------------------------------
  // IPC_Client
  // ---------------------------------------------------------------------

  /** `after` is `before` with the locks of `raised` created and nothing
      else changed. */
  ghost predicate LocksRaised(before: map<string, Entry>, after: map<string, Entry>, raised: set<string>) {
    && after.Keys == before.Keys
    && forall n :: n in after ==>
         && after[n].info == before[n].info
         && (after[n].hasLock <==> n in raised || before[n].hasLock)
  }

  lemma LocksRaisedTrans(a: map<string, Entry>, b: map<string, Entry>, c: map<string, Entry>,
                         s: set<string>, t: set<string>)
    requires LocksRaised(a, b, s) && LocksRaised(b, c, t)
    ensures LocksRaised(a, c, s + t)
  {
  }

  /** Chaining two lock-raising steps over a growing connection sequence. */
  lemma LocksRaisedStep(a: map<string, Entry>, b: map<string, Entry>, c: map<string, Entry>,
                        base: seq<Conn>, mid: seq<Conn>, last: seq<Conn>)
    requires |base| <= |mid| <= |last| && last[..|mid|] == mid
    requires LocksRaised(a, b, DirsOf(mid[|base|..])) && LocksRaised(b, c, DirsOf(last[|mid|..]))
    ensures LocksRaised(a, c, DirsOf(last[|base|..]))
  {
    LocksRaisedTrans(a, b, c, DirsOf(mid[|base|..]), DirsOf(last[|mid|..]));
    assert last[|base|..] == mid[|base|..] + last[|mid|..];
    DirsOfAppend(mid[|base|..], last[|mid|..]);
  }

  lemma DirsOfAppend(a: seq<Conn>, b: seq<Conn>)
    ensures DirsOf(a + b) == DirsOf(a) + DirsOf(b)
  {
    forall d | d in DirsOf(a + b) ensures d in DirsOf(a) + DirsOf(b) {
      var c :| c in a + b && c.info.dir == d;
    }
    forall d | d in DirsOf(a) + DirsOf(b) ensures d in DirsOf(a + b) {
      if d in DirsOf(a) {
        var c :| c in a && c.info.dir == d;
        assert c in a + b;
      } else {
        var c :| c in b && c.info.dir == d;
        assert c in a + b;
      }
    }
  }

  class Client {
    /** The filesystem holding the rendezvous root. */
    const fs: FileSystem
    /** `_path_to_datadir`. */
    const root: string
    /** `_server_connections`. */
    var connections: seq<Conn>

    ghost predicate Valid()
      reads this
    {
      DistinctKeys(connections)
    }

    /** `IPC_Client(exename, ...)` with the temporary directory passed in. */
    constructor (fs: FileSystem, tmp: string, exename: string)
      ensures this.fs == fs && root == RootPath(tmp, exename)
      ensures connections == [] && Valid()
    {
      this.fs := fs;
      root := RootPath(tmp, exename);
      connections := [];
    }

    /** `lock`: exclusive create of the lock file. When it already exists
        the failure is only logged: nothing changes and nothing is raised. */
    method Lock(info: Candidate) returns (outcome: LockOutcome)
      requires info.dir in fs.dirs
      modifies fs
      ensures outcome != NoDirectory
      ensures outcome == AlreadyExists <==> old(fs.dirs)[info.dir].hasLock
      ensures fs.dirs == WithLock(old(fs.dirs), info.dir, true) && fs.pipes == old(fs.pipes)
    {
      outcome := fs.CreateLock(info.dir);
    }

    /** `_MyClientConnection(info)`: lock, then connect whether or not the
        lock was won. */
    method Connect(info: Candidate) returns (c: Conn)
      requires info.dir in fs.dirs
      modifies fs
      ensures c == Conn(info, false)
      ensures fs.dirs == WithLock(old(fs.dirs), info.dir, true) && fs.pipes == old(fs.pipes)
    {
      var _ := Lock(info);
      c := Conn(info, false);
    }

    /** Best-effort unlink of the lock file of every connection in `cs`;
        a lock already gone is tolerated. */
    method ReleaseLocks(cs: seq<Conn>)
      modifies fs
      ensures fs.pipes == old(fs.pipes) && fs.dirs.Keys == old(fs.dirs).Keys
      ensures forall n :: n in fs.dirs ==> fs.dirs[n].info == old(fs.dirs)[n].info
      ensures forall n :: n in fs.dirs ==>
        fs.dirs[n].hasLock == (old(fs.dirs)[n].hasLock && n !in DirsOf(cs))
    {
      var i := 0;
      while i < |cs|
        invariant 0 <= i <= |cs|
        invariant fs.pipes == old(fs.pipes) && fs.dirs.Keys == old(fs.dirs).Keys
        invariant forall n :: n in fs.dirs ==> fs.dirs[n].info == old(fs.dirs)[n].info
        invariant forall n :: n in fs.dirs ==>
          fs.dirs[n].hasLock == (old(fs.dirs)[n].hasLock && n !in DirsOf(cs[..i]))
      {
        var _ := fs.UnlinkLock(cs[i].info.dir);
        assert DirsOf(cs[..i + 1]) == DirsOf(cs[..i]) + {cs[i].info.dir} by {
          assert cs[..i + 1] == cs[..i] + [cs[i]];
        }
        i := i + 1;
      }
      assert cs[..|cs|] == cs;
    }

    /** The purge at lines 216-223: drop the connections marked bad and
        release their locks. */
    method PurgeBad()
      requires Valid()
      modifies this, fs
      ensures Valid()
      ensures connections == Purged(old(connections))
      ensures fs.pipes == old(fs.pipes) && fs.dirs.Keys == old(fs.dirs).Keys
      ensures forall n :: n in fs.dirs ==> fs.dirs[n].info == old(fs.dirs)[n].info
      ensures forall n :: n in fs.dirs ==>
        fs.dirs[n].hasLock == (old(fs.dirs)[n].hasLock && n !in DirsOf(BadOnes(old(connections))))
    {
      var bad := BadOnes(connections);
      PurgedDistinct(connections);
      connections := Purged(connections);
      ReleaseLocks(bad);
    }

    /** The add loop at lines 243-248: connect each info whose repr is not
        tracked yet; each connect creates (or finds) the lock. */
    method AddViable(viable: seq<Candidate>)
      requires forall c :: c in viable ==> c.dir in fs.dirs
      modifies this, fs
      ensures connections == AddNew(old(connections), viable)
      ensures fs.pipes == old(fs.pipes)
      ensures LocksRaised(old(fs.dirs), fs.dirs, DirsOf(connections[|old(connections)|..]))
    {
      ghost var base := connections;
      var k := 0;
      while k < |viable|
        invariant 0 <= k <= |viable|
        invariant connections == AddNew(base, viable[..k])
        invariant fs.pipes == old(fs.pipes)
        invariant LocksRaised(old(fs.dirs), fs.dirs, DirsOf(connections[|base|..]))
      {
        ghost var before := connections;
        ghost var dirsBefore := fs.dirs;
        AddOne(viable[k]);
        LocksRaisedStep(old(fs.dirs), dirsBefore, fs.dirs, base, before, connections);
        assert viable[..k + 1][..k] == viable[..k];
        k := k + 1;
      }
      assert viable[..|viable|] == viable;
    }

    /** One turn of the add loop: connect `m` unless its repr is tracked. */
    method AddOne(m: Candidate)
      requires m.dir in fs.dirs
      modifies this, fs
      ensures connections == if CandidateRepr(m) in Keys(old(connections)) then old(connections)
                             else old(connections) + [Conn(m, false)]
      ensures |old(connections)| <= |connections| && connections[..|old(connections)|] == old(connections)
      ensures fs.pipes == old(fs.pipes)
      ensures LocksRaised(old(fs.dirs), fs.dirs, DirsOf(connections[|old(connections)|..]))
    {
      if CandidateRepr(m) !in Keys(connections) {
        var c := Connect(m);
        connections := connections + [c];
        assert connections[|old(connections)|..] == [c];
      } else {
        assert connections[|old(connections)|..] == [];
      }
    }

    /** `_update_connections`: scan (before anything else), purge the
        connections marked bad and release their locks, then, when the scan
        found something, read each pair's descriptor, keep those whose
        endpoint exists and connect each one whose repr is not tracked yet.
        The two set differences at lines 239 and 241 remove nothing (the
        first compares connections with infos, which are never equal; the
        second repeats the purge) and are not modelled. */
    method UpdateConnections(listing: seq<string>) returns (r: Result<(), ClientError>)
      requires Valid()
      modifies this, fs
      ensures Valid()
      ensures fs.pipes == old(fs.pipes)
      ensures forall c :: c in connections ==> !c.markedBad
      ensures |Purged(old(connections))| <= |connections|
      ensures connections[..|Purged(old(connections))|] == Purged(old(connections))
      ensures var pairs := Discovered(old(fs.dirs), root, listing);
              var base := Purged(old(connections));
              var cands := Candidates(old(fs.dirs), pairs);
              && (pairs == [] ==> r.Ok? && connections == base)
              && (pairs != [] && cands.Err? ==> r == Err(cands.error) && connections == base)
              && (pairs != [] && cands.Ok? ==>
                    r.Ok? && connections == AddNew(base, Viable(cands.value, old(fs.pipes))))
      ensures forall c :: c in connections[|Purged(old(connections))|..] ==>
        WhetherPipeExists(c.info, fs.pipes) && CandidateRepr(c.info) !in Keys(Purged(old(connections)))
      ensures fs.dirs.Keys == old(fs.dirs).Keys
      ensures forall n :: n in fs.dirs ==> fs.dirs[n].info == old(fs.dirs)[n].info
      ensures forall n :: n in fs.dirs ==>
        (fs.dirs[n].hasLock <==>
          n in DirsOf(connections[|Purged(old(connections))|..]) ||
          (old(fs.dirs)[n].hasLock && n !in DirsOf(BadOnes(old(connections)))))
    {
      var pairs := ScanForConnectionInfoFiles(fs, root, listing);
      PurgeBad();
      if |pairs| > 0 {
        var cands := Candidates(fs.dirs, pairs);
        CandidatesIgnoreLocks(fs.dirs, old(fs.dirs), pairs);
        if cands.Err? {
          return Err(cands.error);
        }
        var viable := Viable(cands.value, fs.pipes);
        forall c | c in viable ensures c.dir in fs.dirs {
          var i :| 0 <= i < |pairs| && cands.value[i] == c;
        }
        ghost var base := connections;
        AddViable(viable);
        AddNewProperties(base, viable);
        forall c | c in connections ensures !c.markedBad {
          var j :| 0 <= j < |connections| && connections[j] == c;
          if j < |base| {
            assert c == base[j] && c in base;
          }
        }
      }
      r := Ok(());
    }

    /** `_poll_connections`: a `ValueError` from `wait` abandons the step;
        otherwise each readable connection is received from once, a payload
        is printed, and end of stream or a reset marks the connection bad
        instead of raising. */
    method PollConnections(wait: WaitResult) returns (printed: seq<string>)
      requires Valid() && ReadyWithin(wait, |connections|)
      modifies this
      ensures Valid()
      ensures |connections| == |old(connections)|
      ensures forall i :: 0 <= i < |connections| ==> connections[i].info == old(connections)[i].info
      ensures forall i :: 0 <= i < |connections| ==>
        (connections[i].markedBad <==>
          old(connections)[i].markedBad || (wait.Readable? && i in FailedIndices(wait.ready)))
      ensures printed == if wait.Readable? then Payloads(wait.ready) else []
      ensures connections == Polled(old(connections), wait)
    {
      printed := [];
      if wait.WaitValueError? {
        return;
      }
      var conns;
      conns, printed := ReceiveReady(connections, wait.ready);
      SameInfosDistinct(connections, conns);
      connections := conns;
    }

    /** One turn of `__async_call__`: poll, then update. The update sees
        the connections as the poll left them: those that failed are purged
        in the same turn and their locks released, unless the scan re-adds
        their directory; every connection that was neither bad nor failed
        stays tracked. */
    method Cycle(wait: WaitResult, listing: seq<string>) returns (printed: seq<string>, r: Result<(), ClientError>)
      requires Valid() && ReadyWithin(wait, |connections|)
      modifies this, fs
      ensures Valid()
      ensures forall c :: c in connections ==> !c.markedBad
      ensures printed == if wait.Readable? then Payloads(wait.ready) else []
      ensures var polled := Polled(old(connections), wait);
              var pairs := Discovered(old(fs.dirs), root, listing);
              var base := Purged(polled);
              var cands := Candidates(old(fs.dirs), pairs);
              && |base| <= |connections| && connections[..|base|] == base
              && (pairs == [] ==> r.Ok? && connections == base)
              && (pairs != [] && cands.Err? ==> r == Err(cands.error) && connections == base)
              && (pairs != [] && cands.Ok? ==>
                    r.Ok? && connections == AddNew(base, Viable(cands.value, old(fs.pipes))))
      ensures fs.pipes == old(fs.pipes) && fs.dirs.Keys == old(fs.dirs).Keys
      ensures forall n :: n in fs.dirs ==> fs.dirs[n].info == old(fs.dirs)[n].info
      ensures var polled := Polled(old(connections), wait);
              forall n :: n in fs.dirs ==>
                (fs.dirs[n].hasLock <==>
                  n in DirsOf(connections[|Purged(polled)|..]) ||
                  (old(fs.dirs)[n].hasLock && n !in DirsOf(BadOnes(polled))))
      ensures forall i ::
        (0 <= i < |old(connections)| && wait.Readable? && i in FailedIndices(wait.ready) &&
         old(connections)[i].info.dir in fs.dirs &&
         old(connections)[i].info.dir !in DirsOf(connections[|Purged(Polled(old(connections), wait))|..]))
        ==> !fs.dirs[old(connections)[i].info.dir].hasLock
      ensures forall i ::
        (0 <= i < |old(connections)| && !old(connections)[i].markedBad &&
         !(wait.Readable? && i in FailedIndices(wait.ready)))
        ==> Conn(old(connections)[i].info, false) in connections
    {
      printed := PollConnections(wait);
      ghost var polled := connections;
      r := UpdateConnections(listing);
      forall i | 0 <= i < |old(connections)| && wait.Readable? && i in FailedIndices(wait.ready)
        ensures old(connections)[i].info.dir in DirsOf(BadOnes(polled))
      {
        assert polled[i] in BadOnes(polled);
      }
      forall i | 0 <= i < |old(connections)| && !old(connections)[i].markedBad &&
        !(wait.Readable? && i in FailedIndices(wait.ready))
        ensures Conn(old(connections)[i].info, false) in connections
      {
        assert polled[i] == Conn(old(connections)[i].info, false);
        assert polled[i] in Purged(polled);
        var k :| 0 <= k < |Purged(polled)| && Purged(polled)[k] == polled[i];
        assert connections[k] == polled[i];
      }
    }

    /** `__del__`: release the lock of every tracked connection. */
    method Teardown()
      modifies fs
      ensures fs.pipes == old(fs.pipes) && fs.dirs.Keys == old(fs.dirs).Keys
      ensures forall n :: n in fs.dirs ==> fs.dirs[n].info == old(fs.dirs)[n].info
      ensures forall n :: n in fs.dirs ==>
        fs.dirs[n].hasLock == (old(fs.dirs)[n].hasLock && n !in DirsOf(connections))
    {
      ReleaseLocks(connections);
    }
  }
}
