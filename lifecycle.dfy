/** How the publisher's filesystem footprint and the aggregator's scan fit
    together: a freshly published subdirectory is discovered and resolves
    to the publisher's pid and endpoint; a locked one is skipped until the
    lock goes; a torn-down one is never reported. */
module Lifecycle {
  import opened Wrappers
  import Text
  import opened Rendezvous
  import opened IpcClient
  import opened IpcServer

  /** The subdirectory a publisher leaves after construction, with no
      consumer holding it, is reported by the scan and becomes a viable
      candidate carrying the publisher's pid and endpoint address. */
  lemma PublishedIsDiscovered(dirs: map<string, Entry>, pipes: set<string>, root: string,
                              pid: int, address: string)
    requires DirName(pid) in dirs && dirs[DirName(pid)] == Entry(Descriptor(address), false)
    requires address in pipes
    ensures var name := DirName(pid);
            var pairs := Discovered(dirs, root, [name]);
            && pairs == [(name, InfoPath(root, name))]
            && Candidates(dirs, pairs) == Ok([Candidate(pid, name, InfoPath(root, name), Some(address))])
            && Viable(Candidates(dirs, pairs).value, pipes) == Candidates(dirs, pairs).value
  {
    var name := DirName(pid);
    assert Claimable(dirs, name);
    assert [name][..0] == [] && [name][0] == name;
    assert Discovered(dirs, root, [name]) == Discovered(dirs, root, []) + [(name, InfoPath(root, name))];
    DirNameRoundTrip(pid);
    DescriptorRoundTrip(address);
    var pairs := Discovered(dirs, root, [name]);
    assert pairs[1..] == [];
    assert Candidates(dirs, pairs[1..]) == Ok([]);
    assert pairs[0] == (name, InfoPath(root, name));
    assert Text.ParseInt(pairs[0].0) == Some(pid);
    assert Candidates(dirs, pairs) == Ok([MakeCandidate(dirs, pairs[0], pid)] + []);
    assert [MakeCandidate(dirs, pairs[0], pid)] + [] == [Candidate(pid, name, InfoPath(root, name), Some(address))];
    assert MakeCandidate(dirs, pairs[0], pid) == Candidate(pid, name, InfoPath(root, name), Some(address));
  }

  /** A subdirectory holding a lock file is never reported; once the lock
      is removed, a listed subdirectory with a descriptor is reported. */
  lemma LockGatesDiscovery(dirs: map<string, Entry>, root: string, names: seq<string>, name: string)
    requires name in dirs && !dirs[name].info.Absent?
    ensures dirs[name].hasLock ==>
      forall p :: p in Discovered(dirs, root, names) ==> p.0 != name
    ensures name in names ==>
      (name, InfoPath(root, name)) in Discovered(WithLock(dirs, name, false), root, names)
  {
    forall p | p in Discovered(dirs, root, names) ensures dirs[name].hasLock ==> p.0 != name {
      DiscoveredMembership(dirs, root, names, p);
    }
    DiscoveredMembership(WithLock(dirs, name, false), root, names, (name, InfoPath(root, name)));
  }

  /** Two claims on the same subdirectory: the second finds the lock. */
  lemma SecondClaimFails(dirs: map<string, Entry>, name: string)
    requires name in dirs && !dirs[name].hasLock
    ensures var after := WithLock(dirs, name, true);
            name in after && after[name].hasLock && !Claimable(after, name)
  {
  }

  /** After a publisher's teardown removed its subdirectory, no scan
      reports it, whatever the iteration yields. */
  lemma TornDownIsNotDiscovered(dirs: map<string, Entry>, root: string, names: seq<string>, pid: int)
    requires DirName(pid) !in dirs
    ensures forall p :: p in Discovered(dirs, root, names) ==> p.0 != DirName(pid)
  {
    forall p | p in Discovered(dirs, root, names) ensures p.0 != DirName(pid) {
      DiscoveredMembership(dirs, root, names, p);
    }
  }
}
