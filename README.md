# filterms: provider filter and rendezvous IPC, modelled in Dafny

This project models the core of `gc__filterms`. The core has three parts.

- **The provider filter** (`__init__.py`), a Golem market strategy with three pieces:
  - a parser turns the `GNPROVIDER_BL`, `GNPROVIDER` and `GNFEATURES` settings into lists.
  - `score_offer` sorts every offered provider into three sets: seen, blacklisted and whitelisted. It matches each candidate fuzzily, against either the node name or a prefix of the provider id.
  - `_is_allowed` decides later whether a provider id is accepted.
- **The publisher** (`krunch3rIPC/ipc_server.py`):
  - creates `{tmp}/_{exename}/{pid}/`;
  - binds a local endpoint and writes `connection_info.json`, which names the endpoint;
  - relays its owner's messages, wrapped in an envelope, to one consumer at a time;
  - releases the consumer's `lockfile` when the pipe breaks;
  - cleans up on teardown.
- **The aggregator** (`krunch3rIPC/ipc_client.py`):
  - scans the rendezvous root for subdirectories that have a descriptor and no lock;
  - claims each one with an exclusive-create lock file and connects;
  - polls all connections without blocking and prints what arrives;
  - marks failed connections bad and purges them on the next update, releasing their locks.

Modules:
- `Wrappers`: `Option` and `Result`.
- `Text`: `str.split` and its inverse, and `str(pid)` / `int(name)`.
- `Filter`: `__init__.py`.
- `Rendezvous`: the shared filesystem. It holds the publisher subdirectories, each with a descriptor and lock state, and the set of endpoint paths that exist. The operations the source performs on it are methods of a `FileSystem` class.
- `IpcClient` and `IpcServer`: the two IPC files. Their objects are classes whose methods update fields in place.
- `Lifecycle`: lemmas about how the publisher's footprint and the aggregator's scan interact.

The model follows the code as written:
- **The update scans before it purges.** The scan runs first, then bad connections are purged and their locks released.
- **A lost lock race still connects.** When the lock already exists, the failure is only logged and the connection is made anyway.
- **Lines 239 and 241 of `ipc_client.py` remove nothing.** Line 239 subtracts a set of infos from a set of connections, which are never equal. Line 241 repeats the purge.
- **The envelope test never fires.** The test for an existing `"signal"` key looks at the fresh, empty dictionary. Every message, dictionaries included, is therefore nested under `"signal"`.
- **Every rejection raises.** In `_is_allowed`, the reject path names the undefined variable `providerId`, so a rejection raises `NameError` instead of returning `False`.
- **An unknown id raises.** An id that was never offered raises `IndexError` at `matched[0]`.
- **The blacklist test counts exactly one.** A provider is blacklisted only when exactly one blacklisted entry carries its id.
- **Passing a logger breaks the publisher.** With a logger, `self._logger` is never assigned, so construction raises right after the directory is made.

## Model

| member | source | states |
|---|---|---|
| Text.Split | __init__.py:155 | `str.split` with one separator gives at least one piece, no piece contains the separator, and no piece is longer than the input |
| Text.JoinSplit | __init__.py:155 | joining the pieces of a split with the separator gives back the original string, so split loses nothing (empty pieces and spaces included) |
| Text.SplitJoin | __init__.py:155 | splitting a join of separator-free pieces gives back exactly those pieces: split and join are inverse |
| Text.NatToString | krunch3rIPC/ipc_server.py:57 | `str(n)` of a non-negative pid is a non-empty string of decimal digits, with no leading zero when n is positive |
| Text.ParseIntToString | krunch3rIPC/ipc_client.py:93 | `int(str(i)) == i` for every integer: a directory named after a pid is read back as that pid |
| Filter.ConvertStringArrayToList | __init__.py:114-157 | the flag cascade of the parser returns exactly `ListFromArg`: empty on `None`, a non-string, "" or a malformed bracket; `[s]` for an unbracketed string; the comma split of the inside of `[...]` |
| Filter.ParserEmptyCases | __init__.py:129-138 | `None`, a non-string and the empty string all give the empty list |
| Filter.ParserSingleton | __init__.py:139-142 | a non-empty string not starting with `[` gives the one-element list holding it |
| Filter.ParserMalformed | __init__.py:144-152 | a string starting with `[` that is shorter than three characters or lacks the closing `]` gives the empty list |
| Filter.ParserRoundTrip | __init__.py:148-155 | a bracketed string gives at least one comma-free item, and the items joined with commas are exactly the text between the brackets |
| Filter.ParserEmptyPieces | __init__.py:144-155 | `"[a,]"` lists `a` and an empty name; `"[]"` lists nothing |
| Filter.AllPresent | __init__.py:78 | true iff every required feature is among the capabilities |
| Filter.CheckCpuCapabilities | __init__.py:73-78 | an empty feature list always passes; otherwise true iff every feature is offered |
| Filter.FuzzyMatches | __init__.py:89-99 | a candidate matches iff it is the name or a prefix of the id, but not both (exclusive or) |
| Filter.FuzzyBothIsNoMatch | __init__.py:94-99 | a candidate equal to the name that is also a prefix of the id does not match |
| Filter.FuzzyEmptyCandidate | __init__.py:94-99 | the empty candidate matches exactly the providers with a non-empty name |
| Filter.AnyMatches | __init__.py:322-327 | true iff some candidate of the list fuzzily matches |
| Filter.Add | __init__.py:83-87 | `set.add` with equality by repr: the keys gain `repr(p)`, an element already present under that repr is kept unchanged, otherwise `p` itself is stored, and keying by repr is preserved |
| Filter.AddKeepsAllMatch | __init__.py:329-336 | adding a matching provider keeps every member of the set matching the list |
| Filter.SingletonIff | __init__.py:252 | `len(matching) == 1` iff some member is the only one |
| Filter.DecisionIff | __init__.py:246-297 | allowed iff not exactly one blacklisted entry has the id, some whitelisted entry has the id when whitelisting is on, and every feature is offered |
| Filter.TwoBlacklistEntriesAllow | __init__.py:246-252 | a provider blacklisted under two names with the same id is not rejected by the blacklist |
| Filter.ClassifySorts | __init__.py:321-336 | an offer is always recorded as seen; it is blacklisted exactly when a blacklist candidate matches, whitelisted only when none does and a whitelist candidate matches, and never both |
| Filter.ClassifyKeepsValid | __init__.py:321-336 | classifying an offer keeps the sets keyed by repr, blacklisted and whitelisted within seen, and every member matching its list |
| Filter.FeaturesArgVersusSetting | __init__.py:186-189 | a plain word gives the same one-feature list whether passed as the argument or read from GNFEATURES; a bracketed list passed as the argument stays one feature, while from GNFEATURES it is split into items none of which is the whole text |
| Filter.FilterProvider.constructor | __init__.py:175-212 | the lists are the parsed settings, features are normalised, and all sets start empty (and valid) |
| Filter.FilterProvider.ScoreOffer | __init__.py:306-341 | a missing name changes nothing; otherwise the sets become `Classify` of the old sets and the offer, the lists are unchanged and validity is kept |
| Filter.FilterProvider.IsAllowed | __init__.py:216-302 | an id never seen raises (`IndexError`); otherwise some seen entry with that id decides it: allowed gives `Ok(true)`, and rejected raises because the reject path names an undefined variable |
| Rendezvous.DescriptorRoundTrip | krunch3rIPC/ipc_server.py:70-72 | the descriptor a publisher writes holds only "server file" and parses back to its address |
| Rendezvous.FileSystem.CreateLock | krunch3rIPC/ipc_client.py:97-106 | exclusive create: it fails with AlreadyExists iff the lock exists, and with NoDirectory iff the directory is gone (then nothing changes); otherwise the lock is created; descriptors and endpoints are unchanged |
| Rendezvous.FileSystem.UnlinkLock | krunch3rIPC/ipc_client.py:219-223 | best-effort unlink: `found` iff a lock existed; afterwards there is none and nothing else changed |
| Rendezvous.FileSystem.MakeDir | krunch3rIPC/ipc_server.py:62 | `mkdir(exist_ok=True)`: an existing directory is kept with its contents; a new one is empty |
| Rendezvous.FileSystem.WriteInfo | krunch3rIPC/ipc_server.py:71-72 | the descriptor of the directory is overwritten; nothing else changes |
| Rendezvous.FileSystem.UnlinkInfo | krunch3rIPC/ipc_server.py:122 | the descriptor is removed when it exists; `found` is false (Python raises) otherwise, and then nothing changes |
| Rendezvous.FileSystem.RemoveDir | krunch3rIPC/ipc_server.py:128 | `rmdir` succeeds iff the directory exists and is empty, and then it is gone |
| Rendezvous.FileSystem.Bind | krunch3rIPC/ipc_server.py:67 | binding succeeds iff the endpoint path is free; afterwards the path exists |
| Rendezvous.FileSystem.Unbind | krunch3rIPC/ipc_server.py:123 | closing the listener removes its endpoint path and nothing else |
| IpcClient.DiscoveredMembership | krunch3rIPC/ipc_client.py:45-87 | the scan reports a pair iff its name was listed, the directory has a descriptor and no lock, and the path is that directory's descriptor |
| IpcClient.DiscoveredAppend | krunch3rIPC/ipc_client.py:59-65 | a scan whose iteration stops early returns a prefix of the full result; the scan of a longer listing extends the scan of its prefix |
| IpcClient.ScanForConnectionInfoFiles | krunch3rIPC/ipc_client.py:45-87 | the loop returns exactly the claimable pairs of the listing, in iteration order |
| IpcClient.Candidates | krunch3rIPC/ipc_client.py:227-230 | the infos are built iff every directory name parses as an integer; each carries its pid and parsed endpoint; otherwise the error names an offending directory |
| IpcClient.CandidatesIgnoreLocks | krunch3rIPC/ipc_client.py:123-138 | building infos reads only descriptors: lock changes do not affect them |
| IpcClient.Viable | krunch3rIPC/ipc_client.py:233-237 | exactly the infos whose endpoint exists are kept |
| IpcClient.Purged | krunch3rIPC/ipc_client.py:216-217 | exactly the connections not marked bad are kept, and the set never grows |
| IpcClient.BadOnes | krunch3rIPC/ipc_client.py:216 | exactly the connections marked bad are collected |
| IpcClient.PurgedDistinct | krunch3rIPC/ipc_client.py:216-217 | the purge keeps tracked reprs distinct |
| IpcClient.AddNew | krunch3rIPC/ipc_client.py:243-248 | the add loop keeps every tracked connection in place and only appends |
| IpcClient.AddNewProperties | krunch3rIPC/ipc_client.py:243-248 | after the add loop reprs are still distinct, and every added connection is fresh (not bad), comes from the viable infos and has a repr not tracked before |
| IpcClient.AddNewCovers | krunch3rIPC/ipc_client.py:243-248 | after the add loop the repr of every viable info is tracked |
| IpcClient.Client.constructor | krunch3rIPC/ipc_client.py:191-205 | the root is `{tmp}/_{exename}` and no connection is tracked |
| IpcClient.Client.Lock | krunch3rIPC/ipc_client.py:97-106 | the lock attempt fails iff the directory was already locked; afterwards it is locked and nothing is raised |
| IpcClient.Client.Connect | krunch3rIPC/ipc_client.py:144-160 | the connection is made, not bad, whether or not the lock was won; the directory is locked afterwards |
| IpcClient.Client.ReleaseLocks | krunch3rIPC/ipc_client.py:218-223 | exactly the locks of the given connections are removed, best-effort; descriptors and endpoints are untouched |
| IpcClient.Client.PurgeBad | krunch3rIPC/ipc_client.py:216-223 | the bad connections are dropped and exactly their locks released; reprs stay distinct |
| IpcClient.Client.AddViable | krunch3rIPC/ipc_client.py:243-248 | the loop produces `AddNew` of the tracked set and the viable infos, and locks exactly the directories of the added connections |
| IpcClient.Client.AddOne | krunch3rIPC/ipc_client.py:244-248 | an info whose repr is tracked changes nothing; otherwise it is connected and appended and its directory locked |
| IpcClient.Client.UpdateConnections | krunch3rIPC/ipc_client.py:207-248 | scan, purge, then (when the scan found something) read descriptors, keep viable ones and add untracked ones; a non-integer name raises after the purge; no bad connection is left, survivors keep their place, added connections have live endpoints and new reprs, reprs stay distinct, and locks are exactly the old ones minus the purged plus the added |
| IpcClient.ReceiveReady | krunch3rIPC/ipc_client.py:266-277 | the receive loop prints the payloads in the order received, marks bad exactly the connections whose receive hit end of stream or a reset, and changes nothing else |
| IpcClient.Client.PollConnections | krunch3rIPC/ipc_client.py:253-277 | a `ValueError` from `wait` changes nothing; otherwise payloads are printed in order received, and the tracked sequence becomes `Polled`: the same connections in place, exactly those that hit end of stream or reset newly marked bad |
| IpcClient.Client.Cycle | krunch3rIPC/ipc_client.py:279-286 | poll then update on the polled connections: `r` and the tracked set are those of the update applied to `Polled`; endpoints and descriptors are unchanged; locks are the old ones minus those of the purged connections plus those of the added ones, so a connection that failed in this poll has its lock released in the same turn unless its directory is re-added; no bad connection survives, and every connection that was fine and did not fail stays tracked |
| IpcClient.Client.Teardown | krunch3rIPC/ipc_client.py:300-306 | the lock of every tracked connection is released and nothing else changes |
| IpcServer.DirNameRoundTrip | krunch3rIPC/ipc_server.py:57 | the publisher's directory name is read back as its pid by the aggregator |
| IpcServer.BuildEnvelope | krunch3rIPC/ipc_server.py:91-97 | the envelope has exactly the keys "signal", "pid", "exename", and "signal" holds the message as given (a dictionary is nested, not merged) |
| IpcServer.Server.Init | krunch3rIPC/ipc_server.py:49-60 | root, subdirectory and descriptor paths are `{tmp}/_{exename}/{pid}/connection_info.json`; no consumer is attached |
| IpcServer.Server.Create | krunch3rIPC/ipc_server.py:46-73 | the subdirectory is made first; a given logger then raises; a taken endpoint fails to bind and leaves the endpoints unchanged; otherwise the endpoint exists and the descriptor names it |
| IpcServer.Server.Accept | krunch3rIPC/ipc_server.py:84-86 | a consumer is attached |
| IpcServer.Server.Relay | krunch3rIPC/ipc_server.py:88-111 | each message goes out in its envelope; on a broken pipe the message is lost, the lock is removed and the server goes back to accepting |
| IpcServer.Server.Teardown | krunch3rIPC/ipc_server.py:113-128 | with the descriptor present, the subdirectory and the endpoint are gone afterwards and nothing else changed; with it missing, it raises before changing anything |
| Lifecycle.PublishedIsDiscovered | krunch3rIPC/ipc_server.py:62-72 | a freshly published, unlocked subdirectory is found by the scan and becomes a viable candidate carrying the publisher's pid and endpoint |
| Lifecycle.LockGatesDiscovery | krunch3rIPC/ipc_client.py:69-70 | a locked subdirectory is never reported, and is reported again once its lock is removed |
| Lifecycle.SecondClaimFails | krunch3rIPC/ipc_client.py:100-106 | after one claim the directory is locked and no longer claimable |
| Lifecycle.TornDownIsNotDiscovered | krunch3rIPC/ipc_server.py:122-128 | after a publisher's teardown no scan reports its subdirectory |

## Left out

- The transport (`Listener`, `Client`, `send`, `recv`, `multiprocessing.connection.wait`) is abstract. `wait` is given as a value saying which connections are readable and what each `recv` yields, and a send is given as a flag saying whether it was delivered.
- The endpoint address is chosen by the Python runtime, so it is passed in.
- The asyncio loop, `sleep` and the endless `while True` loops are left out. One turn of each loop is modelled (`Cycle`, `Relay`, `Accept`).
- The directory iteration order is outside the model: the scan takes the listing as given. A listing cut short stands for the `FileNotFoundError` that ends the iteration.
- JSON encoding and decoding are abstracted: a descriptor is absent, garbled or a map of string fields, and an envelope is a map of values.
- Logging, the environment (`os.environ`, `gettempdir`, `os.getpid`) and `print` are modelled as parameters or return values. The printed payloads are returned as a sequence.
- The yapapi strategy machinery is left out: `super().score_offer`, the base strategy, `_initialize_default_strategy` and the offer object. `ScoreOffer` takes the name, the issuer and the capabilities directly. A missing name stands for the caught `KeyError`.
- The `__main__` block of `ipc_client.py` and `_generate_local_logger` are left out.
- `Text.ParseInt` omits what Python's `int()` also accepts: surrounding whitespace, underscores between digits and non-ASCII decimal digits. Directory names written by the publisher never contain them.
- One `FileSystem` stands for one rendezvous root `{tmp}/_{exename}`. Nothing stops a client and a server with different `exename`s from sharing one, although in the source they would look in different directories. The lemmas in `Lifecycle` use one root throughout.
- Paths are plain strings joined with "/", without normalisation. Windows named pipes (`AF_PIPE`) are left out.
- A failure of `Client(...)` inside `_MyClientConnection` is caught and logged in the source, leaving the connection without a handle. The model does not represent handles and tracks such a connection like any other. In the source, every later `wait` on the tracked set then fails, because `fileno()` on that connection raises and `wait` reports it as a `ValueError`. `_poll_connections` swallows that error, so the connection is never marked bad and every later poll is abandoned. The model takes `wait`'s result as an input, so it does not capture this.
- Python sets are modelled as maps keyed by repr, or as sequences in iteration order. A hash collision between different reprs is not modelled.
- Filter.FilterProvider.IsAllowed: the source takes `matched[0]` from a set, so which seen entry with the id decides is arbitrary. The contract says some entry decides. It does not say which.
- IpcClient.Client.UpdateConnections: the infos are iterated in scan order. The source iterates a set, so its add order is arbitrary.
- IpcClient.Client.Lock: requires the directory to exist. The source's `open(..., "x")` would raise `FileNotFoundError` for a directory that vanished, and that race is not modelled.
- IpcClient.Client.Connect: requires the directory to exist, for the same reason as `Lock`.
- IpcServer.Server.Create: the `Listener` constructor's other failures are not distinguished from a taken address.
- IpcServer.Server.Relay: `json.dumps` failing on a message that cannot be serialised is not modelled.
- Concurrency between processes is not modelled. The lemmas about claiming and discovery describe the shared filesystem state, not interleavings.
