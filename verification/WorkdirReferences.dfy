/**
 The references streams take on local files. A stream tells the cleanup by messages, which arrive later, one stream's
 in the order they were sent; a cleanup may run between any two of them.
 */
module WorkdirReferences {
  import opened Common
  import opened FileStreamSpec
  import opened FileStreamSafety
  import opened WorkdirCleanup
  import FileStreamResponse

  // ---------- The counters ----------

  function Retained(active: map<Path, int>, workdir: string, path: Path): map<Path, int> {
    if IsCandidate(workdir, path) then active[path := (if path in active then active[path] else 0) + 1] else active
  }

  function Released(active: map<Path, int>, path: Path): map<Path, int> {
    if path !in active then active
    else if active[path] - 1 <= 0 then active - {path}
    else active[path := active[path] - 1]
  }

  function Applied(active: map<Path, int>, workdir: string, r: Reference): map<Path, int> {
    if r.Retain? then Retained(active, workdir, r.path) else Released(active, r.path)
  }

  // ---------- The protocol ----------

  /** What a stream has sent, and how much of it the cleanup has seen. */
  datatype Channel = Channel(sent: seq<Reference>, delivered: nat)

  datatype System = System(workdir: string, streams: seq<Channel>, active: map<Path, int>)

  datatype Event =
    | NewStream
    | Send(stream: nat, r: Reference)
    | Deliver(stream: nat)
    | Cleanup(cfg: CleanupConfig, found: seq<File>, now: nat, deletes: (Path, nat) -> bool)

  /** A stream sends only what its own state machine lets it send. */
  predicate Possible(s: System, e: Event) {
    match e
    case NewStream => true
    case Send(i, r) => i < |s.streams| && LegalRefs(s.streams[i].sent + [r])
    case Deliver(i) => i < |s.streams| && s.streams[i].delivered < |s.streams[i].sent|
    case Cleanup(cfg, _, _, _) => cfg.workdir == s.workdir
  }

  function Next(s: System, e: Event): System
    requires Possible(s, e)
  {
    match e
    case NewStream => s.(streams := s.streams + [Channel([], 0)])
    case Send(i, r) => s.(streams := s.streams[i := s.streams[i].(sent := s.streams[i].sent + [r])])
    case Deliver(i) =>
      var c := s.streams[i];
      s.(streams := s.streams[i := c.(delivered := c.delivered + 1)],
         active := Applied(s.active, s.workdir, c.sent[c.delivered]))
    case Cleanup(_, _, _, _) => s
  }

  // ---------- The invariant ----------

  /** The part of the messages that has been delivered. */
  function Seen(c: Channel): seq<Reference> {
    if c.delivered <= |c.sent| then c.sent[..c.delivered] else c.sent
  }

  function One(b: bool): nat {
    if b then 1 else 0
  }

  /** How many streams hold `path`, as far as the cleanup knows. */
  function KnownHolders(streams: seq<Channel>, path: Path): nat {
    if streams == [] then 0 else
    var n := |streams| - 1;
    KnownHolders(streams[..n], path) + One(Held(Seen(streams[n])) == Some(path))
  }

  predicate ChannelOk(c: Channel) {
    c.delivered <= |c.sent| && LegalRefs(c.sent)
  }

  /** The counter of every candidate is the number of its known holders, and no counter is kept at 0. */
  ghost predicate Counted(s: System) {
    && (forall i | 0 <= i < |s.streams| :: ChannelOk(s.streams[i]))
    && (forall p :: p in s.active <==> IsCandidate(s.workdir, p) && KnownHolders(s.streams, p) > 0)
    && (forall p | p in s.active :: s.active[p] == KnownHolders(s.streams, p))
  }

  lemma {:induction false} HoldersUpdate(streams: seq<Channel>, i: nat, c: Channel, path: Path)
    requires i < |streams|
    ensures KnownHolders(streams[i := c], path)
            == KnownHolders(streams, path)
               - One(Held(Seen(streams[i])) == Some(path)) + One(Held(Seen(c)) == Some(path))
    ensures KnownHolders(streams, path) >= One(Held(Seen(streams[i])) == Some(path))
  {
    hide Held, Seen;
    var n := |streams| - 1;
    if i == n {
      assert streams[i := c][..n] == streams[..n];
    } else {
      HoldersUpdate(streams[..n], i, c, path);
      assert streams[i := c][..n] == streams[..n][i := c];
    }
  }

  lemma {:induction false} LegalPrefix(refs: seq<Reference>, k: nat)
    requires LegalRefs(refs) && k <= |refs|
    ensures LegalRefs(refs[..k])
  {
    if k == |refs| {
      assert refs[..k] == refs;
    } else {
      LegalPrefix(refs[..|refs| - 1], k);
      assert refs[..|refs| - 1][..k] == refs[..k];
    }
  }

  /** What a stream holds before and after a message of its own. */
  predicate Turns(r: Reference, before: Option<Path>, after: Option<Path>) {
    if r.Retain? then before == None && after == Some(r.path) else before == Some(r.path) && after == None
  }

  /** The counter of a path follows the number of its known holders. */
  lemma AppliedCounts(active: map<Path, int>, workdir: string, r: Reference, before: Option<Path>,
                      after: Option<Path>, path: Path, known: nat)
    requires Turns(r, before, after) && known >= One(before == Some(path))
    requires path in active <==> IsCandidate(workdir, path) && known > 0
    requires path in active ==> active[path] == known
    ensures var active', known' := Applied(active, workdir, r),
                                   known - One(before == Some(path)) + One(after == Some(path));
            && (path in active' <==> IsCandidate(workdir, path) && known' > 0)
            && (path in active' ==> active'[path] == known')
  {
    hide IsCandidate;
  }

  /** One message arrives: what is known of the stream changes by exactly that message. */
  lemma DeliverOne(c: Channel)
    requires ChannelOk(c) && c.delivered < |c.sent|
    ensures Turns(c.sent[c.delivered], Held(Seen(c)), Held(Seen(c.(delivered := c.delivered + 1))))
  {
    var r := c.sent[c.delivered];
    assert c.sent[..c.delivered + 1] == c.sent[..c.delivered] + [r];
    LegalPrefix(c.sent, c.delivered + 1);
    Referred(c.sent[..c.delivered], r);
  }

  lemma DeliverKeeps(s: System, i: nat)
    requires Counted(s) && Possible(s, Deliver(i))
    ensures Counted(Next(s, Deliver(i)))
  {
    var c := s.streams[i];
    var c' := c.(delivered := c.delivered + 1);
    var s' := Next(s, Deliver(i));
    DeliverOne(c);
    hide LegalRefs, Held, IsCandidate, Seen, KnownHolders, Applied, Turns;
    forall p
      ensures p in s'.active <==> IsCandidate(s.workdir, p) && KnownHolders(s'.streams, p) > 0
      ensures p in s'.active ==> s'.active[p] == KnownHolders(s'.streams, p)
    {
      HoldersUpdate(s.streams, i, c', p);
      AppliedCounts(s.active, s.workdir, c.sent[c.delivered], Held(Seen(c)), Held(Seen(c')), p,
                    KnownHolders(s.streams, p));
    }
  }

  lemma {:induction false} HoldersSame(streams: seq<Channel>, streams': seq<Channel>, path: Path)
    requires |streams| == |streams'|
    requires forall i | 0 <= i < |streams| :: Seen(streams[i]) == Seen(streams'[i])
    ensures KnownHolders(streams, path) == KnownHolders(streams', path)
  {
    if streams != [] {
      var n := |streams| - 1;
      assert Seen(streams[n]) == Seen(streams'[n]);
      HoldersSame(streams[..n], streams'[..n], path);
    }
  }

  lemma NextKeeps(s: System, e: Event)
    requires Counted(s) && Possible(s, e)
    ensures Counted(Next(s, e))
  {
    hide Counted;
    match e
    case NewStream => NewStreamKeeps(s);
    case Send(i, r) => SendKeeps(s, i, r);
    case Deliver(i) => DeliverKeeps(s, i);
    case Cleanup(_, _, _, _) =>
  }

  lemma NewStreamKeeps(s: System)
    requires Counted(s)
    ensures Counted(Next(s, NewStream))
  {
    hide LegalRefs, Held, IsCandidate;
    var s' := Next(s, NewStream);
    forall p
      ensures KnownHolders(s'.streams, p) == KnownHolders(s.streams, p)
    {
      assert s'.streams[..|s.streams|] == s.streams;
      NothingSeen();
    }
    NothingSeen();
  }

  lemma NothingSeen()
    ensures Held(Seen(Channel([], 0))) == None && ChannelOk(Channel([], 0))
  {
  }

  lemma SendKeeps(s: System, i: nat, r: Reference)
    requires Counted(s) && Possible(s, Send(i, r))
    ensures Counted(Next(s, Send(i, r)))
  {
    hide LegalRefs, Held, IsCandidate, KnownHolders;
    var s' := Next(s, Send(i, r));
    assert forall j | 0 <= j < |s.streams| :: ChannelOk(s.streams[j]);
    var c := s.streams[i];
    assert Seen(c.(sent := c.sent + [r])) == Seen(c);
    forall p
      ensures KnownHolders(s'.streams, p) == KnownHolders(s.streams, p)
    {
      HoldersSame(s.streams, s'.streams, p);
    }
  }

  // ---------- Runs ----------

  predicate PossibleRun(s: System, events: seq<Event>)
    decreases |events|
  {
    events == [] || (Possible(s, events[0]) && PossibleRun(Next(s, events[0]), events[1..]))
  }

  function Run(s: System, events: seq<Event>): System
    requires PossibleRun(s, events)
    decreases |events|
  {
    if events == [] then s else Run(Next(s, events[0]), events[1..])
  }

  lemma {:induction false} RunKeeps(s: System, events: seq<Event>)
    requires Counted(s) && PossibleRun(s, events)
    ensures Counted(Run(s, events))
    decreases |events|
  {
    if events != [] {
      NextKeeps(s, events[0]);
      hide Counted, Next;
      RunKeeps(Next(s, events[0]), events[1..]);
    }
  }

  lemma StartIsCounted(workdir: string)
    ensures Counted(System(workdir, [], map[]))
  {
  }

  lemma {:induction false} SomeHolder(streams: seq<Channel>, path: Path)
    ensures KnownHolders(streams, path) > 0 <==>
            exists i :: 0 <= i < |streams| && Held(Seen(streams[i])) == Some(path)
  {
    if streams != [] {
      var n := |streams| - 1;
      SomeHolder(streams[..n], path);
      assert forall i | 0 <= i < n :: streams[..n][i] == streams[i];
    }
  }

  /**
   In every state a run reaches, a candidate is protected from cleanup exactly when a stream holds it whose retain has
   been delivered and whose release has not.
   */
  lemma ProtectedWhileHeld(workdir: string, events: seq<Event>, path: Path)
    requires PossibleRun(System(workdir, [], map[]), events) && IsCandidate(workdir, path)
    ensures var s := Run(System(workdir, [], map[]), events);
            IsActive(s.active, path) <==>
            exists i :: 0 <= i < |s.streams| && Held(Seen(s.streams[i])) == Some(path)
  {
    StartIsCounted(workdir);
    RunKeeps(System(workdir, [], map[]), events);
    var s := Run(System(workdir, [], map[]), events);
    RunKeepsWorkdir(System(workdir, [], map[]), events);
    SomeHolder(s.streams, path);
  }

  lemma {:induction false} RunKeepsWorkdir(s: System, events: seq<Event>)
    requires PossibleRun(s, events)
    ensures Run(s, events).workdir == s.workdir
    decreases |events|
  {
    if events != [] {
      RunKeepsWorkdir(Next(s, events[0]), events[1..]);
    }
  }

  /** So no cleanup, whenever it runs, deletes a file that a stream is known to hold. */
  lemma CleanupSparesHeldFiles(
    workdir: string, events: seq<Event>, cfg: CleanupConfig, now: nat, deletes: (Path, nat) -> bool,
    found: seq<File>, candidates: seq<File>, r: CleanupResult, stream: nat, k: nat)
    requires PossibleRun(System(workdir, [], map[]), events) && cfg.workdir == workdir
    requires var s := Run(System(workdir, [], map[]), events);
             && Cleaned(cfg, s.active, now, deletes, Scanned(workdir, found), candidates, r.deletedFiles, r)
             && stream < |s.streams| && k < r.deletedFiles
    ensures Held(Seen(Run(System(workdir, [], map[]), events).streams[stream])) != Some(candidates[k].path)
  {
    var s := Run(System(workdir, [], map[]), events);
    assert candidates[k] in multiset(candidates);
    ProtectedWhileHeld(workdir, events, candidates[k].path);
  }

  // ---------- The counter in terms of what was sent ----------

  /** Retains of `path` less releases of it. */
  function Net(refs: seq<Reference>, path: Path): int {
    if refs == [] then 0 else
    var l := refs[|refs| - 1];
    Net(refs[..|refs| - 1], path) + if l.path != path then 0 else if l.Retain? then 1 else -1
  }

  lemma {:induction false} NetIsHeld(refs: seq<Reference>, path: Path)
    requires LegalRefs(refs)
    ensures Net(refs, path) == One(Held(refs) == Some(path))
  {
    if refs != [] {
      NetIsHeld(refs[..|refs| - 1], path);
    }
  }

  lemma {:induction false} NetSplits(refs: seq<Reference>, k: nat, path: Path)
    requires k <= |refs|
    ensures Net(refs, path) == Net(refs[..k], path) + Net(refs[k..], path)
  {
    if k == |refs| {
      assert refs[..k] == refs;
    } else {
      var n := |refs| - 1;
      NetSplits(refs[..n], k, path);
      assert refs[..n][..k] == refs[..k] && refs[k..][..n - k] == refs[..n][k..];
    }
  }

  /** How many streams hold `path`, by what they have sent, and what is on its way about it. */
  function Holders(streams: seq<Channel>, path: Path): nat {
    if streams == [] then 0 else
    var n := |streams| - 1;
    Holders(streams[..n], path) + One(Held(streams[n].sent) == Some(path))
  }

  function Undelivered(streams: seq<Channel>, path: Path): int {
    if streams == [] then 0 else
    var n := |streams| - 1;
    var c := streams[n];
    Undelivered(streams[..n], path) + if c.delivered <= |c.sent| then Net(c.sent[c.delivered..], path) else 0
  }

  /** The counter is the number of streams that hold the path, less undelivered retains, plus undelivered releases. */
  lemma {:induction false} CounterAndMessages(streams: seq<Channel>, path: Path)
    requires forall i | 0 <= i < |streams| :: ChannelOk(streams[i])
    ensures KnownHolders(streams, path) == Holders(streams, path) - Undelivered(streams, path)
  {
    if streams != [] {
      var n := |streams| - 1;
      var c := streams[n];
      assert ChannelOk(c);
      CounterAndMessages(streams[..n], path);
      NetIsHeld(c.sent, path);
      LegalPrefix(c.sent, c.delivered);
      NetIsHeld(c.sent[..c.delivered], path);
      NetSplits(c.sent, c.delivered, path);
    }
  }

  // ---------- A retain that is still on its way ----------

  /** Until its retain is delivered, a file that a stream already reads may be deleted. */
  lemma UndeliveredRetainDoesNotProtect(now: nat)
    ensures var events := [NewStream, Send(0, Retain("/w/f"))];
            var s := System("/w", [], map[]);
            && PossibleRun(s, events)
            && Held(Run(s, events).streams[0].sent) == Some("/w/f")
            && !IsActive(Run(s, events).active, "/w/f")
            && Unused([File("/w/f", 1, 0)], Run(s, events).active) == [File("/w/f", 1, 0)]
  {
    var s := System("/w", [], map[]);
    var s1 := Next(s, NewStream);
    assert s1.streams == [Channel([], 0)];
    Referred([], Retain("/w/f"));
    assert [] + [Retain("/w/f")] == [Retain("/w/f")];
    var s2 := Next(s1, Send(0, Retain("/w/f")));
    assert [NewStream, Send(0, Retain("/w/f"))][1..] == [Send(0, Retain("/w/f"))];
    assert [Send(0, Retain("/w/f"))][1..] == [];
    assert PossibleRun(s2, []) && Run(s2, []) == s2;
    assert [File("/w/f", 1, 0)][..0] == [];
  }

  /** What a file streaming connection sends is what the protocol asks of a stream. */
  lemma StreamsSendLegally(s: Stream, cfg: Config, inputs: seq<Input>)
    requires FileStreamResponse.Reached(s, cfg, inputs)
    ensures LegalRefs(s.refs)
    ensures !s.tornDown && s.path != "" && s.cfg.hasCleanup ==> Held(s.refs) == Some(s.path)
    ensures s.tornDown ==> Held(s.refs) == None
  {
    FileStreamResponse.HoldsItsPath(s, cfg, inputs);
  }

  // ---------- The manager ----------

  class WorkdirCleanupManager {
    const cfg: CleanupConfig
    var activeFiles: map<Path, int>
    var bytes: int
    var deletedBytes: int
    var runs: nat
    var shutdownRequested: bool

    constructor (cfg: CleanupConfig)
      ensures this.cfg == cfg && activeFiles == map[] && !shutdownRequested && runs == 0 && deletedBytes == 0
    {
      this.cfg, activeFiles, bytes, deletedBytes, runs, shutdownRequested := cfg, map[], 0, 0, 0, false;
    }

    method RetainFile(path: Path)
      modifies this`activeFiles
      ensures activeFiles == Retained(old(activeFiles), cfg.workdir, path)
    {
      if IsCandidate(cfg.workdir, path) {
        if path !in activeFiles {
          activeFiles := activeFiles[path := 0];
        }
        activeFiles := activeFiles[path := activeFiles[path] + 1];
      }
    }

    method ReleaseFile(path: Path)
      modifies this`activeFiles
      ensures activeFiles == Released(old(activeFiles), path)
    {
      if path !in activeFiles {
        return;
      }
      activeFiles := activeFiles[path := activeFiles[path] - 1];
      if activeFiles[path] <= 0 {
        activeFiles := activeFiles - {path};
      }
    }

    method RunCleanup(found: seq<File>, now: nat, free: int, deletes: (Path, nat) -> bool)
      returns (r: CleanupResult, ghost candidates: seq<File>)
      modifies this`bytes, this`deletedBytes, this`runs, this`shutdownRequested
      ensures Cleaned(cfg, activeFiles, now, deletes, Scanned(cfg.workdir, found), candidates, r.deletedFiles, r)
      ensures bytes == r.scannedBytes && deletedBytes == old(deletedBytes) + r.deletedBytes && runs == old(runs) + 1
      ensures shutdownRequested <==> old(shutdownRequested) || 0 <= free < cfg.minFree
    {
      hide Cleaned, Scanned;
      r, candidates := RunWorkdirCleanup(cfg, found, activeFiles, now, free, deletes);
      bytes := r.scannedBytes;
      runs := runs + 1;
      deletedBytes := deletedBytes + r.deletedBytes;
      if r.emergency {
        shutdownRequested := true;
      }
    }
  }
}
