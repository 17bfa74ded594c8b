/** What the invariant of the file streaming connection means for whoever reads the response. */
module FileStreamResponse {
  import opened Common
  import opened FileStreamSpec
  import opened FileStreamSafety

  // ---------- The form of a response ----------

  /** The response of a stream in any state a run reaches. */
  ghost predicate Reached(s: Stream, cfg: Config, inputs: seq<Input>) {
    AdmissibleRun(Init(cfg), inputs) && s == Run(Init(cfg), inputs)
  }

  lemma ReachedHolds(s: Stream, cfg: Config, inputs: seq<Input>)
    requires Reached(s, cfg, inputs)
    ensures Inv(s)
  {
    hide Inv, Run, AdmissibleRun;
    StartHolds(cfg);
    RunKeeps(Init(cfg), inputs);
  }

  /** After the headers and before the end there are only chunks. */
  lemma OutputAt(s: Stream, i: nat)
    requires Inv(s) && s.headersSent && i < |s.out|
    ensures if i == 0 then s.out[i] == Headers(s.cursor.total)
            else if s.finished && i == |s.out| - 1 then s.out[i] == if s.completedOk then Ok else Error
            else s.out[i].Chunk?
  {
    hide RefsOk, Tiles, Body;
    var middle := s.out[1..if s.finished then |s.out| - 1 else |s.out|];
    if 0 < i <= |middle| {
      assert s.out[i] == middle[i - 1];
    }
  }

  /** A response is ended at most once, by its last output, and exactly when the stream has finished. */
  lemma EndsOnce(s: Stream, cfg: Config, inputs: seq<Input>, i: nat)
    requires Reached(s, cfg, inputs) && i < |s.out|
    ensures Ends(s.out[i]) <==> s.finished && i == |s.out| - 1
  {
    ReachedHolds(s, cfg, inputs);
    hide Run, AdmissibleRun, RefsOk, Tiles, Body;
    if s.headersSent {
      OutputAt(s, i);
    }
  }

  /** The 200 headers come first, once, and announce the size of the file; a JSON error only ever replaces them. */
  lemma HeadersOrJson(s: Stream, cfg: Config, inputs: seq<Input>, i: nat)
    requires Reached(s, cfg, inputs) && i < |s.out|
    ensures s.out[i].Headers? <==> i == 0 && s.headersSent
    ensures s.out[i].Headers? ==> s.out[i].size == s.cursor.total >= 0
    ensures s.out[i].Json? ==> !s.headersSent && s.out == [s.out[i], Ok] && 400 <= s.out[i].code <= 599
  {
    ReachedHolds(s, cfg, inputs);
    hide Run, AdmissibleRun, RefsOk, Tiles, Body;
    if s.headersSent {
      OutputAt(s, i);
    }
  }

  // ---------- The body of a response ----------

  /** What was read from the local file is what the file holds there. */
  predicate Faithful(out: seq<Output>, content: Bytes) {
    forall o | o in out && o.Chunk? :: 0 <= o.offset && o.data <= content[Min(o.offset, |content|)..]
  }

  lemma {:induction false} BodyIsPrefix(out: seq<Output>, content: Bytes)
    requires Tiles(out) && Faithful(out, content)
    ensures Body(out) <= content
  {
    if out != [] {
      var before, l := out[..|out| - 1], out[|out| - 1];
      assert forall o | o in before :: o in out;
      BodyIsPrefix(before, content);
      if l.Chunk? && l.data != [] {
        assert |Body(before)| == l.offset <= |content|;
        assert content == Body(before) + content[l.offset..];
        assert content == Body(before) + l.data + content[l.offset..][|l.data|..];
      }
    }
  }

  lemma EndsWell(s: Stream)
    requires Inv(s)
    ensures s.completedOk <==> s.headersSent && Ok in s.out
  {
    hide RefsOk, Tiles, Body;
    if s.headersSent {
      OutputAt(s, |s.out| - 1);
      forall i | 0 <= i < |s.out| - 1
        ensures s.out[i] != Ok
      {
        OutputAt(s, i);
      }
    }
  }

  /**
   The body never contains anything but the bytes of the file from the first one on, in order, without a gap or a
   repeat, and never more than announced; what has been committed is a prefix of it. It is the whole file when the
   response ends well after the 200 headers, and only then does the stream call itself completed.
   */
  lemma BodyIsTheFile(s: Stream, cfg: Config, inputs: seq<Input>, content: Bytes)
    requires Reached(s, cfg, inputs) && Faithful(s.out, content)
    ensures Body(s.out) <= content && s.cursor.next <= |Body(s.out)| <= Max(s.cursor.total, 0)
    ensures s.completedOk <==> s.headersSent && Ok in s.out
    ensures s.completedOk ==> |Body(s.out)| == s.cursor.total
    ensures s.completedOk && |content| == s.cursor.total ==> Body(s.out) == content
  {
    ReachedHolds(s, cfg, inputs);
    BodyIsPrefix(s.out, content);
    EndsWell(s);
    hide Run, AdmissibleRun, RefsOk, Tiles, Body, Shape;
  }

  /** In every state the stream holds a reference on exactly its local path, and on none once it is torn down. */
  lemma HoldsItsPath(s: Stream, cfg: Config, inputs: seq<Input>)
    requires Reached(s, cfg, inputs)
    ensures LegalRefs(s.refs)
    ensures Held(s.refs) == if s.tornDown || !s.cfg.hasCleanup || s.path == "" then None else Some(s.path)
    ensures s.finished ==> Held(s.refs) == None
  {
    ReachedHolds(s, cfg, inputs);
    hide Run, AdmissibleRun, Tiles, Body, Shape;
  }

  /** Delivered, downloaded and announced bytes are ordered, and a download that is reported complete is all there. */
  lemma CursorIsOrdered(s: Stream, cfg: Config, inputs: seq<Input>)
    requires Reached(s, cfg, inputs) && s.cursor.total >= 0
    ensures 0 <= s.cursor.next <= s.cursor.end <= s.cursor.total
    ensures s.downloadCompleted && !s.finished ==> s.cursor.end == s.cursor.total
    ensures s.firstByteSent <==> s.cursor.next > 0
    ensures !s.finished ==> |Body(s.out)| == s.cursor.next + if s.writeInFlight then s.pendingSize else 0
  {
    ReachedHolds(s, cfg, inputs);
    hide Run, AdmissibleRun, Tiles, Body, Shape, RefsOk;
  }

  // ---------- A completion that is revoked ----------

  /**
   A chunk that reached the socket is committed exactly when its bytes are still reported as downloaded. It is
   refused only if it is the first one, and then the response is cut.
   */
  lemma CommitIsRefused(s: Stream, code: int, env: Env)
    requires Inv(s) && Running(s) && s.writeInFlight
    ensures var s' := OnChunkFlushed(s, true, code, env);
            if s.cursor.next + s.pendingSize <= s.cursor.end
            then s'.cursor == s.cursor.(next := s.cursor.next + s.pendingSize, end := s'.cursor.end)
            else s.cursor.next == 0 && s'.out == s.out + [Error] && s'.finished && s'.cursor == s.cursor
  {
    hide Inv, TryRead;
    PendingChunk(s);
    var s1 := s.(writeInFlight := false);
    if Fits(s1.cursor, s1.pendingOffset, s1.pendingSize) {
      TryReadForgets(Committed(s1), env);
    }
  }

  lemma PendingChunk(s: Stream)
    requires Inv(s) && Running(s) && s.writeInFlight
    ensures s.headersSent && s.pendingOffset == s.cursor.next && s.pendingSize > 0
    ensures s.cursor.next + s.pendingSize <= s.cursor.total
    ensures s.cursor.next > 0 ==> s.cursor.next + s.pendingSize <= s.cursor.end
  {
    hide Tiles, Body, Shape, RefsOk;
  }

  /** Whether a completed download was revoked, and with it what is known of the file. */
  predicate Revoked(s: Stream, s': Stream) {
    !s'.downloadCompleted && s'.cursor == DropStale(s).cursor
  }

  /** Terminal actions and reads leave what is known of the file alone. */
  predicate SameFile(s: Stream, s': Stream) {
    s'.cursor == s.cursor && s'.downloadCompleted == s.downloadCompleted
  }

  lemma FailForgets(s: Stream, code: int, env: Env)
    ensures SameFile(s, Fail(s, code, env))
  {
  }

  lemma FinishForgets(s: Stream, env: Env)
    ensures SameFile(s, Finish(s, env))
  {
    hide Fail;
    FailForgets(s, 500, env);
  }

  lemma OnFileDataForgets(s: Stream, offset: int, data: Bytes, env: Env)
    ensures SameFile(s, OnFileData(s, offset, data, env))
  {
    hide Fail;
    var s1 := s.(readInFlight := false);
    FailForgets(s1, 500, env);
    FailForgets(s1.(writeInFlight := true, pendingOffset := offset, pendingSize := |data|), 500, env);
  }

  lemma ReadForgets(s: Stream, count: nat, env: Env)
    ensures SameFile(s, Read(s, count, env))
  {
    hide Fail, OnFileData;
    FailForgets(s, 500, env);
    OnFileDataForgets(s.(readInFlight := true), s.cursor.next, Pread(env.disk, s.cursor.next, count), env);
  }

  lemma TryReadForgets(s: Stream, env: Env)
    ensures SameFile(s, TryRead(s, env)) || (s.downloadCompleted && Revoked(s, TryRead(s, env)))
  {
    hide Finish, Read, Fail;
    FinishForgets(s, env);
    FailForgets(s, 500, env);
    ReadForgets(s.(isOpen := true), NextReadSize(s.cursor, ChunkSize(s.cfg)), env);
  }

  lemma CursorOrder(s: Stream)
    requires Inv(s) && s.cursor.total >= 0
    ensures s.cursor.next <= s.cursor.end <= s.cursor.total
  {
    hide Tiles, Body, Shape, RefsOk;
  }

  lemma ReportedForgets(s: Stream, p: Progress, active: bool, env: Env)
    requires Inv(s) && Running(s) && s.cursor.total >= 0
    ensures var s' := Reported(s, p, active, env);
            && s'.cursor.next == s.cursor.next && (s'.cursor.next == 0 || s.cursor.end <= s'.cursor.end)
            && (s.cursor.end <= s'.cursor.end || ((s.downloadCompleted || p.completed) && !s'.downloadCompleted))
            && (!s.downloadCompleted && !p.completed ==> !s'.downloadCompleted)
  {
    hide Inv, TryRead, Fail;
    CursorOrder(s);
    FailForgets(s, 500, env);
    FailForgets(Extended(s, p), 502, env);
    TryReadForgets(Extended(s, p), env);
  }

  /** Downloaded bytes are forgotten only when nothing has been delivered and a completed download is revoked. */
  lemma OnlyRevocationForgets(s: Stream, input: Input)
    requires Inv(s) && Admissible(s, input) && Step(s, input).cursor.end < s.cursor.end
    ensures s.cursor.next == 0
    ensures s.downloadCompleted || (input.FileProgress? && input.p.completed)
    ensures !Step(s, input).downloadCompleted
  {
    hide Tiles, Body, Shape, RefsOk, TryRead, Reported, Redownload, DropStale, Adopt, Fail, OnFileReady, OnChunkFlushed;
    StepKeeps(s, input);
    match input
    case FileProgress(total, p, active, env) => ProgressForgets(s, total, p, active, env);
    case ChunkFlushed(ok, code, env) => FlushForgets(s, ok, code, env);
    case HeadersFlushed(_, code, env) => FailForgets(s, HttpError(code), env);
    case FileError(code, env) => FailForgets(s, HttpError(code), env);
    case Timeout(env) => FailForgets(s, 504, env);
    case _ =>
  }

  lemma ProgressForgets(s: Stream, total: int, p: Progress, active: bool, env: Env)
    requires Inv(s) && Running(s)
    ensures var s' := OnFileProgress(s, total, p, active, env);
            s'.cursor.end < s.cursor.end ==>
            s.cursor.next == 0 && (s.downloadCompleted || p.completed) && !s'.downloadCompleted
  {
    hide Tiles, Body, Shape, RefsOk, TryRead, Reported, Refreshed, Fail, Flight;
    FailForgets(s, 502, env);
    if s.cursor.total >= 0 {
      RefreshedKeeps(s, p);
      ReportedForgets(Refreshed(s, p), p, active, env);
    }
  }

  lemma FlushForgets(s: Stream, ok: bool, code: int, env: Env)
    requires Inv(s) && Running(s) && s.writeInFlight
    ensures s.cursor.end <= OnChunkFlushed(s, ok, code, env).cursor.end
  {
    hide Tiles, Body, Shape, RefsOk, TryRead, Fail;
    FailForgets(s.(writeInFlight := false), HttpError(code), env);
    FailForgets(s.(writeInFlight := false, pendingOffset := -1, pendingSize := 0), 500, env);
    if Fits(s.cursor, s.pendingOffset, s.pendingSize) {
      TryReadForgets(s.(writeInFlight := false, pendingOffset := -1, pendingSize := 0, firstByteSent := true,
                        cursor := s.cursor.(next := s.cursor.next + s.pendingSize)), env);
    }
  }

  /** A run in which a chunk that was written well is refused: TDLib revokes the completion in between. */
  lemma RevokedInFlight(disk: Bytes)
    requires |disk| > 0
    ensures var n := |disk|;
            var cfg := Config(n, n, 0, n, true);
            var env := Env(true, false, disk, true, true);
            var inputs := [FileReady(1, n, Progress("f", 0, n, true), env),
                           FileProgress(0, Progress("f", 0, 0, false), true, env),
                           ChunkFlushed(true, 0, env)];
            && AdmissibleRun(Init(cfg), inputs)
            && Run(Init(cfg), inputs).out == [Headers(n), Chunk(0, disk), Error]
  {
    var n := |disk|;
    var cfg := Config(n, n, 0, n, true);
    var env := Env(true, false, disk, true, true);
    var i0 := FileReady(1, n, Progress("f", 0, n, true), env);
    var i1 := FileProgress(0, Progress("f", 0, 0, false), true, env);
    var i2 := ChunkFlushed(true, 0, env);
    hide Step, Admissible, Outstanding;
    FirstChunkLeaves(disk);
    var s1 := Step(Init(cfg), i0);
    CompletionIsRevoked(s1, disk);
    var s2 := Step(s1, i1);
    FirstChunkIsRefused(s2, disk);
    var s3 := Step(s2, i2);
    assert [i0, i1, i2][1..] == [i1, i2] && [i1, i2][1..] == [i2] && [i2][1..] == [];
    assert Run(s3, []) == s3 && AdmissibleRun(s3, []);
    assert Run(s2, [i2]) == s3 && AdmissibleRun(s2, [i2]);
    assert Run(s1, [i1, i2]) == s3 && AdmissibleRun(s1, [i1, i2]);
  }

  /** The whole file is one chunk, which is on its way; `end` bytes are reported as downloaded. */
  predicate Outstanding(s: Stream, disk: Bytes, end: nat) {
    && Running(s) && s.out == [Headers(|disk|), Chunk(0, disk)] && s.headersSent && !s.firstByteSent
    && s.writeInFlight && !s.readInFlight && s.pendingOffset == 0 && s.pendingSize == |disk|
    && s.path == "f" && s.cursor == Cursor(|disk|, 0, end) && (s.downloadCompleted <==> end == |disk|)
  }

  lemma FirstChunkLeaves(disk: Bytes)
    requires |disk| > 0
    ensures var n := |disk|;
            var s, env := Init(Config(n, n, 0, n, true)), Env(true, false, disk, true, true);
            var input := FileReady(1, n, Progress("f", 0, n, true), env);
            Admissible(s, input) && Outstanding(Step(s, input), disk, n)
  {
    assert Pread(disk, 0, |disk|) == disk;
  }

  lemma CompletionIsRevoked(s: Stream, disk: Bytes)
    requires |disk| > 0 && Outstanding(s, disk, |disk|)
    ensures var input := FileProgress(0, Progress("f", 0, 0, false), true, Env(true, false, disk, true, true));
            Admissible(s, input) && Outstanding(Step(s, input), disk, 0)
  {
  }

  lemma FirstChunkIsRefused(s: Stream, disk: Bytes)
    requires |disk| > 0 && Outstanding(s, disk, 0)
    ensures var input := ChunkFlushed(true, 0, Env(true, false, disk, true, true));
            Admissible(s, input) && Step(s, input).out == [Headers(|disk|), Chunk(0, disk), Error]
  {
  }

  // ---------- Progress ----------

  /** Nothing goes wrong on the disk, which holds what was reported as downloaded. */
  predicate Good(cfg: Config, env: Env, end: int) {
    env.opens && !env.readFails && env.headersFit && end <= |env.disk| && cfg.chunkSize > 0 && cfg.highWatermark > 0
  }

  /** All that is available has been handed to the connection, or some of it is on its way. */
  predicate Parked(s: Stream) {
    Running(s) && !s.writeInFlight && s.path != "" && s.cursor.next < s.cursor.end
  }

  lemma TryReadNeverParks(s: Stream, env: Env)
    requires Inv(s) && !s.tornDown && (s.cursor.total >= 0 ==> Good(s.cfg, env, s.cursor.end))
    ensures !Parked(TryRead(s, env))
    ensures !s.finished && s.cursor.total == 0 ==> TryRead(s, env).finished
  {
    hide Tiles, Body, Shape, RefsOk, Fail;
    FailForgets(s, 500, env);
    if s.cursor.total >= 0 && s.cursor.next < s.cursor.total && s.path != "" {
      var count := NextReadSize(s.cursor, ChunkSize(s.cfg));
      if count > 0 && !s.finished && !s.writeInFlight {
        assert |Pread(env.disk, s.cursor.next, count)| == count;
      }
    }
  }

  lemma AnnouncedNeverParks(s: Stream, p: Progress, env: Env)
    requires Inv(s) && Running(s) && s.out == [] && !s.headersSent && !s.downloadCompleted
    requires Good(s.cfg, env, s.cursor.total)
    ensures !Parked(Announced(s, p, env))
  {
    hide Tiles, Body, RefsOk, Fail, TryRead;
    FailKeeps(s, 502, env);
    if Consistent(s.cursor, p.offset, p.prefix) {
      var s1 := s.(cursor := Advanced(s.cursor, p.offset, p.prefix, p.completed), downloadCompleted := p.completed);
      FailKeeps(s1, 502, env);
      if !p.completed || s1.cursor.end == s1.cursor.total {
        TryReadNeverParks(s1, env);
      }
    }
  }

  lemma ReportedNeverParks(s: Stream, p: Progress, active: bool, env: Env)
    requires Inv(s) && Running(s) && Good(s.cfg, env, s.cursor.total)
    ensures !Parked(Reported(s, p, active, env))
  {
    hide Tiles, Body, RefsOk, Shape, Fail, TryRead;
    FailKeeps(s, 500, env);
    if Consistent(s.cursor, p.offset, p.prefix) {
      var s1 := s.(cursor := Advanced(s.cursor, p.offset, p.prefix, p.completed),
                   downloadCompleted := s.downloadCompleted || p.completed);
      FailKeeps(s1, 502, env);
      if s1.downloadCompleted ==> s1.cursor.end == s1.cursor.total {
        TryReadNeverParks(s1, env);
      }
    }
  }

  lemma FlushedNeverParks(s: Stream, code: int, env: Env)
    requires Inv(s) && Running(s) && s.writeInFlight && Good(s.cfg, env, s.cursor.total)
    ensures !Parked(OnChunkFlushed(s, true, code, env))
  {
    hide Tiles, Body, RefsOk, Shape, Fail, TryRead;
    FailKeeps(s.(writeInFlight := false, pendingOffset := -1, pendingSize := 0), 500, env);
    if Fits(s.cursor, s.pendingOffset, s.pendingSize) {
      TryReadNeverParks(s.(writeInFlight := false, pendingOffset := -1, pendingSize := 0, firstByteSent := true,
                           cursor := s.cursor.(next := s.cursor.next + s.pendingSize)), env);
    }
  }

  lemma ReadyNeverParks(s: Stream, fileId: int, total: int, p: Progress, env: Env)
    requires Inv(s) && Running(s) && s.cursor.total < 0 && Good(s.cfg, env, total)
    ensures !Parked(OnFileReady(s, fileId, total, p, env))
  {
    hide Tiles, Body, RefsOk, Shape, Flight, Fail, Adopt, Announced, Good;
    FailKeeps(s, 500, env);
    if 0 <= total {
      ReadyForReport(s, fileId, total, p.path);
      var s1 := Adopt(s.(fileId := fileId), p.path);
      FailKeeps(s1, 413, env);
      AnnouncedNeverParks(s1.(cursor := s1.cursor.(total := total)), p, env);
    }
  }

  lemma ProgressNeverParks(s: Stream, total: int, p: Progress, active: bool, env: Env)
    requires Inv(s) && Running(s) && Good(s.cfg, env, s.cursor.total)
    ensures !Parked(OnFileProgress(s, total, p, active, env))
  {
    hide Tiles, Body, RefsOk, Shape, Flight, Fail, Reported, Refreshed, Good;
    FailKeeps(s, 502, env);
    RefreshedKeeps(s, p);
    if s.cursor.total >= 0 {
      ReportedNeverParks(Refreshed(s, p), p, active, env);
    }
  }

  /** Whatever TDLib or the connection reports, a chunk goes out as long as a downloaded byte is left. */
  lemma NeverParks(s: Stream, input: Input)
    requires Inv(s) && Admissible(s, input) && !s.tornDown
    requires input.FileReady? || input.FileProgress? || (input.ChunkFlushed? && input.ok)
    requires Good(s.cfg, input.env, if input.FileReady? then input.total else s.cursor.total)
    ensures !Parked(Step(s, input))
  {
    hide Tiles, Body, RefsOk, Shape, Good, OnFileReady, OnFileProgress, OnChunkFlushed;
    match input
    case FileReady(fileId, total, p, env) => ReadyNeverParks(s, fileId, total, p, env);
    case FileProgress(total, p, active, env) => ProgressNeverParks(s, total, p, active, env);
    case ChunkFlushed(ok, code, env) => FlushedNeverParks(s, code, env);
    case _ =>
  }

  // ---------- Delivery ----------

  function Flushes(n: nat, env: Env): seq<Input> {
    if n == 0 then [] else [ChunkFlushed(true, 0, env)] + Flushes(n - 1, env)
  }

  /** The file is complete on the disk, and what has been written so far was read from it. */
  predicate Delivering(s: Stream, env: Env) {
    && Inv(s) && Running(s) && s.writeInFlight && Good(s.cfg, env, s.cursor.total)
    && s.cursor.end == s.cursor.total == |env.disk| && s.path != ""
    && Body(s.out) <= env.disk
  }

  /** The state in which try_read is called once the chunk in flight is committed. */
  function Flushed(s: Stream): Stream
    requires s.pendingSize > 0
  {
    s.(writeInFlight := false, pendingOffset := -1, pendingSize := 0, firstByteSent := true,
       cursor := s.cursor.(next := s.cursor.next + s.pendingSize))
  }

  lemma CommitThenRead(s: Stream, env: Env)
    requires Delivering(s, env)
    ensures s.headersSent && s.pendingSize > 0 && |Body(s.out)| == s.cursor.next + s.pendingSize
    ensures s.cursor.next < s.cursor.total && Body(s.out) == env.disk[..|Body(s.out)|]
    ensures Inv(Flushed(s)) && Step(s, ChunkFlushed(true, 0, env)) == TryRead(Flushed(s), env)
  {
    hide Tiles, RefsOk, Shape, TryRead, Body;
  }

  lemma LastFlush(s: Stream, env: Env)
    requires Inv(s) && Running(s) && s.headersSent && !s.writeInFlight && Complete(s.cursor)
    ensures var s' := TryRead(s, env);
            s'.completedOk && s'.cursor == s.cursor && Body(s'.out) == Body(s.out)
  {
    hide Tiles, RefsOk, Shape, Body;
    Written(s.out, Ok);
    FinishKeeps(s, env);
  }

  lemma NextChunk(s: Stream, env: Env)
    requires Inv(s) && Running(s) && s.headersSent && !s.writeInFlight && s.path != ""
    requires Good(s.cfg, env, s.cursor.total)
    requires s.cursor.next < s.cursor.end == s.cursor.total == |env.disk| && Body(s.out) == env.disk[..s.cursor.next]
    ensures var s' := TryRead(s, env);
            && s'.cursor == s.cursor && s'.writeInFlight && s'.cfg == s.cfg && Running(s') && s'.path == s.path
            && Body(s'.out) <= env.disk
  {
    hide Tiles, RefsOk, Shape, Body;
    var count := NextReadSize(s.cursor, ChunkSize(s.cfg));
    var data := Pread(env.disk, s.cursor.next, count);
    assert |data| == count;
    Written(s.out, Chunk(s.cursor.next, data));
    assert env.disk[..s.cursor.next] + data == env.disk[..s.cursor.next + count];
  }

  lemma FlushDelivers(s: Stream, env: Env)
    requires Delivering(s, env)
    ensures var s' := Step(s, ChunkFlushed(true, 0, env));
            && s.cursor.next < s'.cursor.next <= s.cursor.total
            && (if s'.cursor.next == s.cursor.total then s'.completedOk && Body(s'.out) == env.disk
                else Delivering(s', env) && s'.cursor.total == s.cursor.total)
  {
    CommitThenRead(s, env);
    var s1 := Flushed(s);
    StepKeeps(s, ChunkFlushed(true, 0, env));
    hide Tiles, RefsOk, Shape, Body, TryRead, Flight, Step;
    if Complete(s1.cursor) {
      LastFlush(s1, env);
    } else {
      NextChunk(s1, env);
    }
  }

  lemma RunFirst(s: Stream, input: Input, rest: seq<Input>)
    ensures Run(s, [input] + rest) == Run(Step(s, input), rest)
  {
    hide Step;
    assert ([input] + rest)[1..] == rest;
  }

  lemma RunNothing(s: Stream)
    ensures Run(s, []) == s
  {
  }

  /** Once the file is downloaded, flush after flush delivers all of it, whatever its size and the size of a chunk. */
  lemma {:induction false} DeliversTheFile(s: Stream, env: Env) returns (n: nat)
    requires Delivering(s, env)
    ensures Run(s, Flushes(n, env)).completedOk && Body(Run(s, Flushes(n, env)).out) == env.disk
    decreases s.cursor.total - s.cursor.next
  {
    hide Step, Body, Delivering, Run;
    var s1 := Step(s, ChunkFlushed(true, 0, env));
    FlushDelivers(s, env);
    var m := 0;
    if s1.cursor.next == s.cursor.total {
      RunNothing(s1);
    } else {
      m := DeliversTheFile(s1, env);
    }
    n := m + 1;
    RunFirst(s, ChunkFlushed(true, 0, env), Flushes(m, env));
  }
}
