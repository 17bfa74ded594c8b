/** What every run of the file streaming connection keeps. */
module FileStreamSafety {
  import opened Common
  import opened FileStreamSpec

  // ---------- Reading what was written ----------

  /** The bytes of the response body so far. */
  function Body(out: seq<Output>): Bytes {
    if out == [] then [] else
    var l := out[|out| - 1];
    Body(out[..|out| - 1]) + if l.Chunk? then l.data else []
  }

  /** Every chunk starts where the one before it ended. */
  predicate Tiles(out: seq<Output>) {
    out == [] ||
    (var l := out[|out| - 1];
     Tiles(out[..|out| - 1]) && (l.Chunk? ==> l.offset == |Body(out[..|out| - 1])| && l.data != []))
  }

  predicate Ends(o: Output) {
    o.Ok? || o.Error?
  }

  predicate AllChunks(out: seq<Output>) {
    forall o | o in out :: o.Chunk?
  }

  lemma Written(out: seq<Output>, o: Output)
    ensures Body(out + [o]) == Body(out) + if o.Chunk? then o.data else []
    ensures Tiles(out + [o]) <==> Tiles(out) && (o.Chunk? ==> o.offset == |Body(out)| && o.data != [])
  {
    assert (out + [o])[..|out|] == out;
  }

  /** The reference a stream holds after these messages. */
  function Held(refs: seq<Reference>): Option<Path> {
    if refs == [] then None else
    var l := refs[|refs| - 1];
    if l.Retain? then Some(l.path) else None
  }

  /** Only a path that is held is released, and at most one is held. */
  predicate LegalRefs(refs: seq<Reference>) {
    refs == [] ||
    (var l := refs[|refs| - 1];
     && LegalRefs(refs[..|refs| - 1])
     && Held(refs[..|refs| - 1]) == if l.Retain? then None else Some(l.path))
  }

  lemma Referred(refs: seq<Reference>, r: Reference)
    ensures Held(refs + [r]) == if r.Retain? then Some(r.path) else None
    ensures LegalRefs(refs + [r]) <==> LegalRefs(refs) && Held(refs) == if r.Retain? then None else Some(r.path)
  {
    assert (refs + [r])[..|refs|] == refs;
  }

  // ---------- The invariant ----------

  predicate CursorOk(c: Cursor) {
    if c.total < 0 then c.next == 0 && c.end == 0 else c.next <= c.end <= c.total
  }

  /** What has been written, by whether the headers went out and whether the response was ended. */
  predicate Shape(out: seq<Output>, headersSent: bool, finished: bool, total: int, completedOk: bool) {
    if headersSent then
      && |out| >= (if finished then 2 else 1) && out[0] == Headers(total)
      && AllChunks(out[1..if finished then |out| - 1 else |out|])
      && (finished ==> out[|out| - 1] == if completedOk then Ok else Error)
      && (!finished ==> !completedOk)
    else
      && !completedOk
      && if finished
         then out == [Error] || (|out| == 2 && out[0].Json? && 400 <= out[0].code <= 599 && out[1] == Ok)
         else out == []
  }

  predicate RefsOk(refs: seq<Reference>, path: Path, kept: bool) {
    LegalRefs(refs) && Held(refs) == if kept && path != "" then Some(path) else None
  }

  /** What holds even in the middle of a callback. */
  predicate Base(s: Stream) {
    && CursorOk(s.cursor)
    && Shape(s.out, s.headersSent, s.finished, s.cursor.total, s.completedOk)
    && RefsOk(s.refs, s.path, s.cfg.hasCleanup && !s.tornDown)
    && Tiles(s.out) && s.cursor.next <= |Body(s.out)| <= Max(s.cursor.total, 0)
    && (s.firstByteSent <==> s.cursor.next > 0)
    && (s.headersSent ==> s.cursor.total >= 0) && (s.completedOk ==> s.finished)
  }

  /** At most one chunk is outstanding: what was written is what was committed and that chunk. */
  predicate Flight(s: Stream) {
    if s.writeInFlight then
      && s.headersSent && s.pendingOffset == s.cursor.next && s.pendingSize > 0
      && |Body(s.out)| == s.cursor.next + s.pendingSize
      && (s.cursor.next > 0 ==> s.cursor.next + s.pendingSize <= s.cursor.end)
    else
      |Body(s.out)| == s.cursor.next
  }

  predicate Inv(s: Stream) {
    && Base(s) && !s.readInFlight
    && (if s.finished then
          s.tornDown && (s.completedOk ==> s.cursor.next == s.cursor.total == |Body(s.out)|)
        else
          Flight(s) && (s.downloadCompleted ==> s.cursor.end == s.cursor.total))
  }

  /** A stream that can still do something. */
  predicate Running(s: Stream) {
    !s.finished && !s.tornDown
  }

  // ---------- Terminal actions ----------

  lemma TornDownKeeps(s: Stream)
    requires RefsOk(s.refs, s.path, s.cfg.hasCleanup) && !s.tornDown
    ensures RefsOk(TornDown(s).refs, s.path, false)
  {
    if s.path != "" && s.cfg.hasCleanup {
      Referred(s.refs, Release(s.path));
    }
  }

  /** A response whose headers went out is ended by one more output. */
  lemma EndShape(out: seq<Output>, total: int, ok: bool)
    requires Shape(out, true, false, total, false)
    ensures Shape(out + [if ok then Ok else Error], true, true, total, ok)
  {
    var ended := out + [if ok then Ok else Error];
    assert ended[1..|ended| - 1] == out[1..];
  }

  function ErrorAnswer(code: int, env: Env): seq<Output> {
    if env.jsonFits then [Json(code), Ok] else [Error]
  }

  lemma AnswerShape(code: int, env: Env, total: int)
    requires 400 <= code <= 599
    ensures var out := [] + ErrorAnswer(code, env);
            Shape(out, false, true, total, false) && Tiles(out) && Body(out) == []
  {
    Written([], Error);
    Written([], Json(code));
    Written([Json(code)], Ok);
    assert [Json(code)] + [Ok] == [Json(code), Ok];
  }

  lemma FailKeeps(s: Stream, code: int, env: Env)
    requires Base(s) && Running(s) && !s.readInFlight && 400 <= code <= 599
    ensures Inv(Fail(s, code, env)) && Fail(s, code, env).finished && !Fail(s, code, env).completedOk
  {
    hide Base, Inv, Cut, Answer;
    if s.headersSent {
      CutKeeps(s);
    } else {
      AnswerKeeps(s, code, env);
    }
  }

  lemma CutKeeps(s: Stream)
    requires Base(s) && Running(s) && !s.readInFlight && s.headersSent
    ensures Inv(Cut(s)) && Cut(s).finished && !Cut(s).completedOk
  {
    hide Shape, RefsOk, Tiles, Body;
    TornDownKeeps(s);
    EndShape(s.out, s.cursor.total, false);
    Written(s.out, Error);
  }

  lemma AnswerKeeps(s: Stream, code: int, env: Env)
    requires Base(s) && Running(s) && !s.readInFlight && !s.headersSent && 400 <= code <= 599
    ensures Inv(Answer(s, code, env)) && Answer(s, code, env).finished && !Answer(s, code, env).completedOk
  {
    hide Shape, RefsOk, Tiles, Body;
    TornDownKeeps(s);
    NothingWritten(s);
    AnswerShape(code, env, s.cursor.total);
  }

  lemma NothingWritten(s: Stream)
    requires Base(s) && Running(s) && !s.headersSent
    ensures s.out == [] && Body(s.out) == []
  {
    hide RefsOk, Tiles;
  }

  lemma FinishKeeps(s: Stream, env: Env)
    requires Inv(s) && Running(s) && Complete(s.cursor) && !s.writeInFlight
    ensures Inv(Finish(s, env)) && Finish(s, env).finished
    ensures Finish(s, env).completedOk <==> s.headersSent || env.headersFit
  {
    hide Base, Fail, WellEnded, Body;
    if s.headersSent || env.headersFit {
      HeadersKeep(s, env);
      WellEndedKeeps(SendHeaders(s, env).0);
    } else {
      FailKeeps(s, 500, env);
    }
  }

  lemma WellEndedKeeps(s: Stream)
    requires Base(s) && Running(s) && s.headersSent && !s.readInFlight
    requires Complete(s.cursor) && |Body(s.out)| == s.cursor.next
    ensures Inv(WellEnded(s)) && WellEnded(s).finished && WellEnded(s).completedOk
  {
    hide Shape, RefsOk, Tiles, Body;
    TornDownKeeps(s);
    EndShape(s.out, s.cursor.total, true);
    Written(s.out, Ok);
  }

  lemma HeadersKeep(s: Stream, env: Env)
    requires Base(s) && Running(s) && s.cursor.total >= 0 && (s.headersSent || env.headersFit)
    ensures var (s1, ok) := SendHeaders(s, env);
            ok && s1 == s.(headersSent := true, out := s1.out) && Base(s1) && Body(s1.out) == Body(s.out)
  {
    hide Shape, RefsOk, Tiles, Body, Fail;
    if !s.headersSent {
      NothingWritten(s);
      FirstHeaders(s.cursor.total);
    }
  }

  lemma FirstHeaders(total: int)
    ensures var out := [] + [Headers(total)];
            Shape(out, true, false, total, false) && Tiles(out) && Body(out) == Body([])
  {
    Written([], Headers(total));
    assert [] + [Headers(total)] == [Headers(total)] && [Headers(total)][1..1] == [];
  }

  // ---------- Reading ----------

  lemma ChunkShape(out: seq<Output>, total: int, offset: int, data: Bytes)
    requires Shape(out, true, false, total, false)
    ensures Shape(out + [Chunk(offset, data)], true, false, total, false)
  {
    assert (out + [Chunk(offset, data)])[1..] == out[1..] + [Chunk(offset, data)];
  }

  lemma OnFileDataKeeps(s: Stream, data: Bytes, env: Env)
    requires Inv(s) && Running(s) && !s.writeInFlight
    requires |data| == NextReadSize(s.cursor, ChunkSize(s.cfg)) > 0
    ensures Inv(OnFileData(s.(readInFlight := true), s.cursor.next, data, env))
  {
    hide RefsOk, Tiles, Body, Shape, Fail;
    var s2 := s.(writeInFlight := true, pendingOffset := s.cursor.next, pendingSize := |data|);
    if s.headersSent || env.headersFit {
      var s3 := SendHeaders(s2, env).0;
      HeadersKeep(s2, env);
      ChunkShape(s3.out, s3.cursor.total, s.cursor.next, data);
      Written(s3.out, Chunk(s.cursor.next, data));
      hide SendHeaders;
    } else {
      FailKeeps(s2, 500, env);
    }
  }

  lemma TryReadKeeps(s: Stream, env: Env)
    requires Inv(s) && !s.tornDown
    ensures Inv(TryRead(s, env))
  {
    hide Shape, RefsOk, Tiles, Body, Finish, Fail, OnFileData;
    if s.finished || s.writeInFlight || s.cursor.total < 0 {
    } else if Complete(s.cursor) {
      FinishKeeps(s, env);
    } else {
      var count := NextReadSize(s.cursor, ChunkSize(s.cfg));
      if count > 0 && s.path != "" {
        if s.isOpen || env.opens {
          ReadKeeps(s.(isOpen := true), count, env);
        } else {
          NotThereKeeps(s, env);
        }
      }
    }
  }

  lemma ReadKeeps(s: Stream, count: nat, env: Env)
    requires Inv(s) && Running(s) && !s.writeInFlight && count == NextReadSize(s.cursor, ChunkSize(s.cfg)) > 0
    ensures Inv(Read(s, count, env))
  {
    hide Shape, RefsOk, Tiles, Body, Fail, OnFileData;
    var data := Pread(env.disk, s.cursor.next, count);
    if !env.readFails && |data| == count {
      OnFileDataKeeps(s, data, env);
    }
    FailKeeps(s, 500, env);
  }

  lemma NotThereKeeps(s: Stream, env: Env)
    requires Inv(s) && Running(s) && !s.writeInFlight
    ensures Inv(NotThere(s, env))
  {
    hide Shape, RefsOk, Tiles, Body, Fail;
    FailKeeps(s, 500, env);
  }

  // ---------- Reports of TDLib ----------

  lemma AdoptKeeps(s: Stream, path: Path)
    requires RefsOk(s.refs, s.path, s.cfg.hasCleanup && !s.tornDown) && !s.tornDown
    ensures var s1 := Adopt(s, path);
            s1 == s.(path := s1.path, refs := s1.refs) && RefsOk(s1.refs, s1.path, s1.cfg.hasCleanup)
  {
    hide RefsOk, HandedOn;
    if path != "" && s.path != path {
      AdoptedRefs(s.refs, s.path, path, s.cfg.hasCleanup);
    }
  }

  lemma AdoptedRefs(refs: seq<Reference>, path: Path, path': Path, kept: bool)
    requires RefsOk(refs, path, kept) && path' != "" && path != path'
    ensures RefsOk(HandedOn(refs, path, path', kept), path', kept)
  {
    hide LegalRefs, Held;
    if kept && path == "" {
      assert refs + [] == refs;
      Referred(refs, Retain(path'));
    } else if kept {
      PathMoves(refs, path, path');
    }
  }

  /** Two messages: the path so far is released before the new one is retained. */
  lemma PathMoves(refs: seq<Reference>, path: Path, path': Path)
    requires LegalRefs(refs) && Held(refs) == Some(path)
    ensures var refs' := refs + [Release(path)] + [Retain(path')];
            LegalRefs(refs') && Held(refs') == Some(path')
  {
    hide LegalRefs, Held;
    Referred(refs, Release(path));
    Referred(refs + [Release(path)], Retain(path'));
  }

  /** The state in which the first report is read, before and after the size is known. */
  lemma ReadyForReport(s: Stream, fileId: int, total: int, path: Path)
    requires Inv(s) && Running(s) && s.cursor.total < 0 && 0 <= total
    ensures var s1 := Adopt(s.(fileId := fileId), path);
            && Inv(s1) && Running(s1) && s1.cfg == s.cfg && s1.cursor.total == s.cursor.total
            && var s2 := s1.(cursor := s1.cursor.(total := total));
               Inv(s2) && Running(s2) && s2.out == [] && !s2.headersSent && !s2.downloadCompleted
  {
    hide Inv, Adopt;
    Unannounced(s);
    AdoptInvKeeps(s.(fileId := fileId), path);
    SizedKeeps(Adopt(s.(fileId := fileId), path), total);
  }

  lemma Unannounced(s: Stream)
    requires Inv(s) && Running(s) && s.cursor.total < 0
    ensures s.out == [] && !s.headersSent && !s.downloadCompleted && !s.writeInFlight
    ensures forall fileId :: Inv(s.(fileId := fileId))
  {
    hide Tiles, Body, RefsOk;
  }

  lemma AdoptInvKeeps(s: Stream, path: Path)
    requires Inv(s) && Running(s)
    ensures var s1 := Adopt(s, path);
            Inv(s1) && Running(s1) && s1.(path := s.path, refs := s.refs) == s
  {
    hide Tiles, Body, RefsOk, Shape, Adopt;
    AdoptKeeps(s, path);
  }

  /** The size becomes known before anything was written. */
  lemma SizedKeeps(s: Stream, total: nat)
    requires Inv(s) && Running(s) && s.cursor.total < 0 && s.out == [] && !s.headersSent
    requires !s.writeInFlight && !s.downloadCompleted
    ensures Inv(s.(cursor := s.cursor.(total := total)))
  {
    hide Tiles, Body, RefsOk;
  }

  lemma OnFileReadyKeeps(s: Stream, fileId: int, total: int, p: Progress, env: Env)
    requires Inv(s) && !s.tornDown && s.cursor.total < 0
    ensures Inv(OnFileReady(s, fileId, total, p, env))
  {
    hide Tiles, Body, RefsOk, Shape, Fail, Adopt, Announced;
    if !s.finished {
      FailKeeps(s, 500, env);
      if 0 <= total {
        ReadyForReport(s, fileId, total, p.path);
        var s1 := Adopt(s.(fileId := fileId), p.path);
        FailKeeps(s1, 413, env);
        AnnouncedKeeps(s1.(cursor := s1.cursor.(total := total)), p, env);
      }
    }
  }

  lemma AnnouncedKeeps(s: Stream, p: Progress, env: Env)
    requires Inv(s) && Running(s) && s.out == [] && !s.headersSent && !s.downloadCompleted
    ensures Inv(Announced(s, p, env))
  {
    hide Tiles, Body, RefsOk, Fail, TryRead;
    if !Consistent(s.cursor, p.offset, p.prefix) {
      FailKeeps(s, 502, env);
    } else {
      var s1 := s.(cursor := Advanced(s.cursor, p.offset, p.prefix, p.completed), downloadCompleted := p.completed);
      if p.completed && s1.cursor.end < s1.cursor.total {
        FailKeeps(s1, 502, env);
      } else {
        TryReadKeeps(s1, env);
      }
    }
  }

  lemma DropStaleKeeps(s: Stream)
    requires Inv(s) && Running(s)
    ensures Inv(Redownload(DropStale(s))) && Running(Redownload(DropStale(s)))
    ensures !Redownload(DropStale(s)).downloadCompleted
  {
    hide Tiles, Body, RefsOk, Shape;
  }

  lemma OnFileProgressKeeps(s: Stream, total: int, p: Progress, active: bool, env: Env)
    requires Inv(s) && !s.tornDown
    ensures Inv(OnFileProgress(s, total, p, active, env))
  {
    hide Tiles, Body, RefsOk, Shape, Fail, Reported, Refreshed;
    if !s.finished {
      FailKeeps(s, 502, env);
      RefreshedKeeps(s, p);
      ReportedKeeps(Refreshed(s, p), p, active, env);
    }
  }

  lemma RefreshedKeeps(s: Stream, p: Progress)
    requires Inv(s) && Running(s)
    ensures Inv(Refreshed(s, p)) && Running(Refreshed(s, p))
    ensures Refreshed(s, p).cursor == if s.downloadCompleted && !p.completed then DropStale(s).cursor else s.cursor
    ensures Refreshed(s, p).downloadCompleted == (s.downloadCompleted && p.completed)
    ensures Refreshed(s, p).cfg == s.cfg
  {
    hide Inv, Moved, DropStale, Redownload;
    MovedKeeps(s, p.path);
    DropStaleKeeps(Moved(s, p.path));
    DropStaleCursor(s, Moved(s, p.path));
  }

  lemma MovedKeeps(s: Stream, path: Path)
    requires Inv(s) && Running(s)
    ensures var s1 := Moved(s, path);
            && Inv(s1) && Running(s1) && s1.cursor == s.cursor && s1.cfg == s.cfg
            && s1.downloadCompleted == s.downloadCompleted
  {
    hide Tiles, Body, RefsOk, Shape, Adopt;
    AdoptKeeps(s.(isOpen := false), path);
  }

  lemma DropStaleCursor(s: Stream, s1: Stream)
    requires s1.cursor == s.cursor
    ensures Redownload(DropStale(s1)).cursor == DropStale(s).cursor
    ensures Redownload(DropStale(s1)).cfg == s1.cfg
  {
  }

  lemma ReportedKeeps(s: Stream, p: Progress, active: bool, env: Env)
    requires Inv(s) && Running(s)
    ensures Inv(Reported(s, p, active, env))
  {
    hide Tiles, Body, RefsOk, Shape, Fail, TryRead;
    if !Consistent(s.cursor, p.offset, p.prefix) {
      FailKeeps(s, 500, env);
    } else {
      var s1 := s.(cursor := Advanced(s.cursor, p.offset, p.prefix, p.completed),
                   downloadCompleted := s.downloadCompleted || p.completed);
      FailKeeps(s1, 502, env);
      if s1.downloadCompleted ==> s1.cursor.end == s1.cursor.total {
        TryReadKeeps(s1, env);
      }
    }
  }

  // ---------- Reports of the connection ----------

  lemma OnChunkFlushedKeeps(s: Stream, ok: bool, code: int, env: Env)
    requires Inv(s) && Running(s) && s.writeInFlight
    ensures Inv(OnChunkFlushed(s, ok, code, env))
  {
    hide Tiles, Body, RefsOk, Shape, Fail, TryRead;
    var s1 := s.(writeInFlight := false);
    FailKeeps(s1, HttpError(code), env);
    var s2 := s1.(pendingOffset := -1, pendingSize := 0);
    FailKeeps(s2, 500, env);
    if Fits(s1.cursor, s1.pendingOffset, s1.pendingSize) {
      TryReadKeeps(s2.(cursor := s2.cursor.(next := s2.cursor.next + s1.pendingSize), firstByteSent := true), env);
    }
  }

  // ---------- Runs ----------

  lemma StepKeeps(s: Stream, input: Input)
    requires Inv(s) && Admissible(s, input)
    ensures Inv(Step(s, input))
  {
    hide Tiles, Body, Shape, RefsOk, OnFileReady, OnFileProgress, OnChunkFlushed, Fail;
    if !s.tornDown {
      match input
      case FileReady(fileId, total, p, env) => OnFileReadyKeeps(s, fileId, total, p, env);
      case FileProgress(total, p, active, env) => OnFileProgressKeeps(s, total, p, active, env);
      case ChunkFlushed(ok, code, env) => OnChunkFlushedKeeps(s, ok, code, env);
      case HeadersFlushed(ok, code, env) => FailKeeps(s, HttpError(code), env);
      case FileError(code, env) => FailKeeps(s, HttpError(code), env);
      case Timeout(env) => FailKeeps(s, 504, env);
      case Hangup => TornDownKeeps(s);
      case SetClient =>
    }
  }

  function Run(s: Stream, inputs: seq<Input>): Stream
    decreases |inputs|
  {
    if inputs == [] then s else Run(Step(s, inputs[0]), inputs[1..])
  }

  predicate AdmissibleRun(s: Stream, inputs: seq<Input>)
    decreases |inputs|
  {
    inputs == [] || (Admissible(s, inputs[0]) && AdmissibleRun(Step(s, inputs[0]), inputs[1..]))
  }

  lemma StartHolds(cfg: Config)
    ensures Inv(Init(cfg))
  {
  }

  lemma {:induction false} RunKeeps(s: Stream, inputs: seq<Input>)
    requires Inv(s) && AdmissibleRun(s, inputs)
    ensures Inv(Run(s, inputs))
    decreases |inputs|
  {
    hide Inv, Step;
    if inputs != [] {
      StepKeeps(s, inputs[0]);
      RunKeeps(Step(s, inputs[0]), inputs[1..]);
    }
  }
}
