/**
 What each report does to a response, in terms of the report itself: which ones are refused and with which status, how
 much a response may announce, and that nothing else ends it.
 */
module FileStreamOutcome {
  import opened Common
  import opened FileStreamSpec
  import opened FileStreamSafety
  import opened FileStreamResponse

  /** The response has been ended by this status; once its headers are out it can only be cut. */
  predicate EndedBy(s: Stream, s': Stream, code: int, env: Env) {
    && s'.finished && !s'.completedOk && s'.tornDown
    && s'.out == s.out + (if s.headersSent then [Error] else if env.jsonFits then [Json(code), Ok] else [Error])
  }

  /** The response goes on, or has come to its good end. */
  predicate GoesOn(s': Stream) {
    s'.finished ==> s'.completedOk
  }

  lemma FailEnds(s: Stream, code: int, env: Env)
    requires Running(s) && !s.completedOk
    ensures EndedBy(s, Fail(s, code, env), code, env) && Fail(s, code, env).cursor == s.cursor
  {
  }

  lemma NotYetOk(s: Stream)
    requires Inv(s) && Running(s)
    ensures !s.completedOk
  {
    hide Tiles, Body, RefsOk, Shape, Flight;
  }

  /** With a working disk that holds what has been downloaded, reading never fails. */
  lemma TryReadGoesOn(s: Stream, env: Env)
    requires Inv(s) && Running(s) && s.cursor.total >= 0 && Good(s.cfg, env, s.cursor.end)
    ensures GoesOn(TryRead(s, env)) && TryRead(s, env).cursor == s.cursor && TryRead(s, env).path == s.path
    ensures TryRead(s, env).downloadCompleted == s.downloadCompleted
    ensures TryRead(s, env).redownloadRequested == s.redownloadRequested
  {
    hide Tiles, Body, Shape, RefsOk, Fail;
    if s.cursor.next < s.cursor.total && s.path != "" {
      var count := NextReadSize(s.cursor, ChunkSize(s.cfg));
      if count > 0 && !s.writeInFlight {
        assert |Pread(env.disk, s.cursor.next, count)| == count;
      }
    }
  }

  /** How much is read at once: a chunk, no more than the connection takes, and no more than has been downloaded. */
  function Wanted(s: Stream): int {
    var most := if s.cfg.chunkSize < s.cfg.highWatermark then s.cfg.chunkSize else s.cfg.highWatermark;
    if most < s.cursor.end - s.cursor.next then most else s.cursor.end - s.cursor.next
  }

  /**
   What reading comes to when there is something to read. A file that cannot be opened, or is shorter than it should be,
   is waited for unless it was complete; a complete one that cannot be opened is downloaded again as long as nothing was
   delivered, and ends the response otherwise, as a failing read does. What is read goes out behind the headers.
   */
  lemma ReadOutcome(s: Stream, env: Env)
    requires Inv(s) && Running(s) && s.cursor.total >= 0 && !s.writeInFlight && s.path != ""
    requires s.cursor.next < s.cursor.end && s.cfg.chunkSize > 0 && s.cfg.highWatermark > 0
    ensures var s', n := TryRead(s, env), s.cursor.next + Wanted(s);
            if !s.isOpen && !env.opens then
              if !s.downloadCompleted then s' == s
              else if s.cursor.next > 0 then EndedBy(s, s', 500, env)
              else
                && Running(s') && s'.out == s.out && s'.cursor == s.cursor.(end := 0) && !s'.downloadCompleted
                && (s'.redownloadRequested <==> s.redownloadRequested || (s.fileId > 0 && s.hasClient))
            else if env.readFails then EndedBy(s, s', 500, env)
            else if |env.disk| < n then
              if s.downloadCompleted then EndedBy(s, s', 500, env) else s' == s.(isOpen := false)
            else if !s.headersSent && !env.headersFit then EndedBy(s, s', 500, env)
            else
              && Running(s') && s'.writeInFlight && s'.headersSent && s'.cursor == s.cursor
              && s'.out == s.out + (if s.headersSent then [] else [Headers(s.cursor.total)])
                           + [Chunk(s.cursor.next, env.disk[s.cursor.next..n])]
  {
    hide Inv, Fail, Read, NotThere, EndedBy, NextReadSize;
    NotYetOk(s);
    CursorFacts(s);
    SizeWanted(s);
    if s.isOpen || env.opens {
      OpenReadOutcome(s, s.(isOpen := true), env);
    } else {
      NotThereOutcome(s, env);
    }
  }

  lemma SizeWanted(s: Stream)
    requires Inv(s) && Running(s) && s.cursor.total >= 0 && s.cursor.next < s.cursor.end <= s.cursor.total
    requires s.cfg.chunkSize > 0 && s.cfg.highWatermark > 0
    ensures NextReadSize(s.cursor, ChunkSize(s.cfg)) == Wanted(s) > 0 && !s.readInFlight && !Complete(s.cursor)
  {
    hide Tiles, Body, RefsOk, Shape, Flight;
  }

  lemma NotThereOutcome(s: Stream, env: Env)
    requires Running(s) && !s.completedOk && (s.firstByteSent <==> s.cursor.next > 0)
    ensures var s' := NotThere(s, env);
            if !s.downloadCompleted then s' == s
            else if s.cursor.next > 0 then EndedBy(s, s', 500, env)
            else
              && Running(s') && s'.out == s.out && s'.cursor == s.cursor.(end := 0) && !s'.downloadCompleted
              && (s'.redownloadRequested <==> s.redownloadRequested || (s.fileId > 0 && s.hasClient))
  {
    hide Fail, EndedBy;
    FailEnds(s, 500, env);
  }

  /** The same once the file `s1` is open. */
  lemma OpenReadOutcome(s: Stream, s1: Stream, env: Env)
    requires Running(s) && !s.completedOk && !s.readInFlight && s1 == s.(isOpen := true)
    requires s.cursor.total >= 0 && NextReadSize(s.cursor, ChunkSize(s.cfg)) == Wanted(s) > 0
    ensures var s', n := Read(s1, Wanted(s), env), s.cursor.next + Wanted(s);
            if env.readFails then EndedBy(s, s', 500, env)
            else if |env.disk| < n then
              if s.downloadCompleted then EndedBy(s, s', 500, env) else s' == s.(isOpen := false)
            else if !s.headersSent && !env.headersFit then EndedBy(s, s', 500, env)
            else
              && Running(s') && s'.writeInFlight && s'.headersSent && s'.cursor == s.cursor
              && s'.out == s.out + (if s.headersSent then [] else [Headers(s.cursor.total)])
                           + [Chunk(s.cursor.next, env.disk[s.cursor.next..n])]
  {
    hide Fail, EndedBy, NextReadSize;
    FailEnds(s1, 500, env);
    SameEnd(s, s1, 500, env);
    var data := Pread(env.disk, s.cursor.next, Wanted(s));
    var s2 := Marked(s1, s.cursor.next, |data|);
    FailEnds(s2, 500, env);
    SameEnd(s, s2, 500, env);
  }

  /** A response whose file has been delivered ends well, unless its headers have to go out now and cannot be built. */
  lemma CompleteOutcome(s: Stream, env: Env)
    requires Inv(s) && Running(s) && s.cursor.total >= 0 && !s.writeInFlight && s.cursor.next == s.cursor.total
    ensures var s' := TryRead(s, env);
            if !s.headersSent && !env.headersFit then EndedBy(s, s', 500, env)
            else s'.completedOk && s'.finished
                 && s'.out == s.out + (if s.headersSent then [] else [Headers(s.cursor.total)]) + [Ok]
  {
    hide Fail, EndedBy, Tiles, Body, RefsOk, Shape;
    NotYetOk(s);
    FailEnds(s, 500, env);
    assert s.out + [] == s.out;
  }

  // ---------- The announcement of a file ----------

  /**
   Why an announcement is refused: its numbers make no sense, the file is larger than is allowed, the progress does not
   lie within the file, or the download is called complete but is not all there. 0 stands for none of these.
   */
  function AnnouncementError(cfg: Config, fileId: int, total: int, p: Progress): int {
    if fileId <= 0 || total < 0 then 500
    else if total > cfg.sizeMax || (cfg.maxSize > 0 && total > cfg.maxSize) then 413
    else if p.offset < 0 || p.prefix < 0 || p.offset + p.prefix > total then 502
    else if p.completed && (if p.offset == 0 then p.prefix else 0) < total then 502
    else 0
  }

  /** An announcement is refused exactly for these reasons; otherwise its size and its path are taken on. */
  lemma AnnouncementOutcome(s: Stream, fileId: int, total: int, p: Progress, env: Env)
    requires Inv(s) && Running(s) && s.cursor.total < 0 && Good(s.cfg, env, total)
    ensures var s', code := OnFileReady(s, fileId, total, p, env), AnnouncementError(s.cfg, fileId, total, p);
            if code != 0 then EndedBy(s, s', code, env) && !s.headersSent
            else GoesOn(s') && s'.cursor.total == total && (p.path != "" ==> s'.path == p.path)
  {
    hide Inv, Fail, TryRead, EndedBy, GoesOn, Good, Adopt;
    NotYetOk(s);
    Unannounced(s);
    CursorUnknown(s);
    FailEnds(s, 500, env);
    if fileId > 0 && 0 <= total {
      ReadyForReport(s, fileId, total, p.path);
      AdoptTakes(s.(fileId := fileId), p.path);
      var s1 := Adopt(s.(fileId := fileId), p.path);
      FailEnds(s1, 413, env);
      SameEnd(s, s1, 413, env);
      AnnouncedOutcome(s, s1.(cursor := s1.cursor.(total := total)), p, env);
    }
  }

  lemma CursorUnknown(s: Stream)
    requires Inv(s) && s.cursor.total < 0
    ensures s.cursor.next == 0 == s.cursor.end
  {
    hide Tiles, Body, RefsOk, Shape, Flight;
  }

  lemma AdoptTakes(s: Stream, path: Path)
    ensures var s1 := Adopt(s, path); s1 == s.(path := s1.path, refs := s1.refs)
    ensures Adopt(s, path).path == if path != "" then path else s.path
  {
    hide HandedOn;
    if path == "" || s.path == path {
      assert Adopt(s, path) == s;
    } else {
      assert Adopt(s, path) == s.(path := path, refs := HandedOn(s.refs, s.path, path, s.cfg.hasCleanup));
    }
  }

  lemma SameEnd(s: Stream, s1: Stream, code: int, env: Env)
    requires s1.out == s.out && s1.headersSent == s.headersSent && EndedBy(s1, Fail(s1, code, env), code, env)
    ensures EndedBy(s, Fail(s1, code, env), code, env)
  {
  }

  lemma AnnouncedOutcome(s: Stream, s2: Stream, p: Progress, env: Env)
    requires Inv(s2) && Running(s2) && s2.out == s.out == [] && !s2.headersSent && !s.headersSent
    requires !s2.downloadCompleted && s2.cursor.total >= 0 && s2.cursor.next == 0 == s2.cursor.end
    requires Good(s2.cfg, env, s2.cursor.total)
    ensures var s', total := Announced(s2, p, env), s2.cursor.total;
            if p.offset < 0 || p.prefix < 0 || p.offset + p.prefix > total
               || (p.completed && (if p.offset == 0 then p.prefix else 0) < total)
            then EndedBy(s, s', 502, env)
            else GoesOn(s') && s'.cursor.total == total && s'.path == s2.path
  {
    hide Inv, Fail, TryRead, EndedBy, GoesOn;
    NotYetOk(s2);
    FailEnds(s2, 502, env);
    SameEnd(s, s2, 502, env);
    if Consistent(s2.cursor, p.offset, p.prefix) {
      var s3 := s2.(cursor := Advanced(s2.cursor, p.offset, p.prefix, p.completed), downloadCompleted := p.completed);
      FailEnds(s3, 502, env);
      SameEnd(s, s3, 502, env);
      if !(p.completed && s3.cursor.end < s3.cursor.total) {
        AdvancedHolds(s2, s3, p);
        TryReadGoesOn(s3, env);
      }
    }
  }

  lemma AdvancedHolds(s2: Stream, s3: Stream, p: Progress)
    requires Inv(s2) && Running(s2) && s2.out == [] && !s2.headersSent && !s2.downloadCompleted
    requires Consistent(s2.cursor, p.offset, p.prefix)
    requires s3 == s2.(cursor := Advanced(s2.cursor, p.offset, p.prefix, p.completed), downloadCompleted := p.completed)
    requires p.completed ==> s3.cursor.end == s3.cursor.total
    ensures Inv(s3) && s3.cursor.end <= s3.cursor.total
  {
    hide Tiles, Body, RefsOk;
  }

  // ---------- Later reports ----------

  /**
   Why a later report is refused: it states another size, its progress does not lie within the file, the download has
   become inactive before its end although delivery has begun, or it is called complete but is not all there.
   */
  function ReportError(s: Stream, total: int, p: Progress, active: bool): int {
    if total > 0 && total != s.cursor.total then 502
    else if p.offset < 0 || p.prefix < 0 || p.offset + p.prefix > s.cursor.total then 500
    else if !active && !p.completed && s.cursor.next > 0 then 502
    else if p.completed && !s.downloadCompleted
            && Max(s.cursor.end, if p.offset == 0 then p.prefix else 0) < s.cursor.total then 502
    else 0
  }

  /** A later report is refused exactly for these reasons. */
  lemma ReportOutcome(s: Stream, total: int, p: Progress, active: bool, env: Env)
    requires Inv(s) && Running(s) && s.cursor.total >= 0 && Good(s.cfg, env, s.cursor.total)
    ensures var s', code := OnFileProgress(s, total, p, active, env), ReportError(s, total, p, active);
            if code != 0 then EndedBy(s, s', code, env)
            else GoesOn(s') && s'.cursor.total == s.cursor.total && s'.downloadCompleted == p.completed
                 && (p.path != "" ==> s'.path == p.path)
                 && (s'.redownloadRequested <==>
                       s.redownloadRequested || (s.downloadCompleted && !p.completed && s.fileId > 0 && s.hasClient))
  {
    hide Inv, Fail, TryRead, EndedBy, GoesOn, Good;
    NotYetOk(s);
    FailEnds(s, 502, env);
    CursorFacts(s);
    ReportedFields(s, p);
    RefreshedKeeps(s, p);
    ReportedOutcome(s, Refreshed(s, p), p, active, env);
  }

  lemma CursorFacts(s: Stream)
    requires Inv(s) && Running(s) && s.cursor.total >= 0
    ensures s.firstByteSent <==> s.cursor.next > 0
    ensures s.cursor.end <= s.cursor.total && (s.downloadCompleted ==> s.cursor.end == s.cursor.total)
  {
    hide Tiles, Body, RefsOk, Shape, Flight;
  }

  lemma ReportedFields(s: Stream, p: Progress)
    ensures var s1 := Refreshed(s, p);
            && SameResponse(s, s1) && s1.cursor.total == s.cursor.total && s1.cursor.next == s.cursor.next
            && (p.completed ==> s1.cursor == s.cursor) && s1.downloadCompleted == (s.downloadCompleted && p.completed)
            && s1.path == (if p.path != "" then p.path else s.path)
            && (s1.redownloadRequested <==>
                  s.redownloadRequested || (s.downloadCompleted && !p.completed && s.fileId > 0 && s.hasClient))
  {
    hide Moved, Redownload, SameResponse;
    MovedFields(s, p.path);
    RevokedFields(Moved(s, p.path));
    SameTwice(s, Moved(s, p.path), Redownload(DropStale(Moved(s, p.path))));
  }

  lemma SameTwice(s: Stream, s1: Stream, s2: Stream)
    requires SameResponse(s, s1) && SameResponse(s1, s2)
    ensures SameResponse(s, s2) && s1.fileId == s.fileId && s1.hasClient == s.hasClient
  {
  }

  /** What a report leaves alone before its progress is taken on. */
  predicate SameResponse(s: Stream, s1: Stream) {
    && s1.out == s.out && s1.headersSent == s.headersSent && s1.firstByteSent == s.firstByteSent && s1.cfg == s.cfg
    && s1.fileId == s.fileId && s1.hasClient == s.hasClient
  }

  lemma MovedFields(s: Stream, path: Path)
    ensures var s1 := Moved(s, path);
            && SameResponse(s, s1) && s1.cursor == s.cursor && s1.downloadCompleted == s.downloadCompleted
            && s1.redownloadRequested == s.redownloadRequested && s1.path == if path != "" then path else s.path
  {
    hide Adopt;
    AdoptTakes(s.(isOpen := false), path);
  }

  lemma RevokedFields(s: Stream)
    ensures var s1 := Redownload(DropStale(s));
            && SameResponse(s, s1) && s1.cursor == DropStale(s).cursor && !s1.downloadCompleted && s1.path == s.path
            && (s1.redownloadRequested <==> s.redownloadRequested || (s.fileId > 0 && s.hasClient))
  {
  }

  lemma ReportedOutcome(s: Stream, s1: Stream, p: Progress, active: bool, env: Env)
    requires Inv(s1) && Running(s1) && s1.out == s.out && s1.headersSent == s.headersSent && s1.cursor.total >= 0
    requires Good(s1.cfg, env, s1.cursor.total) && (s1.firstByteSent <==> s1.cursor.next > 0)
    requires s1.downloadCompleted ==> p.completed && s1.cursor.end == s1.cursor.total
    requires s1.cursor.end <= s1.cursor.total
    ensures var s', total := Reported(s1, p, active, env), s1.cursor.total;
            if p.offset < 0 || p.prefix < 0 || p.offset + p.prefix > total then EndedBy(s, s', 500, env)
            else if !active && !p.completed && s1.cursor.next > 0 then EndedBy(s, s', 502, env)
            else if p.completed && !s1.downloadCompleted
                    && Max(s1.cursor.end, if p.offset == 0 then p.prefix else 0) < total then EndedBy(s, s', 502, env)
            else GoesOn(s') && s'.cursor.total == total && s'.downloadCompleted == p.completed && s'.path == s1.path
                 && s'.redownloadRequested == s1.redownloadRequested
  {
    hide Inv, Fail, TryRead, EndedBy, GoesOn;
    NotYetOk(s1);
    FailEnds(s1, 500, env);
    SameEnd(s, s1, 500, env);
    if Consistent(s1.cursor, p.offset, p.prefix) {
      var s2 := Extended(s1, p);
      FailEnds(s2, 502, env);
      SameEnd(s, s2, 502, env);
      if !(s2.downloadCompleted && s2.cursor.end < s2.cursor.total) {
        ExtendedHolds(s1, p);
        TryReadGoesOn(s2, env);
      }
    }
  }

  lemma ExtendedHolds(s1: Stream, p: Progress)
    requires Inv(s1) && Running(s1) && Consistent(s1.cursor, p.offset, p.prefix)
    requires Extended(s1, p).downloadCompleted ==> Extended(s1, p).cursor.end >= s1.cursor.total
    ensures Inv(Extended(s1, p)) && Extended(s1, p).cursor.end <= s1.cursor.total
  {
    hide Tiles, Body, RefsOk, Shape;
  }

  // ---------- Errors ----------

  /** The status of an error is its own if it is an error status, and 502 otherwise; silence is a 504. */
  lemma ErrorOutcome(s: Stream, input: Input)
    requires Inv(s) && Running(s) && Admissible(s, input)
    requires input.FileError? || input.Timeout? || ((input.ChunkFlushed? || input.HeadersFlushed?) && !input.ok)
    ensures var code := if input.Timeout? then 504 else if 400 <= input.code <= 599 then input.code else 502;
            EndedBy(s, Step(s, input), code, input.env)
  {
    hide Inv, Fail, EndedBy;
    NotYetOk(s);
    if input.ChunkFlushed? {
      FlushErrorEnds(s, HttpError(input.code), input.env);
    } else {
      FailEnds(s, if input.Timeout? then 504 else HttpError(input.code), input.env);
    }
  }

  lemma FlushErrorEnds(s: Stream, code: int, env: Env)
    requires Running(s) && !s.completedOk
    ensures EndedBy(s, Fail(s.(writeInFlight := false), code, env), code, env)
  {
    hide Fail, EndedBy;
    var s1 := s.(writeInFlight := false);
    FailEnds(s1, code, env);
    SameEnd(s, s1, code, env);
  }

  // ---------- How much a response announces ----------

  /** The size of the file, what is allowed and whether there is a client are as they were. */
  predicate SameSize(s: Stream, s': Stream) {
    s'.cfg == s.cfg && s'.cursor.total == s.cursor.total && s'.hasClient == s.hasClient
  }

  predicate Allowed(cfg: Config, total: int) {
    total < 0 || (total <= cfg.sizeMax && (cfg.maxSize > 0 ==> total <= cfg.maxSize))
  }

  lemma FailSameSize(s: Stream, code: int, env: Env)
    ensures SameSize(s, Fail(s, code, env))
  {
    hide TornDown;
    TornDownSameSize(s.(finished := true, out := s.out + [Error]));
    TornDownSameSize(s.(finished := true, out := s.out + (if env.jsonFits then [Json(code), Ok] else [Error])));
  }

  lemma TornDownSameSize(s: Stream)
    ensures SameSize(s, TornDown(s))
  {
  }

  lemma FinishSameSize(s: Stream, env: Env)
    ensures SameSize(s, Finish(s, env))
  {
    hide Fail;
    FailSameSize(s, 500, env);
  }

  lemma WriteSameSize(s: Stream, offset: int, data: Bytes, env: Env)
    ensures SameSize(s, OnFileData(s, offset, data, env))
  {
    hide Fail, Write, NextReadSize;
    var s1 := s.(readInFlight := false);
    FailSameSize(s1, 500, env);
    SentSameSize(s1, offset, data, env);
  }

  lemma SentSameSize(s: Stream, offset: int, data: Bytes, env: Env)
    ensures SameSize(s, Write(s, offset, data, env))
  {
    hide SendHeaders;
    HeadersSameSize(Marked(s, offset, |data|), env);
  }

  lemma HeadersSameSize(s: Stream, env: Env)
    ensures SameSize(s, SendHeaders(s, env).0)
  {
    hide Fail;
    FailSameSize(s, 500, env);
  }

  lemma ReadSameSize(s: Stream, count: nat, env: Env)
    ensures SameSize(s, Read(s, count, env))
  {
    hide Fail, OnFileData;
    FailSameSize(s, 500, env);
    WriteSameSize(s.(readInFlight := true), s.cursor.next, Pread(env.disk, s.cursor.next, count), env);
  }

  lemma NotThereSameSize(s: Stream, env: Env)
    ensures SameSize(s, NotThere(s, env))
  {
    hide Fail;
    FailSameSize(s, 500, env);
  }

  lemma TryReadSameSize(s: Stream, env: Env)
    ensures SameSize(s, TryRead(s, env))
  {
    hide Finish, Read, NotThere;
    FinishSameSize(s, env);
    NotThereSameSize(s, env);
    ReadSameSize(s.(isOpen := true), NextReadSize(s.cursor, ChunkSize(s.cfg)), env);
  }

  lemma SizedAllowed(s: Stream, total: int, p: Progress, env: Env)
    requires Allowed(s.cfg, s.cursor.total)
    ensures var s' := Sized(s, total, p, env);
            s'.cfg == s.cfg && s'.hasClient == s.hasClient && Allowed(s.cfg, s'.cursor.total)
  {
    hide Fail, TryRead;
    FailSameSize(s, 413, env);
    var s1 := s.(cursor := s.cursor.(total := total));
    FailSameSize(s1, 502, env);
    var s2 := s1.(cursor := Advanced(s1.cursor, p.offset, p.prefix, p.completed), downloadCompleted := p.completed);
    FailSameSize(s2, 502, env);
    TryReadSameSize(s2, env);
  }

  lemma ReportSameSize(s: Stream, total: int, p: Progress, active: bool, env: Env)
    ensures SameSize(s, OnFileProgress(s, total, p, active, env))
  {
    hide Fail, Refreshed, Reported;
    FailSameSize(s, 502, env);
    ReportedFields(s, p);
    ExtendedSameSize(Refreshed(s, p), p, active, env);
  }

  lemma ExtendedSameSize(s: Stream, p: Progress, active: bool, env: Env)
    ensures SameSize(s, Reported(s, p, active, env))
  {
    hide Fail, TryRead;
    FailSameSize(s, 500, env);
    FailSameSize(Extended(s, p), 502, env);
    TryReadSameSize(Extended(s, p), env);
  }

  lemma FlushSameSize(s: Stream, ok: bool, code: int, env: Env)
    ensures SameSize(s, OnChunkFlushed(s, ok, code, env))
  {
    hide Fail, TryRead;
    var s1 := s.(writeInFlight := false);
    FailSameSize(s1, HttpError(code), env);
    FailSameSize(Unmarked(s1), 500, env);
    if Fits(s1.cursor, s1.pendingOffset, s1.pendingSize) {
      TryReadSameSize(Committed(s1), env);
    }
  }

  lemma ReadyAllowed(s: Stream, fileId: int, total: int, p: Progress, env: Env)
    requires Allowed(s.cfg, s.cursor.total)
    ensures var s' := OnFileReady(s, fileId, total, p, env);
            s'.cfg == s.cfg && s'.hasClient == s.hasClient && Allowed(s.cfg, s'.cursor.total)
  {
    hide Fail, Sized, Adopt, Allowed;
    FailSameSize(s, 500, env);
    AdoptTakes(s.(fileId := fileId), p.path);
    SizedAllowed(Adopt(s.(fileId := fileId), p.path), total, p, env);
  }

  lemma StepAllowed(s: Stream, input: Input)
    requires Allowed(s.cfg, s.cursor.total)
    ensures Step(s, input).cfg == s.cfg && Allowed(s.cfg, Step(s, input).cursor.total)
    ensures Step(s, input).hasClient <==> s.hasClient || (input.SetClient? && !s.tornDown)
  {
    hide Fail, OnFileReady, OnFileProgress, OnChunkFlushed;
    match input
    case FileReady(fileId, total, p, env) => ReadyAllowed(s, fileId, total, p, env);
    case FileProgress(total, p, active, env) => ReportSameSize(s, total, p, active, env);
    case ChunkFlushed(ok, code, env) => FlushSameSize(s, ok, code, env);
    case HeadersFlushed(ok, code, env) => FailSameSize(s, HttpError(code), env);
    case FileError(code, env) => FailSameSize(s, HttpError(code), env);
    case Timeout(env) => FailSameSize(s, 504, env);
    case _ =>
  }

  lemma {:induction false} RunAllowed(s: Stream, inputs: seq<Input>)
    requires Allowed(s.cfg, s.cursor.total) && AdmissibleRun(s, inputs)
    ensures Run(s, inputs).cfg == s.cfg && Allowed(s.cfg, Run(s, inputs).cursor.total)
    decreases |inputs|
  {
    hide Step, Allowed;
    if inputs != [] {
      StepAllowed(s, inputs[0]);
      RunAllowed(Step(s, inputs[0]), inputs[1..]);
    }
  }

  /** In no run does a response announce a file larger than is allowed. */
  lemma AnnouncesWhatIsAllowed(s: Stream, cfg: Config, inputs: seq<Input>, i: nat)
    requires Reached(s, cfg, inputs) && i < |s.out| && s.out[i].Headers?
    ensures 0 <= s.out[i].size <= cfg.sizeMax && (cfg.maxSize > 0 ==> s.out[i].size <= cfg.maxSize)
  {
    hide Run;
    HeadersOrJson(s, cfg, inputs, i);
    RunAllowed(Init(cfg), inputs);
  }
}
