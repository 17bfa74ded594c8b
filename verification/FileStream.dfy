/**
 The file streaming connection as the object it is: callbacks that update its fields in place. Each callback is proved
 to do what the state machine says.
 */
module FileStream {
  import opened Common
  import opened FileStreamSpec
  import opened FileStreamSafety

  class FileStreamCursor {
    var totalSize: int
    var nextOffset: nat
    var contiguousEnd: int

    ghost function Value(): Cursor
      reads this
    {
      Cursor(totalSize, nextOffset, contiguousEnd)
    }

    constructor ()
      ensures Value() == Cursor(-1, 0, 0)
    {
      totalSize, nextOffset, contiguousEnd := -1, 0, 0;
    }

    /** The prefix only grows, except that a complete file ends where its size says. */
    method UpdateProgress(downloadOffset: int, downloadedPrefixSize: int, isCompleted: bool) returns (ok: bool)
      modifies this`contiguousEnd
      ensures ok <==> Consistent(old(Value()), downloadOffset, downloadedPrefixSize)
      ensures Value() == if ok then Advanced(old(Value()), downloadOffset, downloadedPrefixSize, isCompleted)
                         else old(Value())
    {
      if totalSize < 0 || downloadOffset < 0 || downloadedPrefixSize < 0 || downloadOffset > totalSize
         || downloadedPrefixSize > totalSize - downloadOffset {
        return false;
      }
      if downloadOffset == 0 && downloadedPrefixSize > contiguousEnd {
        contiguousEnd := downloadedPrefixSize;
      }
      if isCompleted && downloadOffset == 0 && downloadedPrefixSize == totalSize {
        contiguousEnd := totalSize;
      }
      return true;
    }

    /** The largest read of at most a chunk that could be committed next; 0 when there is none. */
    method ReadSize(chunkSize: int) returns (count: int)
      ensures count == NextReadSize(Value(), chunkSize)
      ensures count == 0 || (0 < count <= chunkSize && Fits(Value(), nextOffset, count))
      ensures forall k | totalSize >= 0 && k <= chunkSize && Fits(Value(), nextOffset, k) :: k <= count
    {
      if chunkSize <= 0 || totalSize < 0 || nextOffset >= totalSize || nextOffset >= contiguousEnd {
        return 0;
      }
      count := Min(chunkSize, Min(contiguousEnd - nextOffset, totalSize - nextOffset));
    }

    method Commit(offset: int, size: int) returns (ok: bool)
      modifies this`nextOffset
      ensures ok <==> Fits(old(Value()), offset, size)
      ensures nextOffset == if ok then old(nextOffset) + size else old(nextOffset)
    {
      if offset != nextOffset || size <= 0 || size > contiguousEnd - nextOffset || size > totalSize - nextOffset {
        return false;
      }
      nextOffset := nextOffset + size;
      return true;
    }
  }

  class FileStreamConnection {
    const cfg: Config
    const cursor: FileStreamCursor

    var hasClient: bool
    var fileId: int
    var localPath: Path
    var isOpen: bool
    var headersSent: bool
    var readInFlight: bool
    var writeInFlight: bool
    var downloadCompleted: bool
    var firstByteSent: bool
    var completedOk: bool
    var redownloadRequested: bool
    var pendingWriteOffset: int
    var pendingWriteSize: int
    var finished: bool

    ghost var tornDown: bool
    ghost var out: seq<Output>
    ghost var refs: seq<Reference>

    ghost function Abs(): Stream
      reads this, cursor
    {
      Stream(cfg, hasClient, fileId, localPath, isOpen, cursor.Value(), headersSent, readInFlight, writeInFlight,
             downloadCompleted, firstByteSent, completedOk, redownloadRequested, pendingWriteOffset, pendingWriteSize,
             finished, tornDown, out, refs)
    }

    constructor (cfg: Config)
      ensures fresh(cursor) && Abs() == Init(cfg) && Inv(Abs())
    {
      this.cfg := cfg;
      hasClient, fileId, localPath, isOpen := false, 0, "", false;
      cursor := new FileStreamCursor();
      headersSent, readInFlight, writeInFlight, downloadCompleted := false, false, false, false;
      firstByteSent, completedOk, redownloadRequested := false, false, false;
      pendingWriteOffset, pendingWriteSize, finished := -1, 0, false;
      tornDown, out, refs := false, [], [];
    }

    // ---------- finish, fail, abort ----------

    method TearDown()
      modifies this`isOpen, this`tornDown, this`refs
      ensures Abs() == TornDown(old(Abs()))
    {
      isOpen := false;
      if localPath != "" && cfg.hasCleanup {
        refs := refs + [Release(localPath)];
      }
      tornDown := true;
    }

    /** `fail` and `abort` call each other; whether the headers were sent decides where that ends. */
    method Fail(code: int, env: Env)
      modifies this`finished, this`out, this`isOpen, this`tornDown, this`refs
      ensures Abs() == FileStreamSpec.Fail(old(Abs()), code, env)
      decreases if headersSent then 1 else 0
    {
      if finished {
        return;
      }
      if headersSent {
        Abort(code, env);
        return;
      }
      finished := true;
      if env.jsonFits {
        out := out + [Json(code), Ok];
      } else {
        out := out + [Error];
      }
      TearDown();
    }

    method Abort(error: int, env: Env)
      modifies this`finished, this`out, this`isOpen, this`tornDown, this`refs
      ensures Abs() == FileStreamSpec.Abort(old(Abs()), error, env)
      decreases if headersSent then 0 else 1
    {
      if finished {
        return;
      }
      var code := error;
      if code < 400 || code > 599 {
        code := 502;
      }
      if !headersSent {
        Fail(code, env);
        return;
      }
      finished := true;
      out := out + [Error];
      TearDown();
    }

    method OnFileError(error: int, env: Env)
      modifies this`finished, this`out, this`isOpen, this`tornDown, this`refs
      ensures Abs() == FileStreamSpec.OnFileError(old(Abs()), error, env)
    {
      if finished {
        return;
      }
      var code := error;
      if code < 400 || code > 599 {
        code := 502;
      }
      if !headersSent {
        Fail(code, env);
      } else {
        Abort(error, env);
      }
    }

    method SendHeaders(env: Env) returns (ok: bool)
      modifies this`headersSent, this`finished, this`out, this`isOpen, this`tornDown, this`refs
      ensures (Abs(), ok) == FileStreamSpec.SendHeaders(old(Abs()), env)
    {
      hide FileStreamSpec.Fail;
      if headersSent {
        return true;
      }
      if !env.headersFit {
        Fail(500, env);
        return false;
      }
      headersSent := true;
      out := out + [Headers(cursor.totalSize)];
      return true;
    }

    method Finish(env: Env)
      modifies this
      ensures Abs() == FileStreamSpec.Finish(old(Abs()), env)
    {
      hide FileStreamSpec.Fail, FileStreamSpec.SendHeaders, WellEnded;
      if finished {
        return;
      }
      if !(cursor.totalSize >= 0 && cursor.nextOffset == cursor.totalSize) || readInFlight || writeInFlight {
        Abort(500, env);
        return;
      }
      var ok := SendHeaders(env);
      if !ok {
        return;
      }
      EndWell();
    }

    method EndWell()
      modifies this
      ensures Abs() == WellEnded(old(Abs()))
    {
      hide TornDown;
      finished := true;
      completedOk := true;
      out := out + [Ok];
      TearDown();
    }

    // ---------- try_read ----------

    method OnFileData(offset: int, data: Bytes, env: Env)
      modifies this
      ensures Abs() == FileStreamSpec.OnFileData(old(Abs()), offset, data, env)
    {
      hide FileStreamSpec.Fail, FileStreamSpec.Write, NextReadSize;
      readInFlight := false;
      if finished {
        return;
      }
      var expectedSize := cursor.ReadSize(Min(cfg.chunkSize, cfg.highWatermark));
      if |data| != expectedSize || data == [] {
        Abort(500, env);
        return;
      }
      Write(offset, data, env);
    }

    method Write(offset: int, data: Bytes, env: Env)
      modifies this
      ensures Abs() == FileStreamSpec.Write(old(Abs()), offset, data, env)
    {
      hide FileStreamSpec.SendHeaders, Marked;
      MarkPending(offset, |data|);
      var ok := SendHeaders(env);
      if !ok {
        return;
      }
      out := out + [Chunk(offset, data)];
    }

    method MarkPending(offset: int, size: int)
      modifies this`writeInFlight, this`pendingWriteOffset, this`pendingWriteSize
      ensures Abs() == Marked(old(Abs()), offset, size)
    {
      writeInFlight := true;
      pendingWriteOffset := offset;
      pendingWriteSize := size;
    }

    method DropStaleDownloadState()
      modifies this`downloadCompleted, this`isOpen, cursor`contiguousEnd
      ensures Abs() == DropStale(old(Abs()))
    {
      downloadCompleted := false;
      isOpen := false;
      if cursor.nextOffset == 0 {
        cursor.contiguousEnd := 0;
      }
    }

    method RequestFileRedownload()
      modifies this`redownloadRequested
      ensures Abs() == Redownload(old(Abs()))
    {
      if redownloadRequested || fileId <= 0 || !hasClient {
        return;
      }
      redownloadRequested := true;
    }

    /** The local file is opened unless it is open; the flag tells whether it can be read. */
    method OpenLocalFile(env: Env) returns (ok: bool)
      modifies this, cursor`contiguousEnd
      ensures ok == (old(isOpen) || env.opens)
      ensures Abs() == if ok then old(Abs()).(isOpen := true) else NotThere(old(Abs()), env)
    {
      hide FileStreamSpec.Fail, Redownload, DropStale;
      if isOpen {
        return true;
      }
      if !env.opens {
        if !downloadCompleted {
          return false;
        }
        if firstByteSent {
          Abort(500, env);
          return false;
        }
        DropStaleDownloadState();
        RequestFileRedownload();
        return false;
      }
      isOpen := true;
      return true;
    }

    method ReadChunk(count: nat, env: Env)
      requires !readInFlight
      modifies this
      ensures Abs() == Read(old(Abs()), count, env)
    {
      hide FileStreamSpec.Abort, FileStreamSpec.OnFileData, FileStreamSpec.ShortRead, Pread;
      readInFlight := true;
      if env.readFails {
        readInFlight := false;
        Abort(500, env);
        return;
      }
      var data := Pread(env.disk, cursor.nextOffset, count);
      if |data| != count {
        ShortRead(env);
        return;
      }
      OnFileData(cursor.nextOffset, data, env);
    }

    method ShortRead(env: Env)
      modifies this
      ensures Abs() == FileStreamSpec.ShortRead(old(Abs()).(readInFlight := false), env)
    {
      hide FileStreamSpec.Abort;
      readInFlight := false;
      if !downloadCompleted {
        isOpen := false;
        return;
      }
      Abort(500, env);
    }

    method TryRead(env: Env)
      modifies this, cursor`contiguousEnd
      ensures Abs() == FileStreamSpec.TryRead(old(Abs()), env)
    {
      hide FileStreamSpec.Finish, Read, NotThere;
      if finished || readInFlight || writeInFlight || cursor.totalSize < 0 {
        return;
      }
      if cursor.totalSize >= 0 && cursor.nextOffset == cursor.totalSize {
        Finish(env);
        return;
      }
      var count := cursor.ReadSize(Min(cfg.chunkSize, cfg.highWatermark));
      if count == 0 || localPath == "" {
        return;
      }
      var ok := OpenLocalFile(env);
      if ok {
        ReadChunk(count, env);
      }
    }

    // ---------- Reports of TDLib ----------

    method AdoptPath(path: Path)
      modifies this`localPath, this`refs
      ensures Abs() == Adopt(old(Abs()), path)
    {
      if path == "" || localPath == path {
        return;
      }
      ghost var let := if localPath != "" then [Release(localPath)] else [];
      if localPath != "" && cfg.hasCleanup {
        refs := refs + [Release(localPath)];
      }
      localPath := path;
      if cfg.hasCleanup {
        refs := refs + [Retain(path)];
        assert refs == old(refs) + let + [Retain(path)];
      }
    }

    method OnFileReady(newFileId: int, totalSize: int, p: Progress, env: Env)
      modifies this, cursor
      ensures Abs() == FileStreamSpec.OnFileReady(old(Abs()), newFileId, totalSize, p, env)
    {
      hide FileStreamSpec.Fail, Adopt, FileStreamSpec.Sized;
      if finished {
        return;
      }
      if newFileId <= 0 || totalSize < 0 {
        Fail(500, env);
        return;
      }
      fileId := newFileId;
      AdoptPath(p.path);
      Sized(totalSize, p, env);
    }

    method Sized(totalSize: int, p: Progress, env: Env)
      modifies this, cursor
      ensures Abs() == FileStreamSpec.Sized(old(Abs()), totalSize, p, env)
    {
      hide FileStreamSpec.Fail, Announced;
      if totalSize > cfg.sizeMax {
        Fail(413, env);
        return;
      }
      if cfg.maxSize > 0 && totalSize > cfg.maxSize {
        Fail(413, env);
        return;
      }
      cursor.totalSize := totalSize;
      FirstReport(p, env);
    }

    method FirstReport(p: Progress, env: Env)
      modifies this, cursor
      ensures Abs() == Announced(old(Abs()), p, env)
    {
      hide FileStreamSpec.Fail, FileStreamSpec.TryRead, Advanced, Consistent;
      var ok := cursor.UpdateProgress(p.offset, p.prefix, p.completed);
      if !ok {
        Fail(502, env);
        return;
      }
      downloadCompleted := p.completed;
      if downloadCompleted && cursor.contiguousEnd < cursor.totalSize {
        Fail(502, env);
        return;
      }
      TryRead(env);
    }

    method OnFileProgress(reportedTotalSize: int, p: Progress, active: bool, env: Env)
      modifies this, cursor
      ensures Abs() == FileStreamSpec.OnFileProgress(old(Abs()), reportedTotalSize, p, active, env)
    {
      hide FileStreamSpec.Fail, Refreshed, Reported;
      if finished || cursor.totalSize < 0 {
        return;
      }
      if reportedTotalSize > 0 && reportedTotalSize != cursor.totalSize {
        Abort(502, env);
        return;
      }
      Refresh(p);
      LaterReport(p, active, env);
    }

    method Refresh(p: Progress)
      modifies this, cursor
      ensures Abs() == Refreshed(old(Abs()), p)
    {
      hide Moved, DropStale, Redownload;
      MoveTo(p.path);
      if downloadCompleted && !p.completed {
        DropStaleDownloadState();
        RequestFileRedownload();
      }
    }

    method MoveTo(path: Path)
      modifies this`localPath, this`refs, this`isOpen
      ensures Abs() == Moved(old(Abs()), path)
    {
      hide Adopt;
      if path != "" && localPath != path {
        isOpen := false;
        AdoptPath(path);
      }
    }

    method Extend(p: Progress) returns (ok: bool)
      modifies this`downloadCompleted, cursor`contiguousEnd
      ensures ok <==> Consistent(old(Abs()).cursor, p.offset, p.prefix)
      ensures Abs() == if ok then Extended(old(Abs()), p) else old(Abs())
    {
      hide Advanced, Consistent;
      ok := cursor.UpdateProgress(p.offset, p.prefix, p.completed);
      if ok {
        downloadCompleted := downloadCompleted || p.completed;
      }
    }

    method LaterReport(p: Progress, active: bool, env: Env)
      modifies this, cursor
      ensures Abs() == Reported(old(Abs()), p, active, env)
    {
      hide FileStreamSpec.Fail, FileStreamSpec.TryRead, Extended, Consistent;
      var ok := Extend(p);
      if !ok {
        Abort(500, env);
        return;
      }
      if !active && !downloadCompleted && firstByteSent {
        Abort(502, env);
        return;
      }
      if downloadCompleted && cursor.contiguousEnd < cursor.totalSize {
        Abort(502, env);
        return;
      }
      TryRead(env);
    }

    // ---------- Reports of the connection ----------

    method OnChunkFlushed(result: bool, error: int, env: Env)
      modifies this, cursor
      ensures Abs() == FileStreamSpec.OnChunkFlushed(old(Abs()), result, error, env)
    {
      hide FileStreamSpec.Fail, FileStreamSpec.CommitPending;
      writeInFlight := false;
      if finished {
        return;
      }
      if !result {
        Abort(error, env);
        return;
      }
      CommitPending(env);
    }

    method CommitPending(env: Env)
      modifies this, cursor
      ensures Abs() == FileStreamSpec.CommitPending(old(Abs()), env)
    {
      hide FileStreamSpec.Abort, FileStreamSpec.TryRead, Unmarked, Committed, Fits;
      var ok := Commit();
      if !ok {
        Abort(500, env);
        return;
      }
      TryRead(env);
    }

    method Commit() returns (ok: bool)
      modifies this`pendingWriteOffset, this`pendingWriteSize, this`firstByteSent, cursor`nextOffset
      ensures ok <==> Fits(old(Abs()).cursor, old(Abs()).pendingOffset, old(Abs()).pendingSize)
      ensures Abs() == if ok then Committed(old(Abs())) else Unmarked(old(Abs()))
    {
      hide Fits;
      ok := cursor.Commit(pendingWriteOffset, pendingWriteSize);
      pendingWriteOffset := -1;
      pendingWriteSize := 0;
      firstByteSent := firstByteSent || ok;
    }

    method OnHeadersFlushed(result: bool, error: int, env: Env)
      modifies this
      ensures Abs() == FileStreamSpec.OnHeadersFlushed(old(Abs()), result, error, env)
    {
      if finished || result {
        return;
      }
      Abort(error, env);
    }

    /** The runtime hands a callback to the actor as long as it has not been torn down. */
    method Receive(input: Input)
      requires Inv(Abs()) && Admissible(Abs(), input) && !tornDown
      modifies this, cursor
      ensures Inv(Abs()) && Abs() == Step(old(Abs()), input)
    {
      hide FileStreamSpec.OnFileReady, FileStreamSpec.OnFileProgress, FileStreamSpec.OnChunkFlushed,
        FileStreamSpec.OnHeadersFlushed, FileStreamSpec.OnFileError, TornDown, Inv, Admissible;
      StepKeeps(Abs(), input);
      match input
      case SetClient => hasClient := true;
      case FileReady(id, total, p, env) => OnFileReady(id, total, p, env);
      case FileProgress(total, p, active, env) => OnFileProgress(total, p, active, env);
      case ChunkFlushed(ok, code, env) => OnChunkFlushed(ok, code, env);
      case HeadersFlushed(ok, code, env) => OnHeadersFlushed(ok, code, env);
      case FileError(code, env) => OnFileError(code, env);
      case Timeout(env) => OnFileError(504, env);
      case Hangup => TearDown();
    }
  }
}
