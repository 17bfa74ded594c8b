/**
 The file streaming connection as a state machine: what each callback of the actor does to its fields, to the
 response it writes and to the references it takes on local files.
 */
module FileStreamSpec {
  import opened Common

  type Path = string

  // ---------- Entities ----------

  /** How far the file has been delivered and how far TDLib has downloaded it without a gap. */
  datatype Cursor = Cursor(total: int, next: nat, end: int)

  datatype Config = Config(chunkSize: int, highWatermark: int, maxSize: int, sizeMax: int, hasCleanup: bool)

  /** What the connection is asked to write. `Ok` and `Error` end the response and give the connection up. */
  datatype Output =
    | Headers(size: int)
    | Chunk(offset: int, data: Bytes)
    | Json(code: int)
    | Ok
    | Error

  /** What the workdir cleanup is told. */
  datatype Reference = Retain(path: Path) | Release(path: Path)

  datatype Stream = Stream(
    cfg: Config,
    hasClient: bool,
    fileId: int,
    path: Path,
    isOpen: bool,
    cursor: Cursor,
    headersSent: bool,
    readInFlight: bool,
    writeInFlight: bool,
    downloadCompleted: bool,
    firstByteSent: bool,
    completedOk: bool,
    redownloadRequested: bool,
    pendingOffset: int,
    pendingSize: int,
    finished: bool,
    tornDown: bool,
    out: seq<Output>,
    refs: seq<Reference>)

  /** The surroundings of one callback: the disk, and whether the headers of a response can be built. */
  datatype Env = Env(opens: bool, readFails: bool, disk: Bytes, headersFit: bool, jsonFits: bool)

  datatype Progress = Progress(path: Path, offset: int, prefix: int, completed: bool)

  function Init(cfg: Config): Stream {
    Stream(cfg, false, 0, "", false, Cursor(-1, 0, 0), false, false, false, false, false, false, false, -1, 0,
           false, false, [], [])
  }

  // ---------- The cursor ----------

  /** A report of `prefix` bytes downloaded from `offset` on, for a file of known size. */
  predicate Consistent(c: Cursor, offset: int, prefix: int) {
    c.total >= 0 && offset >= 0 && prefix >= 0 && offset + prefix <= c.total
  }

  function Advanced(c: Cursor, offset: int, prefix: int, completed: bool): Cursor {
    if offset != 0 then c
    else if completed && prefix == c.total then c.(end := c.total)
    else c.(end := Max(c.end, prefix))
  }

  /** `size` bytes from `offset` on continue what was delivered and have been downloaded. */
  predicate Fits(c: Cursor, offset: int, size: int) {
    offset == c.next && size > 0 && c.next + size <= c.end && c.next + size <= c.total
  }

  predicate Complete(c: Cursor) {
    c.total >= 0 && c.next == c.total
  }

  function NextReadSize(c: Cursor, chunkSize: int): int {
    if chunkSize <= 0 || c.total < 0 || c.next >= c.total || c.next >= c.end then 0
    else Min(chunkSize, Min(c.end, c.total) - c.next)
  }

  // ---------- finish, fail, abort ----------

  /** stop(): the actor is torn down when the callback returns. */
  function TornDown(s: Stream): Stream {
    s.(isOpen := false, tornDown := true,
       refs := if s.path != "" && s.cfg.hasCleanup then s.refs + [Release(s.path)] else s.refs)
  }

  /** The response so far stays incomplete and the connection is dropped. */
  function Cut(s: Stream): Stream {
    TornDown(s.(finished := true, out := s.out + [Error]))
  }

  /** An error response with its own status takes the place of the file. */
  function Answer(s: Stream, code: int, env: Env): Stream {
    TornDown(s.(finished := true, out := s.out + (if env.jsonFits then [Json(code), Ok] else [Error])))
  }

  function HttpError(code: int): int {
    if code < 400 || code > 599 then 502 else code
  }

  function Fail(s: Stream, code: int, env: Env): Stream {
    if s.finished then s else if s.headersSent then Cut(s) else Answer(s, code, env)
  }

  function Abort(s: Stream, code: int, env: Env): Stream {
    Fail(s, HttpError(code), env)
  }

  function OnFileError(s: Stream, code: int, env: Env): Stream {
    Fail(s, HttpError(code), env)
  }

  /** The state after send_headers; the flag tells whether the response goes on. */
  function SendHeaders(s: Stream, env: Env): (Stream, bool) {
    if s.headersSent then (s, true)
    else if !env.headersFit then (Fail(s, 500, env), false)
    else (s.(headersSent := true, out := s.out + [Headers(s.cursor.total)]), true)
  }

  function Finish(s: Stream, env: Env): Stream {
    if s.finished then s
    else if !Complete(s.cursor) || s.readInFlight || s.writeInFlight then Abort(s, 500, env)
    else
      var (s1, ok) := SendHeaders(s, env);
      if !ok then s1 else WellEnded(s1)
  }

  function WellEnded(s: Stream): Stream {
    TornDown(s.(finished := true, completedOk := true, out := s.out + [Ok]))
  }

  // ---------- try_read ----------

  function ChunkSize(cfg: Config): int {
    Min(cfg.chunkSize, cfg.highWatermark)
  }

  /** pread: at most `count` bytes, fewer where the file ends. */
  function Pread(disk: Bytes, offset: nat, count: nat): Bytes
  {
    if offset >= |disk| then [] else disk[offset..Min(offset + count, |disk|)]
  }

  function OnFileData(s: Stream, offset: int, data: Bytes, env: Env): Stream {
    var s1 := s.(readInFlight := false);
    if s1.finished then s1
    else if |data| != NextReadSize(s1.cursor, ChunkSize(s1.cfg)) || data == [] then Abort(s1, 500, env)
    else Write(s1, offset, data, env)
  }

  function Write(s: Stream, offset: int, data: Bytes, env: Env): Stream {
    var (s1, ok) := SendHeaders(Marked(s, offset, |data|), env);
    if !ok then s1 else s1.(out := s1.out + [Chunk(offset, data)])
  }

  function Marked(s: Stream, offset: int, size: int): Stream {
    s.(writeInFlight := true, pendingOffset := offset, pendingSize := size)
  }

  function DropStale(s: Stream): Stream {
    s.(downloadCompleted := false, isOpen := false,
       cursor := if s.cursor.next == 0 then s.cursor.(end := 0) else s.cursor)
  }

  function Redownload(s: Stream): Stream {
    if s.redownloadRequested || s.fileId <= 0 || !s.hasClient then s else s.(redownloadRequested := true)
  }

  /** The open file is read and what was read is handed on. */
  function Read(s: Stream, count: nat, env: Env): Stream
  {
    if env.readFails then Abort(s, 500, env) else
    var data := Pread(env.disk, s.cursor.next, count);
    if |data| == count then OnFileData(s.(readInFlight := true), s.cursor.next, data, env)
    else ShortRead(s, env)
  }

  /** Fewer bytes were there than TDLib has announced. */
  function ShortRead(s: Stream, env: Env): Stream {
    if s.downloadCompleted then Abort(s, 500, env) else s.(isOpen := false)
  }

  /** The local file cannot be opened. */
  function NotThere(s: Stream, env: Env): Stream {
    if !s.downloadCompleted then s
    else if s.firstByteSent then Abort(s, 500, env)
    else Redownload(DropStale(s))
  }

  function TryRead(s: Stream, env: Env): Stream
  {
    if s.finished || s.readInFlight || s.writeInFlight || s.cursor.total < 0 then s
    else if Complete(s.cursor) then Finish(s, env)
    else
      var count := NextReadSize(s.cursor, ChunkSize(s.cfg));
      if count == 0 || s.path == "" then s
      else if !s.isOpen && !env.opens then NotThere(s, env)
      else Read(s.(isOpen := true), count, env)
  }

  // ---------- Reports of TDLib ----------

  /** A new local path is retained and the one before it is let go. */
  function Adopt(s: Stream, path: Path): Stream {
    if path == "" || s.path == path then s
    else s.(path := path, refs := HandedOn(s.refs, s.path, path, s.cfg.hasCleanup))
  }

  function HandedOn(refs: seq<Reference>, path: Path, path': Path, kept: bool): seq<Reference> {
    if !kept then refs else refs + (if path != "" then [Release(path)] else []) + [Retain(path')]
  }

  function OnFileReady(s: Stream, fileId: int, total: int, p: Progress, env: Env): Stream {
    if s.finished then s
    else if fileId <= 0 || total < 0 then Fail(s, 500, env)
    else Sized(Adopt(s.(fileId := fileId), p.path), total, p, env)
  }

  /** The size of the file is taken on unless it is more than is allowed. */
  function Sized(s: Stream, total: int, p: Progress, env: Env): Stream {
    if total > s.cfg.sizeMax || (s.cfg.maxSize > 0 && total > s.cfg.maxSize) then Fail(s, 413, env)
    else Announced(s.(cursor := s.cursor.(total := total)), p, env)
  }

  /** The first report about a file of known size. */
  function Announced(s: Stream, p: Progress, env: Env): Stream {
    if !Consistent(s.cursor, p.offset, p.prefix) then Fail(s, 502, env) else
    var s1 := s.(cursor := Advanced(s.cursor, p.offset, p.prefix, p.completed), downloadCompleted := p.completed);
    if p.completed && s1.cursor.end < s1.cursor.total then Fail(s1, 502, env) else TryRead(s1, env)
  }

  function OnFileProgress(s: Stream, total: int, p: Progress, active: bool, env: Env): Stream {
    if s.finished || s.cursor.total < 0 then s
    else if total > 0 && total != s.cursor.total then Abort(s, 502, env)
    else Reported(Refreshed(s, p), p, active, env)
  }

  /** The new path is adopted, and a completion TDLib takes back is dropped. */
  function Refreshed(s: Stream, p: Progress): Stream {
    var s1 := Moved(s, p.path);
    if s1.downloadCompleted && !p.completed then Redownload(DropStale(s1)) else s1
  }

  function Moved(s: Stream, path: Path): Stream {
    if path != "" && s.path != path then Adopt(s.(isOpen := false), path) else s
  }

  function Extended(s: Stream, p: Progress): Stream {
    s.(cursor := Advanced(s.cursor, p.offset, p.prefix, p.completed),
       downloadCompleted := s.downloadCompleted || p.completed)
  }

  /** A later report, once a revoked state has been dropped. */
  function Reported(s: Stream, p: Progress, active: bool, env: Env): Stream {
    if !Consistent(s.cursor, p.offset, p.prefix) then Abort(s, 500, env) else
    var s1 := Extended(s, p);
    if !active && !s1.downloadCompleted && s1.firstByteSent then Abort(s1, 502, env)
    else if s1.downloadCompleted && s1.cursor.end < s1.cursor.total then Abort(s1, 502, env)
    else TryRead(s1, env)
  }

  // ---------- Reports of the connection ----------

  /** The chunk in flight reached the socket, or did not. */
  function OnChunkFlushed(s: Stream, ok: bool, code: int, env: Env): Stream
  {
    var s1 := s.(writeInFlight := false);
    if s1.finished then s1
    else if !ok then Abort(s1, code, env)
    else CommitPending(s1, env)
  }

  function CommitPending(s: Stream, env: Env): Stream {
    if !Fits(s.cursor, s.pendingOffset, s.pendingSize) then Abort(Unmarked(s), 500, env)
    else TryRead(Committed(s), env)
  }

  function Unmarked(s: Stream): Stream {
    s.(pendingOffset := -1, pendingSize := 0)
  }

  function Committed(s: Stream): Stream
    requires Fits(s.cursor, s.pendingOffset, s.pendingSize)
  {
    s.(pendingOffset := -1, pendingSize := 0, firstByteSent := true,
       cursor := s.cursor.(next := s.cursor.next + s.pendingSize))
  }

  function OnHeadersFlushed(s: Stream, ok: bool, code: int, env: Env): Stream {
    if s.finished || ok then s else Abort(s, code, env)
  }

  // ---------- Runs ----------

  datatype Input =
    | SetClient
    | FileReady(fileId: int, total: int, p: Progress, env: Env)
    | FileProgress(total: int, p: Progress, active: bool, env: Env)
    | ChunkFlushed(ok: bool, code: int, env: Env)
    | HeadersFlushed(ok: bool, code: int, env: Env)
    | FileError(code: int, env: Env)
    | Timeout(env: Env)
    | Hangup

  /** An actor that was torn down receives nothing any more. */
  function Step(s: Stream, input: Input): Stream
  {
    if s.tornDown then s else
    match input
    case SetClient => s.(hasClient := true)
    case FileReady(fileId, total, p, env) => OnFileReady(s, fileId, total, p, env)
    case FileProgress(total, p, active, env) => OnFileProgress(s, total, p, active, env)
    case ChunkFlushed(ok, code, env) => OnChunkFlushed(s, ok, code, env)
    case HeadersFlushed(ok, code, env) => OnHeadersFlushed(s, ok, code, env)
    case FileError(code, env) => OnFileError(s, code, env)
    case Timeout(env) => OnFileError(s, 504, env)
    case Hangup => TornDown(s)
  }

  /** The file is announced once; the connection reports only what it was asked to write. */
  predicate Admissible(s: Stream, input: Input) {
    match input
    case FileReady(_, _, _, _) => s.cursor.total < 0
    case ChunkFlushed(_, _, _) => s.writeInFlight
    case HeadersFlushed(_, _, _) => s.headersSent
    case _ => true
  }
}
