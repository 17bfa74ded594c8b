/**
 Building a cache file: the lease a session runs on and the loop that writes what the upstream sends. Whatever happens
 while the session waits is an input: who aborts it and when, and which operations of the disk fail.
 */
module CacheBuild {
  import opened Common

  // ---------- Leases ----------

  /** A reservation or an upstream slot; `returned` counts the calls of release. */
  class Borrowed {
    const bytes: nat
    var consumed: nat
    var returned: nat

    constructor (bytes: nat)
      ensures this.bytes == bytes && consumed == 0 && returned == 0
    {
      this.bytes, consumed, returned := bytes, 0, 0;
    }

    /** Never more than is left. */
    method Consume(n: nat)
      modifies this`consumed
      ensures consumed == Max(old(consumed), Min(old(consumed) + n, bytes))
    {
      if consumed < bytes {
        consumed := consumed + Min(n, bytes - consumed);
      }
    }

    method Release()
      modifies this`returned
      ensures returned == old(returned) + 1
    {
      returned := returned + 1;
    }
  }

  class SessionLease {
    const reservation: Borrowed
    const upstream: Borrowed
    var released: bool

    constructor (reservation: Borrowed, upstream: Borrowed)
      ensures this.reservation == reservation && this.upstream == upstream && !released
    {
      this.reservation, this.upstream, released := reservation, upstream, false;
    }

    ghost predicate Valid()
      reads this, reservation, upstream
    {
      reservation != upstream && reservation.returned == upstream.returned == if released then 1 else 0
    }

    /** However often it is called, each of the two is given back once. */
    method Release()
      requires Valid()
      modifies this`released, reservation`returned, upstream`returned
      ensures Valid() && released && reservation.returned == 1 && upstream.returned == 1
    {
      if released {
        return;
      }
      released := true;
      reservation.Release();
      upstream.Release();
    }
  }

  /** First the reservation, then the slot; nothing stays borrowed when either cannot be had. */
  method AcquireSessionResources(fenced: bool, bytes: nat, reserves: bool, grants: bool)
    returns (lease: SessionLease?, ghost borrowed: seq<Borrowed>)
    ensures lease != null <==> !fenced && reserves && grants
    ensures lease != null ==>
              && fresh(lease) && fresh(lease.reservation) && fresh(lease.upstream) && lease.Valid() && !lease.released
              && borrowed == [lease.reservation, lease.upstream]
              && lease.reservation.bytes == bytes && lease.reservation.consumed == 0
    ensures lease == null ==> forall b | b in borrowed :: b.returned == 1
    ensures |borrowed| == if fenced || !reserves then 0 else if grants then 2 else 1
  {
    borrowed := [];
    if fenced || !reserves {
      return null, borrowed;
    }
    var reservation := new Borrowed(bytes);
    borrowed := [reservation];
    if !grants {
      reservation.Release();
      return null, borrowed;
    }
    var upstream := new Borrowed(0);
    borrowed := [reservation, upstream];
    lease := new SessionLease(reservation, upstream);
  }

  // ---------- The build ----------

  function Concat(chunks: seq<Bytes>): Bytes {
    if chunks == [] then [] else Concat(chunks[..|chunks| - 1]) + chunks[|chunks| - 1]
  }

  lemma {:induction false} ConcatGrows(chunks: seq<Bytes>, k: nat)
    requires k <= |chunks|
    ensures |Concat(chunks[..k])| <= |Concat(chunks)|
  {
    if k == |chunks| {
      assert chunks[..k] == chunks;
    } else {
      ConcatGrows(chunks[..|chunks| - 1], k);
      assert chunks[..|chunks| - 1][..k] == chunks[..k];
    }
  }

  /** What the upstream answers: the size it states and the chunks it sends until it ends or fails. */
  datatype Upstream = Upstream(size: nat, chunks: seq<Bytes>, endsWell: bool)

  /**
   What happens meanwhile: whether the empty file can be created, at which chunks the session is found aborted or cannot
   be written, whether it is aborted before the last look at it or only after, and whether the rename works.
   */
  datatype Script = Script(
    creates: bool, aborted: nat -> bool, writes: nat -> bool, abortedBeforeEnd: bool, abortedAfterEnd: bool,
    renames: bool)

  class BuildSession {
    const expectedSize: nat
    var bytesWritten: nat
    var completed: bool
    var failed: bool
    var temporary: Option<Bytes>
    var published: Option<Bytes>

    constructor (expectedSize: nat)
      ensures this.expectedSize == expectedSize && bytesWritten == 0 && !completed && !failed
      ensures temporary == None && published == None
    {
      this.expectedSize := expectedSize;
      bytesWritten, completed, failed, temporary, published := 0, false, false, None, None;
    }

    method Abort()
      modifies this`failed
      ensures failed == (old(failed) || !completed)
    {
      if !failed && !completed {
        failed := true;
      }
    }
  }

  /** The loop over the chunks; it stops when the session was aborted, a write fails or there is too much. */
  method WriteChunks(session: BuildSession, lease: SessionLease, chunks: seq<Bytes>, script: Script) returns (ok: bool)
    requires session.bytesWritten == 0 == lease.reservation.consumed && session.temporary == Some([])
    requires lease.reservation.bytes == session.expectedSize && !session.completed && !session.failed
    modifies session`bytesWritten, session`temporary, session`failed, lease.reservation`consumed
    ensures lease.reservation.consumed == session.bytesWritten <= session.expectedSize
    ensures ok <==> |Concat(chunks)| <= session.expectedSize
                    && forall k | 0 <= k < |chunks| :: script.writes(k) && !script.aborted(k)
    ensures ok ==> session.temporary == Some(Concat(chunks)) && session.bytesWritten == |Concat(chunks)|
    ensures ok ==> !session.failed
    ensures session.temporary.Some? && session.temporary.value <= Concat(chunks)
  {
    assert chunks[..0] == [];
    for k := 0 to |chunks|
      invariant session.temporary == Some(Concat(chunks[..k]))
      invariant lease.reservation.consumed == session.bytesWritten == |Concat(chunks[..k])| <= session.expectedSize
      invariant !session.failed && forall j | 0 <= j < k :: script.writes(j) && !script.aborted(j)
    {
      ConcatGrows(chunks, k + 1);
      assert chunks[..k + 1][..k] == chunks[..k];
      PrefixOfAll(chunks, k);
      if script.aborted(k) {
        session.Abort();
      }
      if session.failed || session.bytesWritten + |chunks[k]| > session.expectedSize || !script.writes(k) {
        return false;
      }
      session.temporary := Some(session.temporary.value + chunks[k]);
      session.bytesWritten := session.bytesWritten + |chunks[k]|;
      lease.reservation.Consume(|chunks[k]|);
    }
    assert chunks[..|chunks|] == chunks;
    return true;
  }

  lemma {:induction false} PrefixOfAll(chunks: seq<Bytes>, k: nat)
    requires k <= |chunks|
    ensures Concat(chunks[..k]) <= Concat(chunks)
  {
    if k == |chunks| {
      assert chunks[..k] == chunks;
    } else {
      PrefixOfAll(chunks[..|chunks| - 1], k);
      assert chunks[..|chunks| - 1][..k] == chunks[..k];
    }
  }

  /** Nothing goes wrong before the last look at the session. */
  ghost predicate GoesWell(expected: nat, upstream: Option<Upstream>, script: Script) {
    && script.creates && upstream.Some? && upstream.value.size == expected && upstream.value.endsWell
    && (forall k | 0 <= k < |upstream.value.chunks| :: script.writes(k) && !script.aborted(k))
    && |Concat(upstream.value.chunks)| == expected
    && !script.abortedBeforeEnd && script.renames
  }

  /**
   The file is published exactly when nothing went wrong, and then it is what the upstream sent, as long as announced.
   Otherwise the session has failed and no file is left. Either way the lease is given back. A session that is aborted
   while its file is being renamed ends both completed and failed.
   */
  method RunBuildSession(session: BuildSession, lease: SessionLease, upstream: Option<Upstream>, script: Script)
    requires lease.Valid() && !lease.released && lease.reservation.bytes == session.expectedSize
    requires session.bytesWritten == 0 == lease.reservation.consumed && !session.completed && !session.failed
    requires session.temporary == None && session.published == None
    modifies session, lease`released, lease.reservation`consumed, lease.reservation`returned, lease.upstream`returned
    ensures lease.released && lease.reservation.returned == 1 && lease.upstream.returned == 1
    ensures lease.reservation.consumed == session.bytesWritten <= session.expectedSize
    ensures session.completed <==> GoesWell(session.expectedSize, upstream, script)
    ensures session.completed ==>
              session.published == Some(Concat(upstream.value.chunks)) && session.bytesWritten == session.expectedSize
    ensures !session.completed ==> session.failed && session.published == None
    ensures session.temporary == None
    ensures session.completed && session.failed <==> session.completed && script.abortedAfterEnd
  {
    var ok := Build(session, lease, upstream, script);
    if !ok {
      session.failed := true;
      session.temporary := None;
    }
    lease.Release();
  }

  method Build(session: BuildSession, lease: SessionLease, upstream: Option<Upstream>, script: Script)
    returns (ok: bool)
    requires lease.reservation.bytes == session.expectedSize && session.bytesWritten == 0 == lease.reservation.consumed
    requires !session.completed && !session.failed && session.temporary == None && session.published == None
    modifies session, lease.reservation`consumed
    ensures lease.reservation.consumed == session.bytesWritten <= session.expectedSize
    ensures ok == session.completed && (ok <==> GoesWell(session.expectedSize, upstream, script))
    ensures ok ==>
              && session.published == Some(Concat(upstream.value.chunks)) && session.temporary == None
              && session.bytesWritten == session.expectedSize && session.failed == script.abortedAfterEnd
    ensures !ok ==> session.published == None
  {
    if !script.creates {
      return false;
    }
    session.temporary := Some([]);
    if upstream.None? || upstream.value.size != session.expectedSize {
      return false;
    }
    ok := WriteChunks(session, lease, upstream.value.chunks, script);
    if !ok || !upstream.value.endsWell {
      return false;
    }
    if script.abortedBeforeEnd {
      session.Abort();
    }
    if session.failed || session.bytesWritten != session.expectedSize
       || |session.temporary.value| != session.expectedSize {
      return false;
    }
    if script.abortedAfterEnd {
      session.Abort();
    }
    if !script.renames {
      return false;
    }
    session.published := session.temporary;
    session.temporary := None;
    session.completed := true;
  }
}
