/**
 uploadBackupObject (backend/src/core/services/backup-s3.ts): a multipart upload of a body that arrives in
 chunks of any size.  An ETag is modelled as the content it identifies, so that completing an upload names the
 very bytes that are assembled.
 */
module BackupUpload {
  import opened Options

  type Byte = bv8
  type Bytes = seq<Byte>

  const PART_SIZE := 8 * 1024 * 1024

  datatype Part = Part(partNumber: nat, etag: Bytes)

  datatype CompleteFault = Accepted | Refused | AcceptedUnanswered

  /** Which requests fail: creation, the PUT of part `n`, the completion, or the body stream after its last chunk. */
  datatype Faults = Faults(create: bool, part: nat -> bool, body: bool, complete: CompleteFault)

  function Flatten(pieces: seq<Bytes>): Bytes {
    if pieces == [] then [] else Flatten(pieces[..|pieces| - 1]) + pieces[|pieces| - 1]
  }

  lemma FlattenPush(pieces: seq<Bytes>, piece: Bytes)
    ensures Flatten(pieces + [piece]) == Flatten(pieces) + piece
  {
    assert (pieces + [piece])[..|pieces|] == pieces;
  }

  predicate FullParts(pieces: seq<Bytes>) {
    forall i :: 0 <= i < |pieces| ==> |pieces[i]| == PART_SIZE
  }

  /** The promised cut: at least one part, all but the last exactly PART_SIZE, and no empty part except
      the only part of an empty body. */
  predicate Cut(pieces: seq<Bytes>, body: Bytes) {
    && Flatten(pieces) == body
    && pieces != []
    && FullParts(pieces[..|pieces| - 1])
    && |pieces[|pieces| - 1]| <= PART_SIZE
    && (pieces[|pieces| - 1] == [] ==> body == [])
  }

  lemma {:induction false} FullLength(pieces: seq<Bytes>)
    requires FullParts(pieces)
    ensures |Flatten(pieces)| == PART_SIZE * |pieces|
  {
    if pieces != [] { FullLength(pieces[..|pieces| - 1]); }
  }

  lemma {:induction false} FullUnique(p: seq<Bytes>, q: seq<Bytes>)
    requires FullParts(p) && FullParts(q) && Flatten(p) == Flatten(q)
    ensures p == q
  {
    FullLength(p);
    FullLength(q);
    if p != [] {
      var p', q' := p[..|p| - 1], q[..|q| - 1];
      FullLength(p');
      FullLength(q');
      assert Flatten(p)[..|Flatten(p')|] == Flatten(p') && Flatten(q)[..|Flatten(q')|] == Flatten(q');
      assert Flatten(p)[|Flatten(p')|..] == p[|p| - 1] && Flatten(q)[|Flatten(q')|..] == q[|q| - 1];
      FullUnique(p', q');
      assert p == p' + [p[|p| - 1]] && q == q' + [q[|q| - 1]];
    }
  }

  /** The size of the last part of a cut follows from the body alone. */
  lemma CutCount(pieces: seq<Bytes>, body: Bytes)
    requires Cut(pieces, body)
    ensures PART_SIZE * (|pieces| - 1) <= |body| <= PART_SIZE * |pieces|
    ensures |body| == PART_SIZE * (|pieces| - 1) ==> |pieces| == 1
  {
    FullLength(pieces[..|pieces| - 1]);
  }

  /** How the stream happened to be chunked cannot be seen in the parts: a body has exactly one cut. */
  lemma CutUnique(p: seq<Bytes>, q: seq<Bytes>, body: Bytes)
    requires Cut(p, body) && Cut(q, body)
    ensures p == q
  {
    CutCount(p, body);
    CutCount(q, body);
    var p', q' := p[..|p| - 1], q[..|q| - 1];
    FullLength(p');
    FullLength(q');
    assert Flatten(p') == body[..PART_SIZE * |p'|] && Flatten(q') == body[..PART_SIZE * |q'|];
    assert p[|p| - 1] == body[PART_SIZE * |p'|..] && q[|q| - 1] == body[PART_SIZE * |q'|..];
    FullUnique(p', q');
    assert p == p' + [p[|p| - 1]] && q == q' + [q[|q| - 1]];
  }

  function Contents(parts: seq<Part>): seq<Bytes> {
    seq(|parts|, i requires 0 <= i < |parts| => parts[i].etag)
  }

  predicate Numbered(parts: seq<Part>) {
    forall i :: 0 <= i < |parts| ==> parts[i].partNumber == i + 1
  }

  /** The bucket side of one multipart upload. */
  class Upload {
    var open: bool
    var received: map<nat, Bytes>
    var stored: Option<Bytes>

    predicate Fresh()
      reads this
    {
      !open && received == map[] && stored.None?
    }

    /** Every listed part is in the bucket, under its own number and with its own content. */
    predicate Holds(parts: seq<Part>)
      reads this
    {
      forall i :: 0 <= i < |parts| ==> parts[i].partNumber in received && received[parts[i].partNumber] == parts[i].etag
    }

    method UploadPart(partNumber: nat, part: Bytes, parts: seq<Part>, fails: bool) returns (parts': Option<seq<Part>>)
      requires open && Holds(parts) && Numbered(parts) && partNumber == |parts| + 1
      modifies this`received
      ensures parts'.None? <==> fails
      ensures parts'.Some? ==> parts'.value == parts + [Part(partNumber, part)] && Holds(parts'.value)
    {
      if fails { return None; }
      received := received[partNumber := part];
      parts' := Some(parts + [Part(partNumber, part)]);
    }

    /** CompleteMultipartUpload: the bucket joins the listed parts in part-number order. */
    method Complete(parts: seq<Part>, fault: CompleteFault) returns (ok: bool)
      requires open && Holds(parts) && Numbered(parts)
      modifies this`open, this`stored
      ensures ok <==> fault.Accepted?
      ensures fault.Refused? <==> open
      ensures stored == if fault.Refused? then old(stored) else Some(Flatten(Contents(parts)))
    {
      if fault.Refused? { return false; }
      var joined: Bytes := [];
      for i := 0 to |parts|
        invariant joined == Flatten(Contents(parts)[..i])
      {
        assert Contents(parts)[..i + 1] == Contents(parts)[..i] + [parts[i].etag];
        FlattenPush(Contents(parts)[..i], parts[i].etag);
        joined := joined + received[parts[i].partNumber];
      }
      assert Contents(parts)[..|parts|] == Contents(parts);
      open, stored := false, Some(joined);
      ok := fault.Accepted?;
    }

    /** DELETE of the upload; a failure of it is ignored, and it cannot undo a completed upload. */
    method Abort(fails: bool)
      modifies this`open, this`received
      ensures !fails ==> !open && received == map[]
    {
      if !fails { open, received := false, map[]; }
    }

    /** A reported upload stored the body and nothing but the body, in its one cut; a failure leaves no
        object, except where the bucket accepted the completion and the answer was lost. */
    method UploadBackupObject(chunks: seq<Bytes>, f: Faults, abortFails: bool)
      returns (bytes: Option<nat>, parts: seq<Part>)
      requires Fresh()
      modifies this
      ensures bytes.Some? ==> stored == Some(Flatten(chunks)) && bytes.value == |Flatten(chunks)|
      ensures bytes.Some? ==> Numbered(parts) && Cut(Contents(parts), Flatten(chunks))
      ensures bytes.Some? <==>
        !f.create && !f.body && f.complete.Accepted? && forall n :: 1 <= n <= |parts| ==> !f.part(n)
      ensures bytes.None? ==> stored.None? || (f.complete.AcceptedUnanswered? && stored == Some(Flatten(chunks)))
      ensures bytes.None? && !abortFails ==> !open
    {
      parts := [];
      if f.create { return None, parts; }
      open := true;
      var sent, total;
      sent, total, parts := SendParts(chunks, f);
      if !sent {
        Abort(abortFails);
        return None, parts;
      }
      var ok := Complete(parts, f.complete);
      if !ok {
        Abort(abortFails);
        return None, parts;
      }
      bytes := Some(total);
    }

    /** The chunk loop.  On a failure `parts` ends with the part that was refused. */
    method SendParts(chunks: seq<Bytes>, f: Faults) returns (sent: bool, bytes: nat, parts: seq<Part>)
      requires open
      modifies this`received
      ensures sent ==> Holds(parts) && Numbered(parts) && Cut(Contents(parts), Flatten(chunks))
      ensures sent ==> bytes == |Flatten(chunks)|
      ensures sent <==> !f.body && forall n :: 1 <= n <= |parts| ==> !f.part(n)
    {
      parts, sent, bytes := [], true, 0;
      var pending: Bytes := [];
      assert Flatten(chunks[..0]) == [];
      assert Sent([], [], Flatten(chunks[..0]), f);
      hide Cut; hide Sent; hide Flatten; hide Contents;
      for c := 0 to |chunks|
        invariant Sent(parts, pending, Flatten(chunks[..c]), f) && Holds(parts) && Numbered(parts)
        invariant bytes == PART_SIZE * |parts| && |pending| < PART_SIZE
      {
        SentChunk(parts, pending, chunks, c, f);
        pending := pending + chunks[c];
        while |pending| >= PART_SIZE
          invariant Sent(parts, pending, Flatten(chunks[..c + 1]), f) && Holds(parts) && Numbered(parts)
          invariant bytes == PART_SIZE * |parts|
        {
          var part := pending[..PART_SIZE];
          var put := UploadPart(|parts| + 1, part, parts, f.part(|parts| + 1));
          if put.None? {
            parts := parts + [Part(|parts| + 1, part)];
            return false, bytes, parts;
          }
          SentOne(parts, pending, Flatten(chunks[..c + 1]), f);
          parts, pending, bytes := put.value, pending[PART_SIZE..], bytes + PART_SIZE;
        }
      }
      assert chunks[..|chunks|] == chunks;
      if f.body { return false, bytes, parts; }
      if |pending| > 0 || |parts| == 0 {
        var put := UploadPart(|parts| + 1, pending, parts, f.part(|parts| + 1));
        if put.None? {
          parts := parts + [Part(|parts| + 1, pending)];
          return false, bytes, parts;
        }
        SentLast(parts, pending, Flatten(chunks), f);
        parts, bytes := put.value, bytes + |pending|;
      } else {
        SentAll(parts, Flatten(chunks), f);
      }
    }
  }

  /** Full parts have been sent, none of them refused, and what is pending completes the body read so far. */
  predicate Sent(parts: seq<Part>, pending: Bytes, read: Bytes, f: Faults) {
    && Numbered(parts) && FullParts(Contents(parts)) && Flatten(Contents(parts)) + pending == read
    && forall n :: 1 <= n <= |parts| ==> !f.part(n)
  }

  lemma SentChunk(parts: seq<Part>, pending: Bytes, chunks: seq<Bytes>, c: nat, f: Faults)
    requires c < |chunks| && Sent(parts, pending, Flatten(chunks[..c]), f)
    ensures Sent(parts, pending + chunks[c], Flatten(chunks[..c + 1]), f)
  {
    assert chunks[..c + 1] == chunks[..c] + [chunks[c]];
    FlattenPush(chunks[..c], chunks[c]);
  }

  lemma SentOne(parts: seq<Part>, pending: Bytes, read: Bytes, f: Faults)
    requires Sent(parts, pending, read, f) && |pending| >= PART_SIZE && !f.part(|parts| + 1)
    ensures Sent(parts + [Part(|parts| + 1, pending[..PART_SIZE])], pending[PART_SIZE..], read, f)
  {
    var next := Part(|parts| + 1, pending[..PART_SIZE]);
    assert Contents(parts + [next]) == Contents(parts) + [next.etag];
    FlattenPush(Contents(parts), next.etag);
    assert pending == next.etag + pending[PART_SIZE..];
  }

  lemma SentLast(parts: seq<Part>, pending: Bytes, body: Bytes, f: Faults)
    requires Sent(parts, pending, body, f) && |pending| < PART_SIZE && (pending != [] || parts == [])
    ensures Cut(Contents(parts + [Part(|parts| + 1, pending)]), body)
    ensures |body| == PART_SIZE * |parts| + |pending| && forall n :: 1 <= n <= |parts| ==> !f.part(n)
  {
    assert Contents(parts + [Part(|parts| + 1, pending)]) == Contents(parts) + [pending];
    FlattenPush(Contents(parts), pending);
    FullLength(Contents(parts));
  }

  lemma SentAll(parts: seq<Part>, body: Bytes, f: Faults)
    requires Sent(parts, [], body, f) && parts != []
    ensures Cut(Contents(parts), body) && |body| == PART_SIZE * |parts|
    ensures forall n :: 1 <= n <= |parts| ==> !f.part(n)
  {
    FullLength(Contents(parts));
  }
}
