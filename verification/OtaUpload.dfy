/**
 The resumable OTA upload: a client that never replays bytes blindly, against a device that
 may keep any prefix of a chunk and lose any response.
 */
module OtaUpload {
  import opened Common

  /** The bytes of the image are only moved and compared. */
  type Octet(!new, ==)
  type Bytes = seq<Octet>

  /** An abstract collision-free hash. */
  datatype Digest = Sha256(content: Bytes)

  /** A member of a JSON answer: absent, of the wrong type, or a value. */
  datatype Field<+T> = Missing | Malformed | Present(value: T)

  datatype Answer = Answer(ok: bool, active: Field<bool>, sha: Field<Digest>, size: Field<int>, session: Field<string>,
                           offset: Field<int>, chunkSize: Field<int>)

  datatype Failure =
    | ImageChanged | WrongBoard | BadStatus | OtherSession | NoSession | BadStartOffset | BadChunkSize
    | RequestFailed | BadChunkOffset | NotInstalled | WrongInstalledDigest | NotRebooting

  /** A failure of the upload itself, after the checks of the image and of the board. */
  predicate OfUpload(f: Failure) {
    f != ImageChanged && f != WrongBoard
  }

  datatype Segment = Segment(size: int, sha: Digest)

  const CHUNK_LIMIT := 65536

  /** One chunk as the client sends it. */
  datatype Chunk = Chunk(session: string, offset: int, data: Bytes)

  // ----- the device -----

  /**
   A device reached over a link that may lose any answer (`Err`). An honest device appends only a
   prefix of a chunk sent at its own offset and tells the truth; a device that is not honest may answer
   anything. A faultless honest device loses no answer, keeps whole chunks and does what it is asked.
   `posted` logs the chunks the client sent, `refusals` counts the answers that were not ok, `reboots` the reboots asked
   for, and `named` is the digest named by the last answer to a finish.
   */
  class Device {
    const honest: bool
    const faultless: bool
    const board: string
    const capabilities: Result<Option<string>, ()>
    const announced: Field<int>
    var active: bool
    var session: string
    var size: int
    var sha: Digest
    var buffer: Bytes
    var installed: Option<Bytes>
    var posted: seq<Chunk>
    var refusals: nat
    var reboots: nat
    var named: Field<Digest>

    constructor (honest: bool, faultless: bool, board: string, capabilities: Result<Option<string>, ()>, announced: Field<int>,
                 active: bool, session: string, size: int, sha: Digest, buffer: Bytes)
      ensures this.honest == honest && this.faultless == faultless && this.board == board
      ensures this.capabilities == capabilities && this.announced == announced
      ensures this.active == active && this.session == session && this.size == size && this.sha == sha && this.buffer == buffer
      ensures posted == [] && installed == None && refusals == 0 && reboots == 0
    {
      this.honest, this.faultless, this.board, this.capabilities, this.announced := honest, faultless, board, capabilities, announced;
      this.active, this.session, this.size, this.sha, this.buffer := active, session, size, sha, buffer;
      installed, posted, refusals, reboots, named := None, [], 0, 0, Missing;
    }

    /** What the device answers when it is asked for its board: its own board if it is honest, and an answer at all if it is faultless. */
    function Report(): Result<Option<string>, ()> {
      if honest && (faultless || capabilities.Ok?) then Ok(Some(board)) else capabilities
    }

    function TrueStatus(): Answer
      reads this
    {
      if active then Answer(true, Present(true), Present(sha), Present(size), Present(session), Present(|buffer|), announced)
      else Answer(true, Present(false), Missing, Missing, Missing, Missing, announced)
    }

    /** An answer that may be lost or refused, unless the device has to give one. */
    method AnyAnswer(sure: bool) returns (r: Result<Answer, ()>)
      ensures sure ==> r.Ok? && r.value.ok
    {
      r := *;
      if sure {
        var a: Answer := *;
        r := Ok(a.(ok := true));
      }
    }

    /** An answer that is not ok is counted when it reaches the client. */
    method Tell(r: Result<Answer, ()>)
      modifies this`refusals
      ensures refusals == old(refusals) + (if r.Ok? && !r.value.ok then 1 else 0)
    {
      if r.Ok? && !r.value.ok { refusals := refusals + 1; }
    }

    method GetBoard() returns (r: Result<Option<string>, ()>)
      ensures r == Report()
    {
      r := Report();
    }

    method GetStatus() returns (r: Result<Answer, ()>)
      modifies this`refusals
      ensures refusals == old(refusals) + (if r.Ok? && !r.value.ok then 1 else 0)
      ensures r.Ok? ==> r.value.chunkSize == announced
      ensures honest && r.Ok? ==> r.value == TrueStatus()
      ensures honest && faultless ==> r.Ok?
    {
      r := AnyAnswer(honest && faultless);
      if r.Ok? {
        r := Ok(if honest then TrueStatus() else r.value.(chunkSize := announced));
      }
      Tell(r);
    }

    method Start(imageSize: int, imageSha: Digest) returns (r: Result<Answer, ()>)
      modifies this`active, this`session, this`size, this`sha, this`buffer, this`refusals
      ensures refusals == old(refusals) + (if r.Ok? && !r.value.ok then 1 else 0)
      ensures r.Ok? ==> r.value.chunkSize == announced
      ensures honest && r.Ok? && r.value.ok ==>
        active && size == imageSize && sha == imageSha && buffer == [] && r.value.session == Present(session) && r.value.offset == Present(0)
      ensures honest && faultless ==> r.Ok? && r.value.ok && session != ""
    {
      r := AnyAnswer(honest && faultless);
      if r.Ok? { r := Ok(r.value.(chunkSize := announced)); }
      if honest {
        session := *;
        if session == "" && faultless { session := "a"; }
        active, size, sha, buffer := true, imageSize, imageSha, [];
        if r.Ok? {
          r := Ok(r.value.(session := Present(session), offset := Present(0)));
        }
      }
      Tell(r);
    }

    method PostChunk(to: string, offset: int, data: Bytes) returns (r: Result<Answer, ()>)
      modifies this`buffer, this`posted, this`refusals
      ensures posted == old(posted) + [Chunk(to, offset, data)]
      ensures refusals == old(refusals) + (if r.Ok? && !r.value.ok then 1 else 0)
      ensures honest && (!active || to != session || offset != |old(buffer)|) ==> buffer == old(buffer) && (r.Ok? ==> !r.value.ok)
      ensures honest && active && to == session && offset == |old(buffer)| ==>
        && old(buffer) <= buffer <= old(buffer) + data
        && (r.Ok? && r.value.ok ==> r.value.offset == Present(|buffer|))
        && (faultless ==> r.Ok? && r.value.ok && buffer == old(buffer) + data)
    {
      posted := posted + [Chunk(to, offset, data)];
      r := AnyAnswer(honest && faultless);
      if honest {
        if active && to == session && offset == |buffer| {
          var kept: nat :| kept <= |data|;
          buffer := buffer + if faultless then data else data[..kept];
          if r.Ok? {
            r := Ok(r.value.(offset := Present(|buffer|)));
          }
        } else if r.Ok? {
          r := Ok(r.value.(ok := false));
        }
      }
      Tell(r);
    }

    method Finish(to: string) returns (r: Result<Answer, ()>)
      modifies this`active, this`installed, this`refusals, this`named
      ensures refusals == old(refusals) + (if r.Ok? && !r.value.ok then 1 else 0)
      ensures named == if r.Ok? then r.value.sha else Missing
      ensures honest && r.Ok? && r.value.ok ==>
        && old(active) && to == session && |buffer| == size && Sha256(buffer) == sha
        && installed == Some(buffer) && r.value.sha == Present(sha)
      ensures honest && faultless && old(active) && to == session && |buffer| == size && Sha256(buffer) == sha ==> r.Ok? && r.value.ok
    {
      r := AnyAnswer(honest && faultless);
      if honest {
        if active && to == session && |buffer| == size && Sha256(buffer) == sha {
          active, installed := false, Some(buffer);
          if r.Ok? {
            r := Ok(r.value.(sha := Present(sha)));
          }
        } else if r.Ok? {
          r := Ok(r.value.(ok := false));
        }
      }
      named := if r.Ok? then r.value.sha else Missing;
      Tell(r);
    }

    method Reboot() returns (r: Result<Answer, ()>)
      modifies this`refusals, this`reboots
      ensures refusals == old(refusals) + (if r.Ok? && !r.value.ok then 1 else 0)
      ensures reboots == old(reboots) + 1
      ensures honest && faultless ==> r.Ok? && r.value.ok
    {
      reboots := reboots + 1;
      r := AnyAnswer(honest && faultless);
      Tell(r);
    }
  }

  // ----- the client -----

  /** `_resume_offset`; None when the source raises. */
  function ResumeOffset(status: Answer, segment: Segment, expected: Option<string>): Option<nat> {
    if !status.ok || status.active != Present(true) || status.sha != Present(segment.sha) || status.size != Present(segment.size)
       || !status.session.Present? || status.session.value == ""
       || (expected.Some? && status.session.value != expected.value)
       || !status.offset.Present? || !(0 <= status.offset.value <= segment.size)
    then None else Some(status.offset.value)
  }

  /** A status is resumed at an offset exactly when it says all of this: ok, active, this image, a session, an offset within the image. */
  lemma ResumeExactly(status: Answer, segment: Segment, expected: Option<string>, offset: nat)
    ensures ResumeOffset(status, segment, expected) == Some(offset) <==>
            && offset <= segment.size
            && exists s ::
                 && status == Answer(true, Present(true), Present(segment.sha), Present(segment.size), Present(s), Present(offset), status.chunkSize)
                 && s != "" && (expected == None || expected == Some(s))
  {
    if status.session.Present? {
      var s := status.session.value;
      assert ResumeOffset(status, segment, expected) == Some(offset) ==>
             status == Answer(true, Present(true), Present(segment.sha), Present(segment.size), Present(s), Present(offset), status.chunkSize);
    }
  }

  /** An honest active device is resumed at its own offset exactly when its session is for this very image. */
  lemma ResumeIsTruthful(d: Device, segment: Segment, expected: Option<string>)
    requires d.active
    ensures ResumeOffset(d.TrueStatus(), segment, expected) ==
            if d.sha == segment.sha && d.size == segment.size && d.session != "" && |d.buffer| <= d.size
               && (expected.Some? ==> d.session == expected.value)
            then Some(|d.buffer|) else None
  {
  }

  /** The chunk is the slice of the image at its offset, as long as the limit and the image allow. */
  ghost predicate Slice(c: Chunk, payload: Bytes, limit: int) {
    && 0 <= c.offset < |payload|
    && |c.data| == Min(limit, |payload| - c.offset) > 0
    && c.data == payload[c.offset..c.offset + |c.data|]
  }

  /** New posts are slices of the image for one session, in order within the window from `low` to `high`. */
  ghost predicate Increasing(posts: seq<Chunk>, session: string, payload: Bytes, limit: int, low: int, high: int) {
    && (forall i, j :: 0 <= i < j < |posts| ==> posts[i].offset < posts[j].offset)
    && (forall i :: 0 <= i < |posts| ==> low <= posts[i].offset < high && posts[i].session == session && Slice(posts[i], payload, limit))
  }

  /** Strictly increasing posts are no more than the window is wide. */
  lemma {:induction false} IncreasingBounded(posts: seq<Chunk>, session: string, payload: Bytes, limit: int, low: int, high: int)
    requires Increasing(posts, session, payload, limit, low, high) && low <= high
    ensures |posts| <= high - low
  {
    if posts != [] {
      var last := posts[|posts| - 1].offset;
      IncreasingBounded(posts[..|posts| - 1], session, payload, limit, low, last);
    }
  }

  /** The device holds a prefix of the image in the session the client works on, and the client knows its length. */
  ghost predicate InStep(d: Device, segment: Segment, payload: Bytes, session: string, offset: nat)
    reads d
  {
    && d.active && d.session == session && d.size == segment.size && d.sha == segment.sha
    && offset <= |payload| && d.buffer == payload[..offset]
  }

  /** The device has not left the session, and still holds a prefix of the image. */
  ghost predicate OnPrefix(d: Device, segment: Segment, payload: Bytes, session: string)
    reads d
  {
    d.active && d.session == session && d.size == segment.size && d.sha == segment.sha && d.buffer <= payload
  }

  /** One turn of the upload loop: the chunk is posted once; if its answer is lost the device is asked where it stands. */
  method SendChunk(d: Device, segment: Segment, payload: Bytes, session: string, offset: nat, end: nat)
      returns (r: Result<nat, Failure>)
    requires offset < end <= |payload| == segment.size
    requires d.honest ==> InStep(d, segment, payload, session, offset)
    modifies d`buffer, d`posted, d`refusals
    ensures d.posted == old(d.posted) + [Chunk(session, offset, payload[offset..end])]
    ensures if r.Ok? then offset < r.value <= end && d.refusals == old(d.refusals) else OfUpload(r.error)
    ensures d.honest ==> OnPrefix(d, segment, payload, session)
    ensures d.honest && r.Ok? ==> InStep(d, segment, payload, session, r.value)
    ensures d.honest && d.faultless ==> r == Ok(end)
  {
    var result := d.PostChunk(session, offset, payload[offset..end]);
    assert payload[..offset] + payload[offset..end] == payload[..end];
    if result.Err? {
      var recovered := d.GetStatus();
      if recovered.Err? {
        return Err(RequestFailed);
      }
      var resumed := ResumeOffset(recovered.value, segment, Some(session));
      if resumed.None? {
        return Err(OtherSession);
      }
      if offset < resumed.value <= end {
        return Ok(resumed.value);
      }
      return Err(RequestFailed);
    }
    var next := result.value.offset;
    if !result.value.ok || !next.Present? || !(offset < next.value <= end) {
      return Err(BadChunkOffset);
    }
    return Ok(next.value);
  }

  /**
   The upload loop. Against any device the posts are slices of the image at strictly increasing offsets, so there are at
   most as many as bytes left; against an honest one, client and device are in step at every loop head; against a
   faultless one it goes through.
   */
  method UploadChunks(d: Device, segment: Segment, payload: Bytes, session: string, start: nat, chunkSize: int)
      returns (failure: Option<Failure>)
    requires |payload| == segment.size && start <= |payload| && chunkSize > 0
    requires d.honest ==> InStep(d, segment, payload, session, start)
    modifies d`buffer, d`posted, d`refusals
    ensures old(d.posted) <= d.posted && Increasing(d.posted[|old(d.posted)|..], session, payload, chunkSize, start, |payload|)
    ensures |d.posted| - |old(d.posted)| <= |payload| - start
    ensures if failure == None then d.refusals == old(d.refusals) else OfUpload(failure.value)
    ensures d.honest ==> OnPrefix(d, segment, payload, session)
    ensures d.honest && failure == None ==> InStep(d, segment, payload, session, |payload|)
    ensures d.honest && d.faultless ==> failure == None
  {
    var offset := start;
    ghost var posts: seq<Chunk> := [];
    failure := None;
    while offset < |payload| && failure == None
      invariant start <= offset <= |payload|
      invariant d.posted == old(d.posted) + posts
      invariant Increasing(posts, session, payload, chunkSize, start, if failure == None then offset else |payload|)
      invariant if failure == None then d.refusals == old(d.refusals) else OfUpload(failure.value)
      invariant d.honest ==> OnPrefix(d, segment, payload, session)
      invariant d.honest && failure == None ==> InStep(d, segment, payload, session, offset)
      invariant d.honest && d.faultless ==> failure == None
      decreases |payload| - offset, failure == None
    {
      var end := Min(|payload|, offset + chunkSize);
      var sent := SendChunk(d, segment, payload, session, offset, end);
      posts := posts + [Chunk(session, offset, payload[offset..end])];
      if sent.Err? {
        failure := Some(sent.error);
      } else {
        offset := sent.value;
      }
    }
    IncreasingBounded(posts, session, payload, chunkSize, start, |payload|);
    assert d.posted[|old(d.posted)|..] == posts;
  }

  datatype Opened = Opened(session: string, offset: nat, chunkSize: Field<int>)

  /** The device is free, or in the middle of a session for this very image. */
  predicate Resumable(d: Device, segment: Segment)
    reads d
  {
    d.active ==> d.session != "" && d.sha == segment.sha && d.size == segment.size
  }

  /** The part of `update` that resumes the device's session or starts one. */
  method OpenSession(d: Device, segment: Segment, payload: Bytes) returns (r: Result<Opened, Failure>)
    requires |payload| == segment.size && Sha256(payload) == segment.sha
    requires d.honest && d.active && d.sha == segment.sha && d.size == segment.size ==> d.buffer <= payload
    modifies d`active, d`session, d`size, d`sha, d`buffer, d`refusals
    ensures r.Err? ==> OfUpload(r.error)
    ensures r.Ok? ==> r.value.session != "" && r.value.offset <= |payload| && r.value.chunkSize == d.announced && d.refusals == old(d.refusals)
    ensures d.honest && r.Ok? ==> InStep(d, segment, payload, r.value.session, r.value.offset)
    ensures d.honest && r.Ok? && old(d.active) ==> r.value.offset == |old(d.buffer)| && r.value.session == old(d.session)
    ensures d.honest && old(d.active) && !old(Resumable(d, segment)) ==> r.Err? && d.session == old(d.session) && d.buffer == old(d.buffer)
    ensures d.honest && d.faultless ==> if old(Resumable(d, segment)) then r.Ok? else r == Err(OtherSession)
  {
    var got := d.GetStatus();
    if got.Err? { return Err(RequestFailed); }
    var status := got.value;
    if !status.ok || !status.active.Present? { return Err(BadStatus); }
    if status.active.value {
      var resumed := ResumeOffset(status, segment, None);
      if resumed.None? { return Err(OtherSession); }
      return Ok(Opened(status.session.value, resumed.value, status.chunkSize));
    }
    var begun := d.Start(|payload|, segment.sha);
    if begun.Err? { return Err(RequestFailed); }
    var started := begun.value;
    if !started.ok || !started.session.Present? || started.session.value == "" { return Err(NoSession); }
    if started.offset != Present(0) { return Err(BadStartOffset); }
    return Ok(Opened(started.session.value, 0, started.chunkSize));
  }

  datatype Outcome = Done(rebooting: bool) | Failed(failure: Failure)

  /** The bytes read from the file are the ones the package was verified with. */
  predicate Verified(segment: Segment, payload: Bytes) {
    segment.size > 0 && |payload| == segment.size && Sha256(payload) == segment.sha
  }

  /** The most bytes a chunk may have for what the device announces; 0 when the announcement is invalid. */
  function ChunkLimit(announced: Field<int>): (limit: nat)
    ensures limit > 0 <==> announced == Missing || (announced.Present? && announced.value > 0)
    ensures limit <= 65536 && (announced.Present? ==> limit <= announced.value || announced.value < 0)
    ensures limit == 65536 || (announced.Present? && limit == announced.value) || limit == 0
  {
    match announced
    case Missing => CHUNK_LIMIT
    case Malformed => 0
    case Present(value) => if value <= 0 then 0 else Min(CHUNK_LIMIT, value)
  }

  /** The part of `update` after the session is open: every byte is sent, and the device confirms what it installed. */
  method SendAndFinish(d: Device, segment: Segment, payload: Bytes, entry: Opened) returns (failure: Option<Failure>)
    requires Verified(segment, payload) && entry.offset <= |payload|
    requires d.honest ==> InStep(d, segment, payload, entry.session, entry.offset)
    modifies d`buffer, d`posted, d`refusals, d`active, d`installed, d`named
    ensures old(d.posted) <= d.posted
    ensures ChunkLimit(entry.chunkSize) == 0 ==> failure == Some(BadChunkSize) && unchanged(d)
    ensures ChunkLimit(entry.chunkSize) > 0 ==>
              Increasing(d.posted[|old(d.posted)|..], entry.session, payload, ChunkLimit(entry.chunkSize), entry.offset, |payload|)
    ensures |d.posted| - |old(d.posted)| <= |payload| - entry.offset
    ensures if failure == None then d.named == Present(segment.sha) && d.refusals == old(d.refusals) else OfUpload(failure.value)
    ensures failure == None && d.honest ==> d.installed == Some(payload)
    ensures d.honest && d.faultless && ChunkLimit(entry.chunkSize) > 0 ==> failure == None
  {
    var chunkSize := CHUNK_LIMIT;
    match entry.chunkSize {
      case Missing =>
      case Malformed => return Some(BadChunkSize);
      case Present(value) =>
        if value <= 0 { return Some(BadChunkSize); }
        chunkSize := Min(CHUNK_LIMIT, value);
    }
    failure := UploadChunks(d, segment, payload, entry.session, entry.offset, chunkSize);
    if failure.Some? { return failure; }
    assert payload[..|payload|] == payload;

    var result := d.Finish(entry.session);
    if result.Err? { return Some(RequestFailed); }
    if !result.value.ok { return Some(NotInstalled); }
    if result.value.sha != Present(segment.sha) { return Some(WrongInstalledDigest); }
  }

  /** The posts of one update: slices of the image for one session, as large as allowed, at increasing offsets. */
  ghost predicate Posts(posts: seq<Chunk>, payload: Bytes, announced: Field<int>) {
    posts == [] || exists session :: Increasing(posts, session, payload, ChunkLimit(announced), 0, |payload|)
  }

  /**
   `update`, from the bytes read from the file on. `board` is the package's board. A normal return means that the device
   reported this board, refused nothing and named the image's digest, and from an honest device that it has installed exactly
   the image, whatever was lost on the way and whether the session was new or resumed. A device that reports another board
   is left alone. A faultless device that is free, or in a session for this image, is updated.
   */
  method Update(d: Device, segment: Segment, payload: Bytes, board: string, reboot: bool) returns (outcome: Outcome)
    requires d.honest && d.active && d.sha == segment.sha && d.size == segment.size && Sha256(payload) == segment.sha ==> d.buffer <= payload
    modifies d
    ensures outcome == Failed(ImageChanged) <==> !Verified(segment, payload)
    ensures outcome == Failed(WrongBoard) <==> Verified(segment, payload) && d.Report().Ok? && d.Report().value != Some(board)
    ensures !Verified(segment, payload) || d.Report() != Ok(Some(board)) ==> outcome.Failed? && unchanged(d)
    ensures outcome.Done? ==> d.Report() == Ok(Some(board)) && outcome.rebooting == reboot
    ensures outcome.Done? && d.honest ==> d.board == board && d.installed == Some(payload)
    ensures outcome.Done? ==> d.refusals == old(d.refusals) && d.named == Present(segment.sha)
    ensures d.reboots == old(d.reboots) || (reboot && d.reboots == old(d.reboots) + 1 && (d.honest ==> d.installed == Some(payload)))
    ensures outcome.Done? && reboot ==> d.reboots == old(d.reboots) + 1
    ensures old(d.posted) <= d.posted && Posts(d.posted[|old(d.posted)|..], payload, d.announced)
    ensures |d.posted| - |old(d.posted)| <= |payload|
    ensures ChunkLimit(d.announced) == 0 ==> outcome.Failed? && d.posted == old(d.posted)
    ensures d.honest && old(d.active) && !old(Resumable(d, segment)) ==> outcome.Failed? && d.session == old(d.session) && d.buffer == old(d.buffer)
    ensures Verified(segment, payload) && d.honest && d.faultless && d.board == board ==>
              if !old(Resumable(d, segment)) then outcome == Failed(OtherSession)
              else if ChunkLimit(d.announced) == 0 then outcome == Failed(BadChunkSize)
              else outcome.Done?
  {
    if segment.size <= 0 || |payload| != segment.size || Sha256(payload) != segment.sha {
      return Failed(ImageChanged);
    }
    var capabilities := d.GetBoard();
    if capabilities.Err? { return Failed(RequestFailed); }
    if capabilities.value != Some(board) { return Failed(WrongBoard); }

    var entered := OpenSession(d, segment, payload);
    if entered.Err? { return Failed(entered.error); }
    var failure := SendAndFinish(d, segment, payload, entered.value);
    ghost var posts := d.posted[|old(d.posted)|..];
    assert posts == [] || Increasing(posts, entered.value.session, payload, ChunkLimit(d.announced), 0, |payload|);
    if failure.Some? { return Failed(failure.value); }
    if reboot {
      var restarted := d.Reboot();
      if restarted.Err? { return Failed(RequestFailed); }
      if !restarted.value.ok { return Failed(NotRebooting); }
    }
    return Done(reboot);
  }
}
