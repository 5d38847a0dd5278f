/** The resumable upload of one recording. Chunks are appended to a part file; completing it renames
    the part to the final file and then commits the record. The service's lock makes each operation
    one step, but any of them may be cut off between its file and database changes, and a chunk may
    be written only in part. Every chunk comes from one fixed byte string. */
module Recordings {
  import opened Options

  type Byte = b: int | 0 <= b < 256

  datatype Status = Recording | Uploading | Ready | LocalOnly | Failed

  datatype Mime = WebM | Mp4

  datatype Record = Record(status: Status, size: nat, mime: Mime, expires: int)

  datatype State = State(record: Option<Record>, part: Option<seq<Byte>>, final: Option<seq<Byte>>)

  const MAX_FILE_BYTES: nat := 0x8000_0000
  const CHUNK_BYTES: nat := 0x10_0000
  const RETENTION: int := 86400
  const HEADER: nat := 12

  /** The magic number of each container. */
  predicate HeaderOk(mime: Mime, header: seq<Byte>) {
    && |header| == HEADER
    && match mime
       case WebM => header[0] == 0x1a && header[1] == 0x45 && header[2] == 0xdf && header[3] == 0xa3
       case Mp4 => header[4] == 0x66 && header[5] == 0x74 && header[6] == 0x79 && header[7] == 0x70
  }

  predicate Visible(s: State, now: int) { s.record.Some? && s.record.value.expires > now }

  predicate IsUploading(s: State, now: int) { Visible(s, now) && s.record.value.status.Uploading? }

  // ---- Operations ----

  /** The size is announced once per upload; too large, empty or local recordings stay with the client. */
  function StopStatus(size: nat, localOnly: bool): Status {
    if localOnly || size > MAX_FILE_BYTES || size == 0 then LocalOnly else Uploading
  }

  predicate Stoppable(s: State, now: int, size: nat, localOnly: bool, fits: bool) {
    && Visible(s, now) && !s.record.value.status.Ready?
    && !(s.record.value.status.Uploading? && !localOnly && size <= MAX_FILE_BYTES && size != s.record.value.size)
    && (StopStatus(size, localOnly).Uploading? ==> fits)
  }

  /** `fits` is the verdict of the storage limits; `cut` stops before the part file is removed. */
  function Stop(s: State, now: int, size: nat, localOnly: bool, fits: bool, cut: bool): State {
    if !Stoppable(s, now, size, localOnly, fits) then s
    else
      var status := StopStatus(size, localOnly);
      var announced := if status.Uploading? then size else 0;
      State(Some(s.record.value.(status := status, size := announced, expires := now + RETENTION)),
            if status.LocalOnly? && !cut then None else s.part,
            s.final)
  }

  function Length(file: Option<seq<Byte>>): nat { if file.Some? then |file.value| else 0 }

  /** Where a client should resume. */
  function Offset(s: State): nat {
    if s.part.None? && s.record.Some? && s.final.Some? && |s.final.value| == s.record.value.size then |s.final.value|
    else Length(s.part)
  }

  predicate Acceptable(s: State, now: int, offset: nat, data: seq<Byte>) {
    && IsUploading(s, now) && 0 < |data| <= CHUNK_BYTES && Length(s.part) == offset
    && offset + |data| <= s.record.value.size && offset + |data| <= MAX_FILE_BYTES
  }

  /** Opening the part file creates it, even when the chunk is then refused; `written` bytes of the
      chunk reach the file. */
  function Append(s: State, now: int, offset: nat, data: seq<Byte>, written: nat): State {
    if !IsUploading(s, now) || |data| == 0 || |data| > CHUNK_BYTES then s
    else
      var content := if s.part.Some? then s.part.value else [];
      var fits := Acceptable(s, now, offset, data) && written <= |data|;
      s.(part := Some(if fits then content + data[..written] else content))
  }

  /** The file to complete: the part, or the final file that a cut-off completion left. */
  function Source(s: State): Option<seq<Byte>> { if s.part.Some? then s.part else s.final }

  predicate Completable(s: State, now: int) {
    && IsUploading(s, now)
    && var r := s.record.value;
    && Source(s).Some? && |Source(s).value| == r.size && r.size >= HEADER && HeaderOk(r.mime, Source(s).value[..HEADER])
  }

  /** `cut` stops between the rename and the commit. */
  function Complete(s: State, now: int, cut: bool): State {
    if !Completable(s, now) then s
    else
      var r := s.record.value;
      State(Some(if cut then r else r.(status := Ready, expires := now + RETENTION)), None, Source(s))
  }

  /** Files first, then the record; `stage` tells how far it gets. */
  function Discard(s: State, stage: nat): State {
    if stage == 0 then s
    else if stage == 1 then s.(part := None)
    else if stage == 2 then s.(part := None, final := None)
    else State(None, None, None)
  }

  function Delete(s: State, now: int, stage: nat): State {
    if !Visible(s, now) || s.record.value.status.Recording? then s else Discard(s, stage)
  }

  function Cleanup(s: State, now: int, silent: bool, stage: nat): State {
    if s.record.None? then Discard(s, 2)
    else if s.record.value.expires <= now then Discard(s, stage)
    else if s.record.value.status.Recording? && silent then s.(record := Some(s.record.value.(status := Failed)))
    else s
  }

  /** The magic numbers as sequences: that of EBML, and "ftyp" after a length. */
  lemma HeadersExactly(header: seq<Byte>)
    ensures HeaderOk(WebM, header) <==> |header| == 12 && header[..4] == [0x1a, 0x45, 0xdf, 0xa3]
    ensures HeaderOk(Mp4, header) <==> |header| == 12 && header[4..8] == [0x66, 0x74, 0x79, 0x70]
  {
    if |header| == 12 {
      assert header[..4] == [header[0], header[1], header[2], header[3]];
      assert header[4..8] == [header[4], header[5], header[6], header[7]];
    }
  }

  /** Once a record has expired nothing but a cleanup touches it, and a cleanup never touches it before,
      except that it gives up a silent one. */
  lemma ExpiryExactly(s: State, now: int, size: nat, localOnly: bool, fits: bool, cut: bool, offset: nat,
                      data: seq<Byte>, written: nat, stage: nat, silent: bool)
    requires s.record.Some?
    ensures s.record.value.expires <= now ==>
              && Stop(s, now, size, localOnly, fits, cut) == Append(s, now, offset, data, written) == s
              && Complete(s, now, cut) == Delete(s, now, stage) == s
    ensures s.record.value.expires > now ==>
              Cleanup(s, now, silent, stage)
              == if silent && s.record.value.status.Recording?
                 then s.(record := Some(s.record.value.(status := Failed))) else s
  {
  }

  /** However far a removal gets, the part goes first, then the final file, then the record; what is left of
      a removed record is cleaned up. */
  lemma FilesGoFirst(s: State, stage: nat, now: int, silent: bool)
    ensures var t := Discard(s, stage);
            && (t.part == if stage >= 1 then None else s.part)
            && (t.final == if stage >= 2 then None else s.final)
            && (t.record == if stage >= 3 then None else s.record)
    ensures s.record.None? ==> Cleanup(s, now, silent, stage) == State(None, None, None)
  {
  }

  /** A stop takes effect exactly on a visible record that is not ready, keeps the size of an upload under
      way, and asks for no more than fits. It leaves an upload of that size, or a recording that stays
      with the client; either is kept for a day. */
  lemma StopsExactly(s: State, now: int, size: nat, localOnly: bool, fits: bool, cut: bool)
    ensures var uploads := !localOnly && 0 < size <= 0x8000_0000;
            var t := Stop(s, now, size, localOnly, fits, cut);
            if && s.record.Some? && s.record.value.expires > now && !s.record.value.status.Ready?
               && (s.record.value.status.Uploading? && !localOnly && size <= 0x8000_0000 ==>
                     size == s.record.value.size)
               && (uploads ==> fits)
            then && t.record.Some? && t.final == s.final && t.record.value.mime == s.record.value.mime
                 && t.record.value.expires == now + 24 * 60 * 60
                 && t.record.value.status == (if uploads then Uploading else LocalOnly)
                 && t.record.value.size == (if uploads then size else 0)
                 && t.part == (if uploads || cut then s.part else None)
            else t == s
  {
  }

  /** A completion takes effect exactly on an upload whose file, the part or else the final one, has the
      announced size and the header of its type; the record is then kept for a day. */
  lemma CompletesExactly(s: State, now: int)
    ensures var file := if s.part.Some? then s.part else s.final;
            var t := Complete(s, now, false);
            if && s.record.Some? && s.record.value.expires > now && s.record.value.status.Uploading?
               && file.Some? && |file.value| == s.record.value.size >= 12
               && HeaderOk(s.record.value.mime, file.value[..12])
            then && t.part.None? && t.final == file && t.record.Some?
                 && t.record.value == s.record.value.(status := Ready, expires := now + 24 * 60 * 60)
            else t == s
  {
  }

  // ---- Runs ----

  datatype Step =
    | Stopping(now: int, size: nat, localOnly: bool, fits: bool, cut: bool)
    | Appending(now: int, offset: nat, data: seq<Byte>, written: nat)
    | Completing(now: int, cut: bool)
    | Deleting(now: int, stage: nat)
    | Cleaning(now: int, silent: bool, stage: nat)

  /** The bytes of a chunk are those of the recording at its offset. */
  predicate Genuine(all: seq<Byte>, offset: nat, data: seq<Byte>) {
    offset + |data| <= |all| && data == all[offset..offset + |data|]
  }

  function Apply(all: seq<Byte>, s: State, step: Step): State {
    match step
    case Stopping(now, size, localOnly, fits, cut) => Stop(s, now, size, localOnly, fits, cut)
    case Appending(now, offset, data, written) =>
      if Genuine(all, offset, data) then Append(s, now, offset, data, written) else s
    case Completing(now, cut) => Complete(s, now, cut)
    case Deleting(now, stage) => Delete(s, now, stage)
    case Cleaning(now, silent, stage) => Cleanup(s, now, silent, stage)
  }

  function Exec(all: seq<Byte>, s: State, steps: seq<Step>): State
    decreases |steps|
  {
    if steps == [] then s else Exec(all, Apply(all, s, steps[0]), steps[1..])
  }

  predicate Started(s: State) {
    s.record.Some? && s.record.value.status.Recording? && s.part.None? && s.final.None?
  }

  // ---- Files are prefixes ----

  ghost predicate PrefixFile(all: seq<Byte>, file: Option<seq<Byte>>) {
    file.Some? ==> |file.value| <= |all| && file.value == all[..|file.value|]
  }

  ghost predicate IsReady(s: State) { s.record.Some? && s.record.value.status.Ready? }

  predicate Open(s: State) { s.record.Some? && s.record.value.status.Uploading? }

  ghost predicate Inv(all: seq<Byte>, s: State) {
    && PrefixFile(all, s.part) && PrefixFile(all, s.final)
    && (Open(s) ==> 0 < s.record.value.size <= MAX_FILE_BYTES)
    && (IsReady(s) ==> s.part.None? && (s.final.Some? ==> |s.final.value| == s.record.value.size))
  }

  lemma AppendPrefix(all: seq<Byte>, s: State, now: int, offset: nat, data: seq<Byte>, written: nat)
    requires Inv(all, s) && Genuine(all, offset, data)
    ensures Inv(all, Append(s, now, offset, data, written))
  {
    if Acceptable(s, now, offset, data) && written <= |data| {
      var content := if s.part.Some? then s.part.value else [];
      assert content + data[..written] == all[..offset + written];
    }
  }

  lemma ApplyInv(all: seq<Byte>, s: State, step: Step)
    requires Inv(all, s)
    ensures Inv(all, Apply(all, s, step))
  {
    match step {
      case Stopping(now, size, localOnly, fits, cut) =>
      case Appending(now, offset, data, written) =>
        if Genuine(all, offset, data) { AppendPrefix(all, s, now, offset, data, written); }
      case Completing(now, cut) =>
      case Deleting(now, stage) =>
      case Cleaning(now, silent, stage) =>
    }
  }

  lemma {:induction false} ExecInv(all: seq<Byte>, s: State, steps: seq<Step>)
    requires Inv(all, s)
    ensures Inv(all, Exec(all, s, steps))
    decreases |steps|
  {
    if steps != [] {
      ApplyInv(all, s, steps[0]);
      ExecInv(all, Apply(all, s, steps[0]), steps[1..]);
    }
  }

  /** Main result: whatever is cut off, part and final file are always prefixes of the recording, and
      the final file of a ready record, while it exists, is its prefix of the recorded size. */
  lemma FilesArePrefixes(all: seq<Byte>, start: State, steps: seq<Step>)
    requires Started(start)
    ensures var s := Exec(all, start, steps);
            && PrefixFile(all, s.part) && PrefixFile(all, s.final)
            && (IsReady(s) && s.final.Some? ==>
                   s.record.value.size <= |all| && s.final.value == all[..s.record.value.size])
  {
    ExecInv(all, start, steps);
  }

  // ---- Ready records keep their file ----

  /** The step removes a ready record's file and then fails to remove the record. */
  ghost predicate CutsRemoval(s: State, step: Step) {
    && IsReady(s)
    && ((step.Deleting? && Visible(s, step.now) && step.stage == 2) ||
        (step.Cleaning? && s.record.value.expires <= step.now && step.stage == 2))
  }

  ghost predicate Kept(s: State) { IsReady(s) ==> s.final.Some? }

  /** Main result: a ready record has its file after every step that does not cut off its removal, and
      only after those. */
  lemma ReadyKeepsFileExactly(all: seq<Byte>, s: State, step: Step)
    requires Inv(all, s) && Kept(s)
    ensures Kept(Apply(all, s, step)) <==> !CutsRemoval(s, step)
  {
  }

  ghost predicate NeverCut(all: seq<Byte>, s: State, steps: seq<Step>)
    decreases |steps|
  {
    steps == [] || (!CutsRemoval(s, steps[0]) && NeverCut(all, Apply(all, s, steps[0]), steps[1..]))
  }

  ghost predicate AlwaysKept(all: seq<Byte>, s: State, steps: seq<Step>)
    decreases |steps|
  {
    Kept(s) && (steps == [] || AlwaysKept(all, Apply(all, s, steps[0]), steps[1..]))
  }

  /** Main result: throughout a run ready records have their files if and only if no removal is cut off. */
  lemma {:induction false} ReadyFilesInRuns(all: seq<Byte>, s: State, steps: seq<Step>)
    requires Inv(all, s) && Kept(s)
    ensures AlwaysKept(all, s, steps) <==> NeverCut(all, s, steps)
    decreases |steps|
  {
    if steps != [] {
      ReadyKeepsFileExactly(all, s, steps[0]);
      ApplyInv(all, s, steps[0]);
      if Kept(Apply(all, s, steps[0])) {
        ReadyFilesInRuns(all, Apply(all, s, steps[0]), steps[1..]);
      }
    }
  }

  /** Main result: at the end of such a run the file of a ready record is exactly its prefix. */
  lemma {:induction false} ReadyFileExact(all: seq<Byte>, s: State, steps: seq<Step>)
    requires Inv(all, s) && Kept(s) && NeverCut(all, s, steps)
    ensures var t := Exec(all, s, steps);
            IsReady(t) ==> t.part.None? && t.record.value.size <= |all| && t.final == Some(all[..t.record.value.size])
    decreases |steps|
  {
    if steps != [] {
      ReadyKeepsFileExactly(all, s, steps[0]);
      ApplyInv(all, s, steps[0]);
      ReadyFileExact(all, Apply(all, s, steps[0]), steps[1..]);
    }
  }

  /** Main result: once ready, neither the size nor the file changes until they are removed. */
  lemma {:induction false} ReadyIsFrozen(all: seq<Byte>, s: State, steps: seq<Step>)
    requires IsReady(s)
    ensures var t := Exec(all, s, steps);
            && (t.record == s.record || t.record.None?)
            && (t.final == s.final || t.final.None?)
    decreases |steps|
  {
    if steps != [] {
      var t := Apply(all, s, steps[0]);
      ReadyStep(all, s, steps[0]);
      if IsReady(t) {
        ReadyIsFrozen(all, t, steps[1..]);
      } else {
        RemovedForGood(all, t, steps[1..]);
      }
    }
  }

  lemma ReadyStep(all: seq<Byte>, s: State, step: Step)
    requires IsReady(s)
    ensures var t := Apply(all, s, step);
            && (t.record == s.record || t.record.None?) && (t.final == s.final || t.final.None?)
            && (t.record.None? ==> t.final.None?)
  {
  }

  lemma {:induction false} RemovedForGood(all: seq<Byte>, s: State, steps: seq<Step>)
    requires s.record.None? && s.final.None?
    ensures Exec(all, s, steps).record.None? && Exec(all, s, steps).final.None?
    decreases |steps|
  {
    if steps != [] {
      RemovedForGood(all, Apply(all, s, steps[0]), steps[1..]);
    }
  }

  /** Main result: a removal that is not cut off leaves neither record nor file, whether it was asked for or
      the record had expired, and no run brings anything back. */
  lemma RemovalIsComplete(all: seq<Byte>, s: State, now: int, silent: bool, stage: nat, steps: seq<Step>)
    requires s.record.Some? && stage >= 3
    ensures s.record.value.expires > now && !s.record.value.status.Recording? ==>
              Exec(all, Apply(all, s, Deleting(now, stage)), steps) == State(None, None, None)
    ensures s.record.value.expires <= now ==>
              Exec(all, Apply(all, s, Cleaning(now, silent, stage)), steps) == State(None, None, None)
  {
    NothingStays(all, steps);
  }

  lemma {:induction false} NothingStays(all: seq<Byte>, steps: seq<Step>)
    ensures Exec(all, State(None, None, None), steps) == State(None, None, None)
    decreases |steps|
  {
    if steps != [] { NothingStays(all, steps[1..]); }
  }

  // ---- Completions can be retried ----

  /** Main result: a completion that was cut off after its rename succeeds when it is retried in time,
      however often it is cut off. */
  lemma {:induction false} CutCompletionRetries(all: seq<Byte>, s: State, now: int, cuts: nat, later: int)
    requires Inv(all, s) && Completable(s, now) && later < s.record.value.expires
    ensures var t := Complete(CutOften(s, now, cuts), later, false);
            IsReady(t) && t.record.value.size == s.record.value.size && t.final == Some(all[..s.record.value.size])
    decreases cuts
  {
    if cuts > 0 {
      CutCompletionRetries(all, Complete(s, now, true), now, cuts - 1, later);
    }
  }

  function CutOften(s: State, now: int, cuts: nat): State
    decreases cuts
  {
    if cuts == 0 then s else CutOften(Complete(s, now, true), now, cuts - 1)
  }

  /** A chunk that reaches the service in between makes the retry fail, unless it is the whole file:
      the chunk's part file hides the final one. */
  lemma ChunkHidesFinal(all: seq<Byte>, s: State, now: int, offset: nat, data: seq<Byte>, written: nat)
    requires Inv(all, s) && Completable(s, now) && s.part.None? && Genuine(all, offset, data)
    requires 0 < |data| <= CHUNK_BYTES && written <= |data|
    ensures Completable(Append(s, now, offset, data, written), now) <==>
        offset == 0 && written == |data| == s.record.value.size
  {
    var t := Append(s, now, offset, data, written);
    assert s.final.value == all[..s.record.value.size];
    if offset == 0 && written == |data| == s.record.value.size && data[..written] == data {
      assert t.part.value == all[..written];
    }
  }

  // ---- A client that resumes where it is told to ----

  function Rest(all: seq<Byte>, s: State): seq<Byte>
    requires s.record.Some? && Offset(s) <= s.record.value.size <= |all|
  {
    var end := if s.record.value.size - Offset(s) <= CHUNK_BYTES then s.record.value.size else Offset(s) + CHUNK_BYTES;
    all[Offset(s)..end]
  }

  /** The part is not longer than the announced size, and so much of the recording is a file of its type. */
  predicate Resumable(all: seq<Byte>, s: State) {
    && Open(s) && Length(s.part) <= s.record.value.size && HEADER <= s.record.value.size <= |all|
    && HeaderOk(s.record.value.mime, all[..HEADER])
  }

  /** Chunks, completions, and announcements of a size that can be uploaded. */
  predicate Uploads(steps: seq<Step>) {
    forall step | step in steps ::
      step.Appending? || step.Completing? || (step.Stopping? && !step.localOnly && step.size <= MAX_FILE_BYTES)
  }

  /** Main result: from whatever an interrupted upload left behind that can be resumed, sending the rest
      from the offset the service reports, and then completing, reaches ready with exactly the recording. */
  lemma {:induction false} ResumeReachesReady(all: seq<Byte>, s: State, now: int) returns (steps: seq<Step>)
    requires Inv(all, s) && IsUploading(s, now) && Resumable(all, s)
    ensures Uploads(steps)
    ensures var t := Exec(all, s, steps);
            IsReady(t) && t.record.value.size == s.record.value.size && t.final == Some(all[..s.record.value.size])
    decreases s.record.value.size - Offset(s)
  {
    var size := s.record.value.size;
    if Offset(s) == size {
      assert Source(s).Some? && Source(s).value == all[..size];
      assert all[..size][..HEADER] == all[..HEADER];
      steps := [Completing(now, false)];
      assert steps[1..] == [];
      assert Exec(all, s, steps) == Complete(s, now, false);
    } else {
      var data := Rest(all, s);
      var first := Appending(now, Offset(s), data, |data|);
      var t := Apply(all, s, first);
      assert data[..|data|] == data;
      ApplyInv(all, s, first);
      var more := ResumeReachesReady(all, t, now);
      steps := [first] + more;
      assert steps[0] == first && steps[1..] == more;
    }
  }

  /** An upload that cannot be resumed stays that way. */
  lemma {:induction false} StaysStuck(all: seq<Byte>, s: State, steps: seq<Step>)
    requires Inv(all, s) && Open(s) && !Resumable(all, s) && Uploads(steps)
    ensures Open(Exec(all, s, steps)) && !Resumable(all, Exec(all, s, steps))
    decreases |steps|
  {
    if steps != [] {
      assert steps[0] in steps;
      StuckStep(all, s, steps[0]);
      ApplyInv(all, s, steps[0]);
      StaysStuck(all, Apply(all, s, steps[0]), steps[1..]);
    }
  }

  lemma CompletableResumes(all: seq<Byte>, s: State, now: int)
    requires Inv(all, s) && Completable(s, now)
    ensures Resumable(all, s)
  {
    assert Source(s).value[..HEADER] == all[..HEADER];
  }

  lemma StuckStep(all: seq<Byte>, s: State, step: Step)
    requires Inv(all, s) && Open(s) && !Resumable(all, s) && Uploads([step])
    ensures Open(Apply(all, s, step)) && !Resumable(all, Apply(all, s, step))
  {
    assert step in [step];
    if step.Completing? && Completable(s, step.now) { CompletableResumes(all, s, step.now); }
  }

  /** Main result: an open upload can still become ready without starting over exactly when it can be
      resumed. */
  lemma ResumableExactly(all: seq<Byte>, s: State, now: int)
    requires Inv(all, s) && IsUploading(s, now)
    ensures Resumable(all, s) <==> exists steps: seq<Step> :: Uploads(steps) && IsReady(Exec(all, s, steps))
  {
    if Resumable(all, s) {
      var steps := ResumeReachesReady(all, s, now);
    } else {
      forall steps: seq<Step> | Uploads(steps) ensures !IsReady(Exec(all, s, steps)) { StaysStuck(all, s, steps); }
    }
  }

  lemma Then(all: seq<Byte>, s: State, step: Step, rest: seq<Step>)
    ensures Exec(all, s, [step] + rest) == Exec(all, Apply(all, s, step), rest)
  {
    assert ([step] + rest)[0] == step && ([step] + rest)[1..] == rest;
  }

  /** Not every reachable upload can be resumed: keeping a recording local, cut off before its part is
      removed, and then announcing a smaller size leaves the part too long. */
  lemma CutStopStrands(all: seq<Byte>, s: State, now: int) returns (steps: seq<Step>)
    requires Started(s) && Visible(s, now) && HEADER < |all|
    ensures var t := Exec(all, s, steps); IsUploading(t, now) && t.record.value.size == HEADER < Length(t.part)
  {
    var size := HEADER + 1;
    var data := all[..size];
    var announce, chunk := Stopping(now, size, false, true, false), Appending(now, 0, data, size);
    var keep, again := Stopping(now, size, true, true, true), Stopping(now, HEADER, false, true, false);
    steps := [announce] + ([chunk] + ([keep] + ([again] + [])));
    Then(all, s, announce, [chunk] + ([keep] + ([again] + [])));
    var s1 := Apply(all, s, announce);
    Then(all, s1, chunk, [keep] + ([again] + []));
    var s2 := Apply(all, s1, chunk);
    assert [] + data[..size] == data && s2.part == Some(data);
    Then(all, s2, keep, [again] + []);
    Then(all, Apply(all, s2, keep), again, []);
  }

  /** What is recorded so far begins like a file of its type. */
  predicate Headed(all: seq<Byte>, mime: Mime) { |all| >= HEADER && HeaderOk(mime, all[..HEADER]) }

  /** A local-only stop that is not cut removes the part, so that another announcement starts over. */
  lemma StartOver(all: seq<Byte>, s: State, now: int, size: nat) returns (steps: seq<Step>)
    requires Inv(all, s) && IsUploading(s, now) && Headed(all, s.record.value.mime)
    requires HEADER <= size <= |all| && size <= MAX_FILE_BYTES
    ensures var t := Exec(all, s, steps);
            IsReady(t) && t.record.value.size == size && t.final == Some(all[..size])
  {
    var keep, announce := Stopping(now, 0, true, true, false), Stopping(now, size, false, true, false);
    var s1 := Apply(all, s, keep);
    ApplyInv(all, s, keep);
    var s2 := Apply(all, s1, announce);
    ApplyInv(all, s1, announce);
    var rest := ResumeReachesReady(all, s2, now);
    steps := [keep] + ([announce] + rest);
    Then(all, s, keep, [announce] + rest);
    Then(all, s1, announce, rest);
  }

  lemma {:induction false} NeverReady(all: seq<Byte>, s: State, steps: seq<Step>)
    requires Inv(all, s) && !IsReady(s) && (s.record.Some? ==> !Headed(all, s.record.value.mime))
    ensures !IsReady(Exec(all, s, steps))
    decreases |steps|
  {
    if steps != [] {
      NeverReadyStep(all, s, steps[0]);
      ApplyInv(all, s, steps[0]);
      NeverReady(all, Apply(all, s, steps[0]), steps[1..]);
    }
  }

  lemma NeverReadyStep(all: seq<Byte>, s: State, step: Step)
    requires Inv(all, s) && !IsReady(s) && (s.record.Some? ==> !Headed(all, s.record.value.mime))
    ensures var t := Apply(all, s, step);
            !IsReady(t) && (t.record.Some? ==> !Headed(all, t.record.value.mime))
  {
    if step.Completing? && Completable(s, step.now) { CompletableResumes(all, s, step.now); }
  }

  /** Main result: by any steps at all, an open upload can become ready exactly when its recording
      begins like a file of its type. */
  lemma ReadyReachableExactly(all: seq<Byte>, s: State, now: int)
    requires Inv(all, s) && IsUploading(s, now)
    ensures Headed(all, s.record.value.mime) <==> exists steps: seq<Step> :: IsReady(Exec(all, s, steps))
  {
    if Headed(all, s.record.value.mime) {
      var steps := StartOver(all, s, now, HEADER);
    } else {
      forall steps: seq<Step> ensures !IsReady(Exec(all, s, steps)) { NeverReady(all, s, steps); }
    }
  }

  // ---- The service object ----

  datatype Answer = Done(offset: nat) | NotFound | Conflict(at: nat) | TooLarge

  class Upload {
    var record: Option<Record>
    var part: Option<seq<Byte>>
    var final: Option<seq<Byte>>

    ghost function View(): State
      reads this
    {
      State(record, part, final)
    }

    constructor (mime: Mime, now: int)
      ensures Started(View())
    {
      record := Some(Record(Recording, 0, mime, now + RETENTION + 120));
      part, final := None, None;
    }

    method ResumeAt(now: int) returns (answer: Answer)
      ensures answer.Done? <==> IsUploading(View(), now)
      ensures answer.Done? ==> answer.offset == Offset(View())
    {
      if record.None? || record.value.expires <= now { return NotFound; }
      if !record.value.status.Uploading? { return Conflict(0); }
      if part.None? {
        if final.Some? && |final.value| == record.value.size { return Done(|final.value|); }
        return Done(0);
      }
      answer := Done(|part.value|);
    }

    /** `written` bytes of the chunk reach the disk; fewer than all of them is a failed write. */
    method AppendChunk(now: int, offset: nat, data: seq<Byte>, written: nat) returns (answer: Answer)
      requires written <= |data|
      modifies this`part
      ensures View() == Append(old(View()), now, offset, data, written)
      ensures Acceptable(old(View()), now, offset, data) && written == |data| ==> answer == Done(offset + |data|)
      ensures answer.Done? ==> Acceptable(old(View()), now, offset, data) && part.value[offset..] == data
    {
      if |data| == 0 || |data| > CHUNK_BYTES { return Conflict(0); }
      if record.None? || record.value.expires <= now { return NotFound; }
      if !record.value.status.Uploading? { return Conflict(0); }
      if part.None? {
        part := Some([]);
      }
      var content := part.value;
      if |content| != offset { return Conflict(|content|); }
      if offset + |data| > record.value.size || offset + |data| > MAX_FILE_BYTES { return TooLarge; }
      part := Some(content + data[..written]);
      if written < |data| { return Conflict(offset); }
      answer := Done(offset + |data|);
    }

    method CompleteUpload(now: int, cut: bool) returns (answer: Answer)
      modifies this
      ensures View() == Complete(old(View()), now, cut)
      ensures answer.Done? <==>
          (!cut && Completable(old(View()), now)) || (Visible(old(View()), now) && IsReady(old(View())))
    {
      if record.None? || record.value.expires <= now { return NotFound; }
      var r := record.value;
      if r.status.Ready? { return Done(r.size); }
      if !r.status.Uploading? { return Conflict(0); }
      var renamed := part.None?;
      var source := if renamed then final else part;
      if source.None? { return NotFound; }
      if |source.value| != r.size || |source.value| < HEADER { return Conflict(0); }
      if !HeaderOk(r.mime, source.value[..HEADER]) { return Conflict(0); }
      if !renamed {
        final := part;
        part := None;
      }
      if cut { return Conflict(0); }
      record := Some(r.(status := Ready, expires := now + RETENTION));
      answer := Done(r.size);
    }

    method StopRecording(now: int, size: nat, localOnly: bool, fits: bool, cut: bool) returns (ok: bool)
      modifies this
      ensures View() == Stop(old(View()), now, size, localOnly, fits, cut)
      ensures ok == Stoppable(old(View()), now, size, localOnly, fits)
    {
      if record.None? || record.value.expires <= now || record.value.status.Ready? { return false; }
      var r := record.value;
      if r.status.Uploading? && !localOnly && size <= MAX_FILE_BYTES && size != r.size { return false; }
      if localOnly || size > MAX_FILE_BYTES || size == 0 {
        record := Some(r.(status := LocalOnly, size := 0, expires := now + RETENTION));
        if !cut {
          part := None;
        }
        return true;
      }
      if !fits { return false; }
      record := Some(r.(status := Uploading, size := size, expires := now + RETENTION));
      ok := true;
    }

    /** Removes the files one by one and then the record. */
    method Remove(stage: nat)
      modifies this
      ensures View() == Discard(old(View()), stage)
    {
      if stage == 0 { return; }
      part := None;
      if stage == 1 { return; }
      final := None;
      if stage == 2 { return; }
      record := None;
    }

    method CleanUp(now: int, silent: bool, stage: nat)
      modifies this
      ensures View() == Cleanup(old(View()), now, silent, stage)
    {
      if record.None? {
        Remove(2);
      } else if record.value.expires <= now {
        Remove(stage);
      } else if record.value.status.Recording? && silent {
        record := Some(record.value.(status := Failed));
      }
    }
  }
}
