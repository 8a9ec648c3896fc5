/** Runs of one upload session: any operations, in any order, each cut short
    after any number of its durable writes.  Sessions hold their own lock and
    touch only their own directory, so one session stands for all. */
module UploadRuns {
  import opened Numbers
  import opened Options
  import opened Uploads

  /** `acked` holds every chunk whose Put was answered. */
  datatype World = World(dir: Dir, acked: set<(int, Bytes)>)

  /** `done` of the operation's writes became durable; `replied` says whether the
      caller heard of its success. */
  datatype Step = Step(op: Op, now: int, done: nat, replied: bool)

  const START := World(NO_DIR, {})

  ghost predicate Sees(listing: seq<int>, files: map<int, Bytes>) {
    forall start :: start in files ==> start in listing
  }

  ghost predicate Enabled(w: World, s: Step) {
    var p := PlanOf(w.dir, s.op, s.now);
    && s.done <= |p.writes|
    && (s.replied ==> s.done == |p.writes|)
    && match s.op {
         case CreateOp(size, layout) =>
           size > 0 ==> Tiles(layout, size) && forall i :: 0 <= i < |layout| ==> layout[i].digest.None?
         case CancelOp(listing) => Sees(listing, w.dir.files)
         case SweepOp(listing) => Sees(listing, w.dir.files)
         case _ => true
       }
  }

  ghost function Do(w: World, s: Step): (r: World)
    requires Enabled(w, s)
  {
    var p := PlanOf(w.dir, s.op, s.now);
    World(ApplyAll(w.dir, p.writes[..s.done]),
          if s.replied && s.op.PutOp? && p.reply.Ok? then w.acked + {(s.op.start, s.op.bytes)} else w.acked)
  }

  ghost predicate Runs(w: World, steps: seq<Step>)
    decreases |steps|
  {
    steps == [] || (Enabled(w, steps[0]) && Runs(Do(w, steps[0]), steps[1..]))
  }

  ghost function After(w: World, steps: seq<Step>): (r: World)
    requires Runs(w, steps)
    decreases |steps|
  {
    if steps == [] then w else After(Do(w, steps[0]), steps[1..])
  }

  // ---------------------------------------------------------------------
  // The invariant
  // ---------------------------------------------------------------------

  ghost predicate IsCancelled(d: Dir) {
    d.manifest.Some? && d.manifest.value.state == Cancelled
  }

  /** Every chunk marked complete has its file, with the recorded digest. */
  ghost predicate UploadOk(s: Upload, files: map<int, Bytes>) {
    && 0 < s.size <= MAX_SIZE && Tiles(s.chunks, s.size)
    && (forall i :: 0 <= i < |s.chunks| && s.chunks[i].digest.Some? ==> Intact(files, s.chunks[i]))
    && (s.state == Complete ==>
          AllIntact(files, s.chunks, |s.chunks|) && s.digest == Some(Sha256(Content(files, s.chunks, |s.chunks|))))
  }

  ghost predicate DirOk(d: Dir) {
    d.manifest.Some? && !IsCancelled(d) ==> UploadOk(d.manifest.value, d.files)
  }

  /** The session still holds the bytes it acknowledged. */
  ghost predicate Holds(d: Dir, start: int, bytes: Bytes) {
    && d.manifest.Some?
    && (!IsCancelled(d) ==>
          && 0 <= start && start % CHUNK_SIZE == 0 && start / CHUNK_SIZE < |d.manifest.value.chunks|
          && d.manifest.value.chunks[start / CHUNK_SIZE].digest == Some(Sha256(bytes))
          && start in d.files && d.files[start] == bytes)
  }

  ghost predicate WorldOk(w: World) {
    DirOk(w.dir) && forall a :: a in w.acked ==> Holds(w.dir, a.0, a.1)
  }

  // ---------------------------------------------------------------------
  // Cancellation
  // ---------------------------------------------------------------------

  ghost predicate Buries(ws: seq<Write>) {
    forall i :: 0 <= i < |ws| && ws[i].Save? ==> ws[i].upload.state == Cancelled
  }

  lemma {:induction false} StaysCancelled(d: Dir, ws: seq<Write>)
    requires IsCancelled(d) && Buries(ws)
    ensures IsCancelled(ApplyAll(d, ws))
    decreases |ws|
  {
    if ws == [] {
    } else {
      StaysCancelled(Apply(d, ws[0]), ws[1..]);
    }
  }

  /** From the first durable write on, a cancellation is final. */
  lemma CancelPrefix(d: Dir, s: Upload, listing: seq<int>, done: nat)
    requires done <= |PlanCancelLocked(s, listing).writes|
    ensures var ws := PlanCancelLocked(s, listing).writes;
            Buries(ws) && (done > 0 ==> IsCancelled(ApplyAll(d, ws[..done])))
  {
    var ws := PlanCancelLocked(s, listing).writes;
    if done > 0 {
      assert Buries(ws[..done]) && ws[..done][0] == ws[0];
      StaysCancelled(Apply(d, ws[0]), ws[..done][1..]);
    }
  }

  function Unlisted(files: map<int, Bytes>, listing: seq<int>): (r: map<int, Bytes>) {
    map start | start in files && start !in listing :: files[start]
  }

  lemma NoneLeft(files: map<int, Bytes>, listing: seq<int>)
    requires Sees(listing, files)
    ensures Unlisted(files, listing) == map[]
  {
    forall start ensures start !in Unlisted(files, listing) {
    }
  }

  lemma {:induction false} UnlinkAll(d: Dir, listing: seq<int>, rest: seq<Write>)
    ensures ApplyAll(d, Unlinks(listing) + rest)
            == ApplyAll(d.(files := Unlisted(d.files, listing)), rest)
    decreases |listing|
  {
    if listing == [] {
      assert Unlinks(listing) + rest == rest;
      assert Unlisted(d.files, listing) == d.files;
    } else {
      var d' := Apply(d, Unlink(listing[0]));
      assert (Unlinks(listing) + rest)[1..] == Unlinks(listing[1..]) + rest;
      UnlinkAll(d', listing[1..], rest);
      assert Unlisted(d'.files, listing[1..]) == Unlisted(d.files, listing);
    }
  }

  /** A finished cancellation leaves no chunk file. */
  lemma CancelCleans(d: Dir, s: Upload, listing: seq<int>)
    requires Sees(listing, d.files) && !(s.state == Cancelled && s.cleaned)
    ensures var d' := ApplyAll(d, PlanCancelLocked(s, listing).writes);
            d'.files == map[] && IsCancelled(d') && d'.manifest.value.cleaned
  {
    var tombstone := s.(state := Cancelled);
    var last := [Save(tombstone.(cleaned := true))];
    var ws := PlanCancelLocked(s, listing).writes;
    assert ws[1..] == Unlinks(listing) + last;
    var d' := Apply(d, Save(tombstone));
    UnlinkAll(d', listing, last);
    NoneLeft(d.files, listing);
    ApplyOne(d'.(files := Unlisted(d.files, listing)), last[0]);
  }

  // ---------------------------------------------------------------------
  // Every prefix of every operation keeps the invariant
  // ---------------------------------------------------------------------

  lemma CancelKeeps(w: World, s: Upload, listing: seq<int>, done: nat)
    requires WorldOk(w) && done <= |PlanCancelLocked(s, listing).writes|
    ensures WorldOk(w.(dir := ApplyAll(w.dir, PlanCancelLocked(s, listing).writes[..done])))
  {
    CancelPrefix(w.dir, s, listing, done);
  }

  lemma FileKeeps(d: Dir, start: int, bytes: Bytes)
    requires DirOk(d) && d.manifest.Some? && d.manifest.value.state == Uploading
    requires 0 <= start && start % CHUNK_SIZE == 0 && start / CHUNK_SIZE < |d.manifest.value.chunks|
    requires d.manifest.value.chunks[start / CHUNK_SIZE].digest.None?
    ensures DirOk(Apply(d, Store(start, bytes)))
  {
    var s, d' := d.manifest.value, Apply(d, Store(start, bytes));
    forall i | 0 <= i < |s.chunks| && s.chunks[i].digest.Some? ensures Intact(d'.files, s.chunks[i]) {
      assert Intact(d.files, s.chunks[i]) && Spans(s.chunks[i], i, s.size);
    }
  }

  lemma MarkKeeps(d: Dir, start: int, bytes: Bytes)
    requires DirOk(d) && d.manifest.Some? && d.manifest.value.state == Uploading
    requires 0 <= start && start % CHUNK_SIZE == 0 && start / CHUNK_SIZE < |d.manifest.value.chunks|
    requires d.manifest.value.chunks[start / CHUNK_SIZE].digest.None?
    requires var c := d.manifest.value.chunks[start / CHUNK_SIZE]; |bytes| == c.end - c.start
    requires start in d.files && d.files[start] == bytes
    ensures DirOk(Apply(d, Save(Marked(d.manifest.value, start / CHUNK_SIZE, bytes))))
  {
    var s := d.manifest.value;
    var s' := Marked(s, start / CHUNK_SIZE, bytes);
    forall i | 0 <= i < |s'.chunks| ensures Spans(s'.chunks[i], i, s'.size) {
      assert Spans(s.chunks[i], i, s.size);
    }
    forall i | 0 <= i < |s'.chunks| && s'.chunks[i].digest.Some? ensures Intact(d.files, s'.chunks[i]) {
      if i != start / CHUNK_SIZE {
        assert Intact(d.files, s.chunks[i]);
      }
    }
  }

  lemma PutDir(d: Dir, start: int, bytes: Bytes, now: int, done: nat)
    requires DirOk(d) && done <= |PlanPut(d, start, bytes, now).writes|
    ensures DirOk(ApplyAll(d, PlanPut(d, start, bytes, now).writes[..done]))
  {
    if done > 0 {
      var marked := Marked(d.manifest.value, start / CHUNK_SIZE, bytes);
      ApplyTwo(d, Store(start, bytes), Save(marked));
      FileKeeps(d, start, bytes);
      if done == 2 {
        MarkKeeps(Apply(d, Store(start, bytes)), start, bytes);
        assert PlanPut(d, start, bytes, now).writes[..done] == [Store(start, bytes), Save(marked)];
      } else {
        assert PlanPut(d, start, bytes, now).writes[..done] == [Store(start, bytes), Save(marked)][..1];
      }
    }
  }

  /** What was acknowledged before survives the put of another chunk. */
  lemma PutHolds(d: Dir, start: int, bytes: Bytes, now: int, done: nat, acked: (int, Bytes))
    requires Holds(d, acked.0, acked.1) && done <= |PlanPut(d, start, bytes, now).writes|
    ensures Holds(ApplyAll(d, PlanPut(d, start, bytes, now).writes[..done]), acked.0, acked.1)
  {
    if done > 0 {
      var marked := Marked(d.manifest.value, start / CHUNK_SIZE, bytes);
      ApplyTwo(d, Store(start, bytes), Save(marked));
      if done == 2 {
        assert PlanPut(d, start, bytes, now).writes[..done] == [Store(start, bytes), Save(marked)];
      } else {
        assert PlanPut(d, start, bytes, now).writes[..done] == [Store(start, bytes), Save(marked)][..1];
      }
    }
  }

  /** An answered put is held. */
  lemma PutAcked(d: Dir, start: int, bytes: Bytes, now: int)
    requires DirOk(d) && PlanPut(d, start, bytes, now).reply.Ok?
    ensures Holds(ApplyAll(d, PlanPut(d, start, bytes, now).writes), start, bytes)
  {
    var s, i := d.manifest.value, start / CHUNK_SIZE;
    if s.chunks[i].digest.Some? {
      assert Intact(d.files, s.chunks[i]) && Spans(s.chunks[i], i, s.size);
    } else {
      ApplyTwo(d, Store(start, bytes), Save(Marked(s, i, bytes)));
    }
  }

  lemma PutKeeps(w: World, s: Step)
    requires WorldOk(w) && Enabled(w, s) && s.op.PutOp?
    ensures WorldOk(Do(w, s))
  {
    var start, bytes := s.op.start, s.op.bytes;
    var ws := PlanPut(w.dir, start, bytes, s.now).writes;
    PutDir(w.dir, start, bytes, s.now, s.done);
    forall a | a in Do(w, s).acked ensures Holds(Do(w, s).dir, a.0, a.1) {
      if a in w.acked {
        PutHolds(w.dir, start, bytes, s.now, s.done, a);
      } else {
        assert ws[..s.done] == ws;
        PutAcked(w.dir, start, bytes, s.now);
      }
    }
  }

  lemma CreateKeeps(w: World, s: Step)
    requires WorldOk(w) && Enabled(w, s) && s.op.CreateOp?
    ensures WorldOk(Do(w, s))
  {
    if s.done == 1 {
      var ws := PlanCreate(w.dir, s.op.size, s.op.layout, s.now).writes;
      assert ws[..1] == [ws[0]];
      ApplyOne(w.dir, ws[0]);
    }
  }

  lemma CompleteKeeps(w: World, s: Step)
    requires WorldOk(w) && Enabled(w, s) && s.op.CompleteOp?
    ensures WorldOk(Do(w, s))
  {
    if s.done == 1 {
      var ws := PlanComplete(w.dir, s.now).writes;
      assert ws[..1] == [ws[0]];
      ApplyOne(w.dir, ws[0]);
    }
  }

  lemma StepKeeps(w: World, s: Step)
    requires WorldOk(w) && Enabled(w, s)
    ensures WorldOk(Do(w, s))
  {
    match s.op
    case CreateOp(_, _) => CreateKeeps(w, s);
    case PutOp(_, _) => PutKeeps(w, s);
    case CompleteOp => CompleteKeeps(w, s);
    case CancelOp(listing) =>
      var u := if w.dir.manifest.Some? then w.dir.manifest.value else NO_UPLOAD;
      CancelKeeps(w, u, listing, s.done);
    case SweepOp(listing) =>
      if Sweepable(w.dir, s.now) {
        CancelKeeps(w, w.dir.manifest.value, listing, s.done);
      }
    case ReadOp(_, _) =>
  }

  lemma {:induction false} RunKeeps(w: World, steps: seq<Step>)
    requires WorldOk(w) && Runs(w, steps)
    ensures WorldOk(After(w, steps))
    decreases |steps|
  {
    if steps == [] {
    } else {
      StepKeeps(w, steps[0]);
      RunKeeps(Do(w, steps[0]), steps[1..]);
    }
  }

  // ---------------------------------------------------------------------
  // What every run promises
  // ---------------------------------------------------------------------

  /** In every crash state of a session that is not cancelled, a chunk marked
      complete has a whole file with its digest. */
  lemma MarkedIsStored(steps: seq<Step>, i: nat)
    requires Runs(START, steps)
    requires var d := After(START, steps).dir;
             d.manifest.Some? && !IsCancelled(d) && i < |d.manifest.value.chunks|
             && d.manifest.value.chunks[i].digest.Some?
    ensures var d := After(START, steps).dir; Intact(d.files, d.manifest.value.chunks[i])
  {
    RunKeeps(START, steps);
  }

  /** Acknowledged bytes never change. */
  lemma AcknowledgedKept(steps: seq<Step>, start: int, bytes: Bytes)
    requires Runs(START, steps) && (start, bytes) in After(START, steps).acked
    ensures var d := After(START, steps).dir;
            IsCancelled(d) || (start in d.files && d.files[start] == bytes)
  {
    RunKeeps(START, steps);
    assert Holds(After(START, steps).dir, (start, bytes).0, (start, bytes).1);
  }

  lemma StepStaysCancelled(w: World, s: Step)
    requires IsCancelled(w.dir) && Enabled(w, s)
    ensures IsCancelled(Do(w, s).dir)
  {
    match s.op
    case CancelOp(listing) => CancelPrefix(w.dir, w.dir.manifest.value, listing, s.done);
    case SweepOp(listing) => CancelPrefix(w.dir, w.dir.manifest.value, listing, if Sweepable(w.dir, s.now) then s.done else 0);
    case _ =>
  }

  /** A cancelled session stays cancelled, whatever follows. */
  lemma {:induction false} CancelledForever(w: World, steps: seq<Step>)
    requires IsCancelled(w.dir) && Runs(w, steps)
    ensures IsCancelled(After(w, steps).dir)
    decreases |steps|
  {
    if steps == [] {
    } else {
      StepStaysCancelled(w, steps[0]);
      CancelledForever(Do(w, steps[0]), steps[1..]);
    }
  }

  ghost predicate IsComplete(d: Dir) {
    d.manifest.Some? && d.manifest.value.state == Complete
  }

  lemma StepKeepsComplete(w: World, s: Step)
    requires WorldOk(w) && Enabled(w, s) && !s.op.CancelOp? && IsComplete(w.dir)
    ensures Do(w, s).dir == w.dir
  {
    if s.op.PutOp? {
      var u, i := w.dir.manifest.value, s.op.start / CHUNK_SIZE;
      if 0 <= i < |u.chunks| {
        assert Intact(w.dir.files, u.chunks[i]);
      }
    }
  }

  lemma {:induction false} CompleteStays(w: World, steps: seq<Step>)
    requires WorldOk(w) && Runs(w, steps) && IsComplete(w.dir)
    requires forall i :: 0 <= i < |steps| ==> !steps[i].op.CancelOp?
    ensures After(w, steps).dir == w.dir
    decreases |steps|
  {
    if steps == [] {
    } else {
      StepKeeps(w, steps[0]);
      StepKeepsComplete(w, steps[0]);
      CompleteStays(Do(w, steps[0]), steps[1..]);
    }
  }

  /** Once complete, a session stays as it is for as long as nobody cancels it:
      no put, completion, read, crash or sweep touches it. */
  lemma CompleteIsStable(past: seq<Step>, steps: seq<Step>)
    requires Runs(START, past) && Runs(After(START, past), steps) && IsComplete(After(START, past).dir)
    requires forall i :: 0 <= i < |steps| ==> !steps[i].op.CancelOp?
    ensures After(After(START, past), steps).dir == After(START, past).dir
  {
    RunKeeps(START, past);
    CompleteStays(After(START, past), steps);
  }

  // ---------------------------------------------------------------------
  // Cleaned sessions
  // ---------------------------------------------------------------------

  /** A session marked cleaned is cancelled and has no chunk file. */
  ghost predicate CleanOk(d: Dir) {
    d.manifest.Some? && d.manifest.value.cleaned ==> d.manifest.value.state == Cancelled && d.files == map[]
  }

  ghost predicate Dirty(d: Dir) {
    d.manifest.Some? && !d.manifest.value.cleaned
  }

  lemma {:induction false} StaysDirty(d: Dir, ws: seq<Write>)
    requires Dirty(d) && forall i :: 0 <= i < |ws| && ws[i].Save? ==> !ws[i].upload.cleaned
    ensures Dirty(ApplyAll(d, ws))
    decreases |ws|
  {
    if ws == [] {
    } else {
      StaysDirty(Apply(d, ws[0]), ws[1..]);
    }
  }

  /** A cancellation cut short is not marked cleaned, and a whole one cleans. */
  lemma CancelClean(d: Dir, s: Upload, listing: seq<int>, done: nat)
    requires CleanOk(d) && Sees(listing, d.files) && !s.cleaned && done <= |PlanCancelLocked(s, listing).writes|
    ensures CleanOk(ApplyAll(d, PlanCancelLocked(s, listing).writes[..done]))
  {
    var ws := PlanCancelLocked(s, listing).writes;
    if done == |ws| {
      CancelCleans(d, s, listing);
      assert ws[..done] == ws;
    } else if done > 0 {
      var cut := ws[..done];
      assert cut[0] == ws[0] && cut[1..] == ws[1..done];
      StaysDirty(Apply(d, cut[0]), cut[1..]);
    }
  }

  lemma PutClean(d: Dir, start: int, bytes: Bytes, now: int, done: nat)
    requires CleanOk(d) && done <= |PlanPut(d, start, bytes, now).writes|
    ensures CleanOk(ApplyAll(d, PlanPut(d, start, bytes, now).writes[..done]))
  {
    if done > 0 {
      var cut := PlanPut(d, start, bytes, now).writes[..done];
      StaysDirty(d, cut);
    }
  }

  lemma StepClean(w: World, s: Step)
    requires CleanOk(w.dir) && Enabled(w, s)
    ensures CleanOk(Do(w, s).dir)
  {
    match s.op
    case CancelOp(listing) =>
      var u := if w.dir.manifest.Some? then w.dir.manifest.value else NO_UPLOAD;
      if !u.cleaned {
        CancelClean(w.dir, u, listing, s.done);
      }
    case SweepOp(listing) =>
      if Sweepable(w.dir, s.now) {
        CancelClean(w.dir, w.dir.manifest.value, listing, s.done);
      }
    case PutOp(start, bytes) => PutClean(w.dir, start, bytes, s.now, s.done);
    case CreateOp(size, layout) =>
      if s.done == 1 {
        var ws := PlanCreate(w.dir, size, layout, s.now).writes;
        assert ws[..1] == [ws[0]];
        ApplyOne(w.dir, ws[0]);
      }
    case CompleteOp =>
      if s.done == 1 {
        var ws := PlanComplete(w.dir, s.now).writes;
        assert ws[..1] == [ws[0]];
        ApplyOne(w.dir, ws[0]);
      }
    case ReadOp(_, _) =>
  }

  lemma {:induction false} RunClean(w: World, steps: seq<Step>)
    requires CleanOk(w.dir) && Runs(w, steps)
    ensures CleanOk(After(w, steps).dir)
    decreases |steps|
  {
    if steps == [] {
    } else {
      StepClean(w, steps[0]);
      RunClean(Do(w, steps[0]), steps[1..]);
    }
  }

  /** In every crash state a session marked cleaned has no chunk file left. */
  lemma CleanedIsEmpty(steps: seq<Step>)
    requires Runs(START, steps)
    ensures CleanOk(After(START, steps).dir)
  {
    RunClean(START, steps);
  }

  // ---------------------------------------------------------------------
  // Reading
  // ---------------------------------------------------------------------

  lemma SliceNext(before: Bytes, file: Bytes, c: Chunk, start: int, end: int)
    requires |before| == c.start && |file| == c.end - c.start && start <= end
    ensures Clip(before + file, start, end)
            == if c.end <= start || c.start >= end then Clip(before, start, end)
               else Clip(before, start, end) + Piece(file, c, start, end)
  {
    ClipConcat(before, file, start, end);
    PieceIsClip(file, c, start, end);
  }

  lemma PiecesNext(files: map<int, Bytes>, chunks: seq<Chunk>, start: int, end: int, n: nat, before: Bytes)
    requires 0 < n <= |chunks| && start <= end && Intact(files, chunks[n - 1]) && |before| == chunks[n - 1].start
    requires Pieces(files, chunks, start, end, n - 1) == Some(Clip(before, start, end))
    ensures Pieces(files, chunks, start, end, n) == Some(Clip(before + files[chunks[n - 1].start], start, end))
  {
    SliceNext(before, files[chunks[n - 1].start], chunks[n - 1], start, end);
  }

  /** Each chunk starts where the content before it ends. */
  ghost predicate Contiguous(files: map<int, Bytes>, chunks: seq<Chunk>, n: nat)
    requires n <= |chunks| && AllIntact(files, chunks, n)
  {
    forall k :: 0 <= k < n ==> |Content(files, chunks, k)| == chunks[k].start
  }

  lemma TilesAreContiguous(files: map<int, Bytes>, chunks: seq<Chunk>, size: int, n: nat)
    requires Tiles(chunks, size) && n <= |chunks| && AllIntact(files, chunks, n)
    ensures Contiguous(files, chunks, n)
  {
    forall k | 0 <= k < n ensures |Content(files, chunks, k)| == chunks[k].start {
      ContentLength(files, chunks, size, k);
      assert Spans(chunks[k], k, size);
    }
  }

  lemma {:induction false} PiecesAreASlice(files: map<int, Bytes>, chunks: seq<Chunk>, start: int, end: int, n: nat)
    requires n <= |chunks| && AllIntact(files, chunks, n) && Contiguous(files, chunks, n) && start <= end
    ensures Pieces(files, chunks, start, end, n) == Some(Clip(Content(files, chunks, n), start, end))
  {
    if n == 0 {
    } else {
      PiecesAreASlice(files, chunks, start, end, n - 1);
      assert Intact(files, chunks[n - 1]);
      PiecesNext(files, chunks, start, end, n, Content(files, chunks, n - 1));
    }
  }

  lemma TiledSlice(files: map<int, Bytes>, chunks: seq<Chunk>, size: int, start: int, end: int)
    requires Tiles(chunks, size) && AllIntact(files, chunks, |chunks|) && start <= end
    ensures Pieces(files, chunks, start, end, |chunks|) == Some(Clip(Content(files, chunks, |chunks|), start, end))
  {
    TilesAreContiguous(files, chunks, size, |chunks|);
    PiecesAreASlice(files, chunks, start, end, |chunks|);
  }

  /** A read of a complete session is accepted exactly for a range of at most one
      chunk's length inside it, and returns that slice of the whole content. */
  lemma ReadsExactly(steps: seq<Step>, start: int, end: int, now: int)
    requires Runs(START, steps)
    requires var d := After(START, steps).dir; d.manifest.Some? && d.manifest.value.state == Complete
    ensures var d := After(START, steps).dir;
            var s := d.manifest.value;
            var to := if end < 0 then s.size else end;
            && AllIntact(d.files, s.chunks, |s.chunks|)
            && var content := Content(d.files, s.chunks, |s.chunks|);
               && |content| == s.size
               && PlanRead(d, start, end, now).reply
                  == if 0 <= start <= to <= s.size && to - start <= CHUNK_SIZE then Data(content[start..to])
                     else Failed(Conflict)
  {
    var d := After(START, steps).dir;
    RunKeeps(START, steps);
    var s := d.manifest.value;
    var to := if end < 0 then s.size else end;
    ContentLength(d.files, s.chunks, s.size, |s.chunks|);
    if 0 <= start <= to <= s.size {
      TiledSlice(d.files, s.chunks, s.size, start, to);
    }
  }
}
