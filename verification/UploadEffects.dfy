/** What an upload session accepts and stores, and that what goes in comes out. */
module UploadEffects {
  import opened Numbers
  import opened Options
  import opened Uploads
  import opened UploadRuns

  // ---------------------------------------------------------------------
  // What is accepted
  // ---------------------------------------------------------------------

  /** A new session starts empty and lives a week; an old one is answered as it is
      while it lives, and for its own size only. */
  lemma CreateDecides(d: Dir, size: int, layout: seq<Chunk>, now: int)
    ensures var p := PlanCreate(d, size, layout, now);
            if size <= 0 || size > 68_719_476_736 then p == Plan([], Failed(Invalid))
            else if d.manifest.None? then
              var u := Upload(size, now + 604_800, Uploading, None, false, layout);
              p.reply == Ok(u) && ApplyAll(d, p.writes) == d.(manifest := Some(u))
            else
              var u := d.manifest.value;
              && p.writes == []
              && (p.reply == Ok(u) <==>
                    u.size == size && (u.state == Complete || (u.state == Uploading && now < u.expires)))
  {
    if d.manifest.None? && 0 < size <= MAX_SIZE {
      ApplyOne(d, Save(Upload(size, now + LIFETIME, Uploading, None, false, layout)));
    }
  }

  /** A session that is cancelled, or was not completed in time, takes and gives
      nothing. */
  lemma DeadRefuses(d: Dir, start: int, end: int, bytes: Bytes, now: int)
    requires d.manifest.Some?
    requires var u := d.manifest.value; u.state == Cancelled || (u.state == Uploading && u.expires <= now)
    ensures PlanPut(d, start, bytes, now) == PlanComplete(d, now) == PlanRead(d, start, end, now) == Plan([], Failed(Expired))
  {
  }

  /** The chunk at `start` has been stored. */
  ghost predicate Has(u: Upload, start: int) {
    && 0 <= start && start / CHUNK_SIZE < |u.chunks| && u.chunks[start / CHUNK_SIZE].digest.Some?
  }

  /** The manifest after the chunk at `start` was stored. */
  ghost predicate Adds(u: Upload, u': Upload, start: int, bytes: Bytes) {
    && 0 <= start && start / CHUNK_SIZE < |u.chunks| == |u'.chunks| && u' == u.(chunks := u'.chunks)
    && u'.chunks[start / CHUNK_SIZE] == u.chunks[start / CHUNK_SIZE].(digest := Some(Sha256(bytes)))
    && forall i :: 0 <= i < |u.chunks| && i != start / CHUNK_SIZE ==> u'.chunks[i] == u.chunks[i]
  }

  lemma ChunkAt(u: Upload, files: map<int, Bytes>, start: int)
    requires UploadOk(u, files) && 0 <= start < u.size && start % CHUNK_SIZE == 0
    ensures start / CHUNK_SIZE < |u.chunks|
    ensures var c := u.chunks[start / CHUNK_SIZE];
            c.start == start && c.end - c.start == Min(CHUNK_SIZE, u.size - start) && (c.digest.Some? ==> Intact(files, c))
  {
    var i := start / CHUNK_SIZE;
    assert i * CHUNK_SIZE == start;
    assert Spans(u.chunks[i], i, u.size);
  }

  lemma PutStores(d: Dir, start: int, bytes: Bytes, now: int)
    requires DirOk(d) && d.manifest.Some?
    requires var u := d.manifest.value; u.state == Uploading && now < u.expires
    ensures var u, p := d.manifest.value, PlanPut(d, start, bytes, now);
            && (p.reply.Ok? <==>
                  && 0 <= start < u.size && start % CHUNK_SIZE == 0 && |bytes| == Min(CHUNK_SIZE, u.size - start)
                  && (Has(u, start) ==> start in d.files && d.files[start] == bytes))
            && (!p.reply.Ok? ==> p.writes == [])
            && (p.reply.Ok? ==>
                  var d' := ApplyAll(d, p.writes);
                  d'.files == d.files[start := bytes] && d'.manifest.Some? && Adds(u, d'.manifest.value, start, bytes))
  {
    var u, p := d.manifest.value, PlanPut(d, start, bytes, now);
    if 0 <= start < u.size && start % CHUNK_SIZE == 0 {
      ChunkAt(u, d.files, start);
      if p.writes != [] {
        ApplyTwo(d, p.writes[0], p.writes[1]);
      } else if p.reply.Ok? {
        assert d.files == d.files[start := bytes];
      }
    }
  }

  /** In every reachable session that still takes chunks, a chunk is accepted exactly
      if it has a place and the right length, and no other bytes are there; then it
      is stored under its place and nothing else changes. */
  lemma PutDecides(steps: seq<Step>, start: int, bytes: Bytes, now: int)
    requires Runs(START, steps) && After(START, steps).dir.manifest.Some?
    requires var u := After(START, steps).dir.manifest.value; u.state == Uploading && now < u.expires
    ensures var d := After(START, steps).dir;
            var u, p := d.manifest.value, PlanPut(d, start, bytes, now);
            && (p.reply.Ok? <==>
                  && 0 <= start < u.size && start % CHUNK_SIZE == 0 && |bytes| == Min(CHUNK_SIZE, u.size - start)
                  && (Has(u, start) ==> start in d.files && d.files[start] == bytes))
            && (!p.reply.Ok? ==> p.writes == [])
            && (p.reply.Ok? ==>
                  var d' := ApplyAll(d, p.writes);
                  d'.files == d.files[start := bytes] && d'.manifest.Some? && Adds(u, d'.manifest.value, start, bytes))
  {
    RunKeeps(START, steps);
    PutStores(After(START, steps).dir, start, bytes, now);
  }

  lemma CompleteStores(d: Dir, now: int)
    requires DirOk(d) && d.manifest.Some?
    requires var u := d.manifest.value; u.state == Uploading && now < u.expires
    ensures var u, p := d.manifest.value, PlanComplete(d, now);
            if forall i :: 0 <= i < |u.chunks| ==> u.chunks[i].digest.Some? then
              && AllIntact(d.files, u.chunks, |u.chunks|)
              && var u' := u.(state := Complete, digest := Some(Sha256(Content(d.files, u.chunks, |u.chunks|))));
              p.reply == Ok(u') && ApplyAll(d, p.writes) == d.(manifest := Some(u'))
            else p == Plan([], Failed(Corrupt))
  {
    var u, p := d.manifest.value, PlanComplete(d, now);
    if p.writes != [] {
      ApplyOne(d, p.writes[0]);
    }
  }

  /** In every reachable session that still takes chunks, completion succeeds exactly
      if every chunk is there, with the digest of their concatenation. */
  lemma CompleteDecides(steps: seq<Step>, now: int)
    requires Runs(START, steps) && After(START, steps).dir.manifest.Some?
    requires var u := After(START, steps).dir.manifest.value; u.state == Uploading && now < u.expires
    ensures var d := After(START, steps).dir;
            var u, p := d.manifest.value, PlanComplete(d, now);
            if forall i :: 0 <= i < |u.chunks| ==> u.chunks[i].digest.Some? then
              && AllIntact(d.files, u.chunks, |u.chunks|)
              && var u' := u.(state := Complete, digest := Some(Sha256(Content(d.files, u.chunks, |u.chunks|))));
              p.reply == Ok(u') && ApplyAll(d, p.writes) == d.(manifest := Some(u'))
            else p == Plan([], Failed(Corrupt))
  {
    RunKeeps(START, steps);
    CompleteStores(After(START, steps).dir, now);
  }

  // ---------------------------------------------------------------------
  // Round trip
  // ---------------------------------------------------------------------

  /** The bytes of the `i`-th chunk. */
  function Slice(content: Bytes, i: nat): (bytes: Bytes)
    requires i * CHUNK_SIZE < |content|
  {
    content[i * CHUNK_SIZE..Min((i + 1) * CHUNK_SIZE, |content|)]
  }

  /** A live session that holds the first `n` chunks of `content`. */
  ghost predicate Filled(d: Dir, content: Bytes, now: int, n: nat) {
    && d.manifest.Some?
    && var u := d.manifest.value;
    && u.state == Uploading && now < u.expires && u.size == |content| && UploadOk(u, d.files) && n <= |u.chunks|
    && forall i :: 0 <= i < n ==>
         i * CHUNK_SIZE < |content| && i * CHUNK_SIZE in d.files && d.files[i * CHUNK_SIZE] == Slice(content, i)
         && u.chunks[i].digest.Some?
  }

  /** The remaining chunks are missing. */
  ghost predicate Missing(d: Dir, n: nat) {
    d.manifest.Some? && forall i :: n <= i < |d.manifest.value.chunks| ==> d.manifest.value.chunks[i].digest.None?
  }

  lemma {:induction false} FilledContent(d: Dir, content: Bytes, now: int, n: nat)
    requires Filled(d, content, now, n)
    ensures AllIntact(d.files, d.manifest.value.chunks, n)
    ensures Content(d.files, d.manifest.value.chunks, n) == content[..Min(n * CHUNK_SIZE, |content|)]
    decreases n
  {
    var chunks := d.manifest.value.chunks;
    if n == 0 {
    } else {
      FilledContent(d, content, now, n - 1);
      assert Spans(chunks[n - 1], n - 1, |content|);
      assert (n - 1) * CHUNK_SIZE < |content| && d.files[(n - 1) * CHUNK_SIZE] == Slice(content, n - 1);
      SlicesJoin(content, (n - 1) * CHUNK_SIZE, Min(n * CHUNK_SIZE, |content|));
    }
  }

  lemma SlicesJoin(content: Bytes, a: nat, b: nat)
    requires a <= b <= |content|
    ensures content[..a] + content[a..b] == content[..b]
  {
  }

  function PutStep(content: Bytes, i: nat, now: int): (step: Step)
    requires i * CHUNK_SIZE < |content|
  {
    Step(PutOp(i * CHUNK_SIZE, Slice(content, i)), now, 2, true)
  }

  lemma ChunkExists(d: Dir, content: Bytes, now: int, n: nat)
    requires Filled(d, content, now, n) && n < |d.manifest.value.chunks|
    ensures n * CHUNK_SIZE < |content| && |Slice(content, n)| == Min(CHUNK_SIZE, |content| - n * CHUNK_SIZE)
    ensures n * CHUNK_SIZE % CHUNK_SIZE == 0 && n * CHUNK_SIZE / CHUNK_SIZE == n
  {
  }

  lemma PutFills(w: World, content: Bytes, now: int, n: nat)
    requires WorldOk(w) && Filled(w.dir, content, now, n) && Missing(w.dir, n) && n < |w.dir.manifest.value.chunks|
    ensures n * CHUNK_SIZE < |content| && Enabled(w, PutStep(content, n, now))
    ensures var w' := Do(w, PutStep(content, n, now));
            && WorldOk(w') && Filled(w'.dir, content, now, n + 1) && Missing(w'.dir, n + 1)
            && |w'.dir.manifest.value.chunks| == |w.dir.manifest.value.chunks|
  {
    ChunkExists(w.dir, content, now, n);
    var start, bytes := n * CHUNK_SIZE, Slice(content, n);
    var p := PlanPut(w.dir, start, bytes, now);
    PutStores(w.dir, start, bytes, now);
    assert |p.writes| == 2 && p.writes[..2] == p.writes;
    StepKeeps(w, PutStep(content, n, now));
    FilledNext(w.dir, Do(w, PutStep(content, n, now)).dir, content, now, n);
  }

  lemma FilledNext(d: Dir, d': Dir, content: Bytes, now: int, n: nat)
    requires Filled(d, content, now, n) && Missing(d, n) && n < |d.manifest.value.chunks| && n * CHUNK_SIZE < |content|
    requires d'.files == d.files[n * CHUNK_SIZE := Slice(content, n)] && d'.manifest.Some? && DirOk(d')
    requires Adds(d.manifest.value, d'.manifest.value, n * CHUNK_SIZE, Slice(content, n))
    ensures Filled(d', content, now, n + 1) && Missing(d', n + 1)
    ensures |d'.manifest.value.chunks| == |d.manifest.value.chunks|
  {
    ChunkExists(d, content, now, n);
    forall i | 0 <= i < n + 1
      ensures i * CHUNK_SIZE < |content| && i * CHUNK_SIZE in d'.files && d'.files[i * CHUNK_SIZE] == Slice(content, i)
              && d'.manifest.value.chunks[i].digest.Some?
    {
      if i < n {
        assert i * CHUNK_SIZE != n * CHUNK_SIZE;
      }
    }
  }

  lemma {:induction false} RunsAppend(w: World, steps: seq<Step>, s: Step)
    requires Runs(w, steps) && Enabled(After(w, steps), s)
    ensures Runs(w, steps + [s]) && After(w, steps + [s]) == Do(After(w, steps), s)
    decreases |steps|
  {
    if steps == [] {
      assert steps + [s] == [s] && [s][1..] == [];
    } else {
      assert (steps + [s])[0] == steps[0] && (steps + [s])[1..] == steps[1..] + [s];
      RunsAppend(Do(w, steps[0]), steps[1..], s);
    }
  }

  /** The steps of an upload: creation and the first `n` chunks in order. */
  ghost function Sending(content: Bytes, layout: seq<Chunk>, now: int, n: nat): (steps: seq<Step>)
    requires content != "" && (n - 1) * CHUNK_SIZE < |content|
  {
    if n == 0 then [Step(CreateOp(|content|, layout), now, 1, true)]
    else Sending(content, layout, now, n - 1) + [PutStep(content, n - 1, now)]
  }

  lemma {:induction false} SendingFills(content: Bytes, layout: seq<Chunk>, now: int, n: nat)
    requires 0 < |content| <= MAX_SIZE && Tiles(layout, |content|) && n <= |layout|
    requires forall i :: 0 <= i < |layout| ==> layout[i].digest.None?
    ensures (n - 1) * CHUNK_SIZE < |content|
    ensures var steps := Sending(content, layout, now, n);
            && Runs(START, steps)
            && var w := After(START, steps);
            && WorldOk(w) && Filled(w.dir, content, now, n) && Missing(w.dir, n)
            && |w.dir.manifest.value.chunks| == |layout|
    decreases n
  {
    if n == 0 {
      Created(content, layout, now);
    } else {
      SendingFills(content, layout, now, n - 1);
      var before := Sending(content, layout, now, n - 1);
      PutFills(After(START, before), content, now, n - 1);
      RunsAppend(START, before, PutStep(content, n - 1, now));
    }
  }

  lemma Created(content: Bytes, layout: seq<Chunk>, now: int)
    requires 0 < |content| <= MAX_SIZE && Tiles(layout, |content|)
    requires forall i :: 0 <= i < |layout| ==> layout[i].digest.None?
    ensures var steps := Sending(content, layout, now, 0);
            && Runs(START, steps)
            && var w := After(START, steps);
            && WorldOk(w) && Filled(w.dir, content, now, 0) && Missing(w.dir, 0)
            && |w.dir.manifest.value.chunks| == |layout|
  {
    var s := Step(CreateOp(|content|, layout), now, 1, true);
    CreateDecides(NO_DIR, |content|, layout, now);
    var p := PlanCreate(NO_DIR, |content|, layout, now);
    assert p.writes[..1] == p.writes;
    assert Enabled(START, s);
    RunsAppend(START, [], s);
    assert [] + [s] == [s];
    StepKeeps(START, s);
  }

  /** What is sent chunk by chunk and completed within the week is complete, has the
      digest of the content, and any slice of it, up to a chunk's length, can be read
      back. */
  lemma UploadRoundTrip(content: Bytes, layout: seq<Chunk>, now: int, start: nat, end: nat, later: int)
    requires 0 < |content| <= MAX_SIZE && Tiles(layout, |content|)
    requires forall i :: 0 <= i < |layout| ==> layout[i].digest.None?
    requires start <= end <= |content| && end - start <= CHUNK_SIZE
    ensures (|layout| - 1) * CHUNK_SIZE < |content|
    ensures var steps := Sending(content, layout, now, |layout|) + [Step(CompleteOp, now, 1, true)];
            && Runs(START, steps)
            && var d := After(START, steps).dir;
            && d.manifest.Some? && d.manifest.value.state == Complete && d.manifest.value.digest == Some(Sha256(content))
            && PlanRead(d, start, end, later).reply == Data(content[start..end])
  {
    SendingFills(content, layout, now, |layout|);
    var sent := Sending(content, layout, now, |layout|);
    var d := After(START, sent).dir;
    FilledContent(d, content, now, |layout|);
    assert content[..|content|] == content;
    CompleteStores(d, now);
    var p, s := PlanComplete(d, now), Step(CompleteOp, now, 1, true);
    assert |p.writes| == 1 && p.writes[..1] == p.writes;
    RunsAppend(START, sent, s);
    ReadsExactly(sent + [s], start, end, later);
  }
}
