/** Resumable uploads: a manifest and one file per chunk, each replaced by an
    atomic durable write, so that a crash leaves a prefix of an operation's
    writes.  SHA-256 is taken to be injective: a digest stands for its bytes. */
module Uploads {
  import opened Numbers
  import opened Options
  import opened Sequences

  type Bytes = string

  datatype Digest = Sha256(bytes: Bytes)

  /** Complete exactly when it has a digest. */
  datatype Chunk = Chunk(start: int, end: int, digest: Option<Digest>)

  datatype State = Uploading | Complete | Cancelled

  datatype Upload = Upload(size: int, expires: int, state: State, digest: Option<Digest>, cleaned: bool,
                           chunks: seq<Chunk>)

  /** A session's directory; one that does not exist has no manifest and no files. */
  datatype Dir = Dir(manifest: Option<Upload>, files: map<int, Bytes>)

  const CHUNK_SIZE := 4_194_304
  const MAX_SIZE := 68_719_476_736
  const LIFETIME := 604_800
  const NO_DIR := Dir(None, map[])

  /** The tombstone of an id that was never created. */
  const NO_UPLOAD := Upload(0, 0, Cancelled, None, false, [])

  predicate Live(u: Upload, now: int) {
    u.state != Cancelled && (u.state == Complete || u.expires > now)
  }

  // ---------------------------------------------------------------------
  // Chunks
  // ---------------------------------------------------------------------

  predicate Spans(c: Chunk, i: nat, size: int) {
    c.start == i * CHUNK_SIZE && c.end == Min((i + 1) * CHUNK_SIZE, size)
  }

  /** The chunks cut `[0, size)` at multiples of the chunk size. */
  ghost predicate Tiles(chunks: seq<Chunk>, size: int) {
    && (|chunks| - 1) * CHUNK_SIZE < size <= |chunks| * CHUNK_SIZE
    && forall i :: 0 <= i < |chunks| ==> Spans(chunks[i], i, size)
  }

  method Layout(size: int) returns (chunks: seq<Chunk>)
    requires 0 < size
    ensures Tiles(chunks, size) && forall i :: 0 <= i < |chunks| ==> chunks[i].digest.None?
  {
    chunks := [];
    var start := 0;
    while start < size
      invariant start == |chunks| * CHUNK_SIZE && start < size + CHUNK_SIZE
      invariant forall i :: 0 <= i < |chunks| ==> Spans(chunks[i], i, size) && chunks[i].digest.None?
      decreases size - start
    {
      chunks := chunks + [Chunk(start, Min(start + CHUNK_SIZE, size), None)];
      start := start + CHUNK_SIZE;
    }
  }

  /** The chunk's file is there, whole and unaltered. */
  predicate Intact(files: map<int, Bytes>, c: Chunk) {
    && c.digest.Some? && c.start in files
    && |files[c.start]| == c.end - c.start && Sha256(files[c.start]) == c.digest.value
  }

  /** The first `n` chunk files, one after the other. */
  ghost function Content(files: map<int, Bytes>, chunks: seq<Chunk>, n: nat): (bytes: Bytes)
    requires n <= |chunks| && forall i :: 0 <= i < n ==> chunks[i].start in files
  {
    if n == 0 then [] else Content(files, chunks, n - 1) + files[chunks[n - 1].start]
  }

  ghost predicate AllIntact(files: map<int, Bytes>, chunks: seq<Chunk>, n: nat)
    requires n <= |chunks|
  {
    forall i :: 0 <= i < n ==> Intact(files, chunks[i])
  }

  lemma {:induction false} ContentLength(files: map<int, Bytes>, chunks: seq<Chunk>, size: int, n: nat)
    requires Tiles(chunks, size) && n <= |chunks| && AllIntact(files, chunks, n)
    ensures |Content(files, chunks, n)| == if n == 0 then 0 else Min(n * CHUNK_SIZE, size)
  {
    if n == 0 {
    } else {
      ContentLength(files, chunks, size, n - 1);
      assert Spans(chunks[n - 1], n - 1, size) && Intact(files, chunks[n - 1]);
    }
  }

  // ---------------------------------------------------------------------
  // Slices
  // ---------------------------------------------------------------------

  /** `s[a..b]`, with both ends moved into `s`. */
  ghost function Clip(s: Bytes, a: int, b: int): (r: Bytes)
    requires a <= b
  {
    s[Max(0, Min(a, |s|))..Max(0, Min(b, |s|))]
  }

  lemma ClipConcat(s: Bytes, t: Bytes, a: int, b: int)
    requires a <= b
    ensures Clip(s + t, a, b) == Clip(s, a, b) + Clip(t, a - |s|, b - |s|)
  {
    SliceOfConcat(s, t, Max(0, Min(a, |s|)), Max(0, Min(b, |s|)), Max(0, Min(a - |s|, |t|)), Max(0, Min(b - |s|, |t|)));
  }

  // ---------------------------------------------------------------------
  // Operations as lists of durable writes
  // ---------------------------------------------------------------------

  datatype Write = Save(upload: Upload) | Store(start: int, bytes: Bytes) | Unlink(start: int)

  function Apply(d: Dir, w: Write): (r: Dir) {
    match w
    case Save(upload) => d.(manifest := Some(upload))
    case Store(start, bytes) => d.(files := d.files[start := bytes])
    case Unlink(start) => d.(files := d.files - {start})
  }

  function ApplyAll(d: Dir, ws: seq<Write>): (r: Dir)
    decreases |ws|
  {
    if ws == [] then d else ApplyAll(Apply(d, ws[0]), ws[1..])
  }

  lemma {:induction false} ApplyNext(d: Dir, ws: seq<Write>, i: nat)
    requires i < |ws|
    ensures ApplyAll(d, ws[..i + 1]) == Apply(ApplyAll(d, ws[..i]), ws[i])
    decreases i
  {
    if i == 0 {
    } else {
      assert ws[..i + 1][1..] == ws[1..][..i] && ws[..i][1..] == ws[1..][..i - 1];
      ApplyNext(Apply(d, ws[0]), ws[1..], i - 1);
    }
  }

  lemma ApplyOne(d: Dir, w: Write)
    ensures ApplyAll(d, [w]) == Apply(d, w)
  {
    assert [w][1..] == [];
  }

  lemma ApplyTwo(d: Dir, a: Write, b: Write)
    ensures ApplyAll(d, [a, b]) == Apply(Apply(d, a), b) && ApplyAll(d, [a, b][..1]) == Apply(d, a)
  {
    assert [a, b][1..] == [b] && [a, b][..1] == [a];
    assert ApplyAll(Apply(d, a), [b]) == Apply(Apply(d, a), b);
  }

  datatype Error = Invalid | Missing | Conflict | Expired | Corrupt

  datatype Reply = Ok(upload: Upload) | Gone | Data(bytes: Bytes) | Failed(error: Error)

  /** `layout` is the chunks a creation lays out; `listing` the order in which a
      cancellation finds the chunk files. */
  datatype Op =
    | CreateOp(size: int, layout: seq<Chunk>)
    | PutOp(start: int, bytes: Bytes)
    | CompleteOp
    | CancelOp(listing: seq<int>)
    | ReadOp(start: int, end: int)
    | SweepOp(listing: seq<int>)

  datatype Plan = Plan(writes: seq<Write>, reply: Reply)

  function Refuse(e: Error): (p: Plan) {
    Plan([], Failed(e))
  }

  function PlanCreate(d: Dir, size: int, layout: seq<Chunk>, now: int): (p: Plan) {
    if size <= 0 || size > MAX_SIZE then Refuse(Invalid)
    else if d.manifest.Some? then
      var s := d.manifest.value;
      if s.size != size then Refuse(Conflict) else if !Live(s, now) then Refuse(Expired) else Plan([], Ok(s))
    else
      var s := Upload(size, now + LIFETIME, Uploading, None, false, layout);
      Plan([Save(s)], Ok(s))
  }

  function Marked(s: Upload, i: nat, bytes: Bytes): (r: Upload)
    requires i < |s.chunks|
  {
    s.(chunks := s.chunks[i := s.chunks[i].(digest := Some(Sha256(bytes)))])
  }

  function PlanPut(d: Dir, start: int, bytes: Bytes, now: int): (p: Plan) {
    if d.manifest.None? then Refuse(Missing)
    else
      var s := d.manifest.value;
      if !Live(s, now) then Refuse(Expired)
      else if start < 0 || start % CHUNK_SIZE != 0 || start >= s.size then Refuse(Conflict)
      else if start / CHUNK_SIZE >= |s.chunks| then Refuse(Corrupt)
      else
        var c := s.chunks[start / CHUNK_SIZE];
        if |bytes| != c.end - c.start then Refuse(Conflict)
        else if c.digest.Some? then
          if c.digest.value == Sha256(bytes) then Plan([], Ok(s)) else Refuse(Conflict)
        else if s.state != Uploading then Refuse(Conflict)
        else
          var s' := Marked(s, start / CHUNK_SIZE, bytes);
          Plan([Store(start, bytes), Save(s')], Ok(s'))
  }

  /** The digest of the whole content, or why there is none. */
  ghost function HashChunks(d: Dir, chunks: seq<Chunk>): (r: Option<Digest>) {
    if AllIntact(d.files, chunks, |chunks|) then Some(Sha256(Content(d.files, chunks, |chunks|))) else None
  }

  ghost function PlanComplete(d: Dir, now: int): (p: Plan) {
    if d.manifest.None? then Refuse(Missing)
    else
      var s := d.manifest.value;
      if !Live(s, now) then Refuse(Expired)
      else if s.state == Complete then Plan([], Ok(s))
      else if HashChunks(d, s.chunks).None? then Refuse(Corrupt)
      else
        var s' := s.(digest := HashChunks(d, s.chunks), state := Complete);
        Plan([Save(s')], Ok(s'))
  }

  function Unlinks(listing: seq<int>): (ws: seq<Write>) {
    seq(|listing|, i requires 0 <= i < |listing| => Unlink(listing[i]))
  }

  /** The tombstone is durable before the first file goes. */
  function PlanCancelLocked(s: Upload, listing: seq<int>): (p: Plan) {
    if s.state == Cancelled && s.cleaned then Plan([], Gone)
    else
      var tombstone := s.(state := Cancelled);
      Plan([Save(tombstone)] + Unlinks(listing) + [Save(tombstone.(cleaned := true))], Gone)
  }

  function PlanCancel(d: Dir, listing: seq<int>): (p: Plan) {
    PlanCancelLocked(if d.manifest.Some? then d.manifest.value else NO_UPLOAD, listing)
  }

  predicate Sweepable(d: Dir, now: int) {
    && d.manifest.Some?
    && var s := d.manifest.value;
       (s.state == Cancelled && !s.cleaned) || (s.state == Uploading && s.expires <= now)
  }

  function PlanSweep(d: Dir, listing: seq<int>, now: int): (p: Plan) {
    if Sweepable(d, now) then PlanCancelLocked(d.manifest.value, listing) else Plan([], Gone)
  }

  /** What a read of `[start, end)` takes from one chunk. */
  function Piece(file: Bytes, c: Chunk, start: int, end: int): (r: Bytes)
    requires |file| == c.end - c.start && start <= end && c.end > start && c.start < end
  {
    file[Max(start, c.start) - c.start..Min(end, c.end) - c.start]
  }

  lemma PieceIsClip(file: Bytes, c: Chunk, start: int, end: int)
    requires |file| == c.end - c.start && start <= end
    ensures Clip(file, start - c.start, end - c.start)
            == if c.end <= start || c.start >= end then [] else Piece(file, c, start, end)
  {
  }

  /** The files a read opens are checked against their digests first. */
  function Pieces(files: map<int, Bytes>, chunks: seq<Chunk>, start: int, end: int, n: nat): (r: Option<Bytes>)
    requires n <= |chunks| && start <= end
  {
    if n == 0 then Some([])
    else
      var c := chunks[n - 1];
      var before := Pieces(files, chunks, start, end, n - 1);
      if c.end <= start || c.start >= end then before
      else if before.None? || !Intact(files, c) then None
      else Some(before.value + Piece(files[c.start], c, start, end))
  }

  function PlanRead(d: Dir, start: int, end: int, now: int): (p: Plan) {
    if d.manifest.None? then Refuse(Missing)
    else
      var s := d.manifest.value;
      if !Live(s, now) then Refuse(Expired)
      else if s.state != Complete then Refuse(Conflict)
      else
        var to := if end < 0 then s.size else end;
        if start < 0 || to < start || to > s.size || to - start > CHUNK_SIZE then Refuse(Conflict)
        else match Pieces(d.files, s.chunks, start, to, |s.chunks|)
          case None => Refuse(Corrupt)
          case Some(bytes) => Plan([], Data(bytes))
  }

  ghost function PlanOf(d: Dir, op: Op, now: int): (p: Plan) {
    match op
    case CreateOp(size, layout) => PlanCreate(d, size, layout, now)
    case PutOp(start, bytes) => PlanPut(d, start, bytes, now)
    case CompleteOp => PlanComplete(d, now)
    case CancelOp(listing) => PlanCancel(d, listing)
    case ReadOp(start, end) => PlanRead(d, start, end, now)
    case SweepOp(listing) => PlanSweep(d, listing, now)
  }

  // ---------------------------------------------------------------------
  // A session, write by write
  // ---------------------------------------------------------------------

  /** What an operation leaves when the process survives `lives` more writes. */
  ghost predicate Performs(d: Dir, d': Dir, lives: nat, lives': nat, p: Plan, r: Option<Reply>) {
    if lives >= |p.writes| then d' == ApplyAll(d, p.writes) && lives' == lives - |p.writes| && r == Some(p.reply)
    else d' == ApplyAll(d, p.writes[..lives]) && lives' == 0 && r == None
  }

  /** One session under its lock.  `lives` counts the durable writes left before
      the process dies; an operation that dies gives no reply. */
  class Session {
    var manifest: Option<Upload>
    var files: map<int, Bytes>
    var lives: nat

    ghost function View(): (d: Dir)
      reads this
    {
      Dir(manifest, files)
    }

    method Persist(w: Write) returns (alive: bool)
      modifies this
      ensures alive <==> old(lives) > 0
      ensures alive ==> View() == Apply(old(View()), w) && lives == old(lives) - 1
      ensures !alive ==> View() == old(View()) && lives == 0
    {
      if lives == 0 {
        return false;
      }
      lives := lives - 1;
      match w {
        case Save(upload) => manifest := Some(upload);
        case Store(start, bytes) => files := files[start := bytes];
        case Unlink(start) => files := files - {start};
      }
      alive := true;
    }

    method Create(size: int, now: int) returns (r: Option<Reply>, ghost layout: seq<Chunk>)
      modifies this
      ensures size > 0 ==> Tiles(layout, size) && forall i :: 0 <= i < |layout| ==> layout[i].digest.None?
      ensures Performs(old(View()), View(), old(lives), lives, PlanCreate(old(View()), size, layout, now), r)
    {
      var chunks := [];
      if size > 0 {
        chunks := Layout(size);
      }
      layout := chunks;
      if size <= 0 || size > MAX_SIZE {
        return Some(Failed(Invalid)), layout;
      }
      if manifest.Some? {
        var s := manifest.value;
        if s.size != size {
          return Some(Failed(Conflict)), layout;
        }
        if !Live(s, now) {
          return Some(Failed(Expired)), layout;
        }
        return Some(Ok(s)), layout;
      }
      var s := Upload(size, now + LIFETIME, Uploading, None, false, chunks);
      var alive := Persist(Save(s));
      r := if alive then Some(Ok(s)) else None;
    }

    method Put(start: int, bytes: Bytes, now: int) returns (r: Option<Reply>)
      modifies this
      ensures Performs(old(View()), View(), old(lives), lives, PlanPut(old(View()), start, bytes, now), r)
    {
      if manifest.None? {
        return Some(Failed(Missing));
      }
      var s := manifest.value;
      if !Live(s, now) {
        return Some(Failed(Expired));
      }
      if start < 0 || start % CHUNK_SIZE != 0 || start >= s.size {
        return Some(Failed(Conflict));
      }
      var i := start / CHUNK_SIZE;
      if i >= |s.chunks| {
        return Some(Failed(Corrupt));
      }
      if |bytes| != s.chunks[i].end - s.chunks[i].start {
        return Some(Failed(Conflict));
      }
      var hash := Sha256(bytes);
      if s.chunks[i].digest.Some? {
        return Some(if s.chunks[i].digest.value == hash then Ok(s) else Failed(Conflict));
      }
      if s.state != Uploading {
        return Some(Failed(Conflict));
      }
      ApplyTwo(View(), Store(start, bytes), Save(Marked(s, i, bytes)));
      var alive := Persist(Store(start, bytes));
      if !alive {
        return None;
      }
      s := s.(chunks := s.chunks[i := s.chunks[i].(digest := Some(hash))]);
      alive := Persist(Save(s));
      r := if alive then Some(Ok(s)) else None;
    }

    /** Every chunk is checked on the way. */
    method HashAll(chunks: seq<Chunk>) returns (r: Option<Digest>)
      ensures r == HashChunks(View(), chunks)
    {
      var full := [];
      for i := 0 to |chunks|
        invariant AllIntact(files, chunks, i) && full == Content(files, chunks, i)
      {
        var c := chunks[i];
        if c.digest.None? || c.start !in files {
          return None;
        }
        var file := files[c.start];
        if |file| != c.end - c.start || Sha256(file) != c.digest.value {
          return None;
        }
        full := full + file;
      }
      r := Some(Sha256(full));
    }

    method Complete(now: int) returns (r: Option<Reply>)
      modifies this
      ensures Performs(old(View()), View(), old(lives), lives, PlanComplete(old(View()), now), r)
    {
      if manifest.None? {
        return Some(Failed(Missing));
      }
      var s := manifest.value;
      if !Live(s, now) {
        return Some(Failed(Expired));
      }
      if s.state == State.Complete {
        return Some(Ok(s));
      }
      var digest := HashAll(s.chunks);
      if digest.None? {
        return Some(Failed(Corrupt));
      }
      s := s.(digest := digest, state := State.Complete);
      var alive := Persist(Save(s));
      r := if alive then Some(Ok(s)) else None;
    }

    /** Writes in order, as far as the process lives. */
    method PersistAll(ws: seq<Write>) returns (alive: bool)
      modifies this
      ensures alive <==> old(lives) >= |ws|
      ensures alive ==> View() == ApplyAll(old(View()), ws) && lives == old(lives) - |ws|
      ensures !alive ==> View() == ApplyAll(old(View()), ws[..old(lives)]) && lives == 0
    {
      ghost var d := View();
      for i := 0 to |ws|
        invariant lives == old(lives) - i && View() == ApplyAll(d, ws[..i])
      {
        ApplyNext(d, ws, i);
        alive := Persist(ws[i]);
        if !alive {
          return;
        }
      }
      assert ws[..|ws|] == ws;
      alive := true;
    }

    method CancelLocked(s: Upload, listing: seq<int>) returns (r: Option<Reply>)
      modifies this
      ensures Performs(old(View()), View(), old(lives), lives, PlanCancelLocked(s, listing), r)
    {
      if s.state == Cancelled && s.cleaned {
        return Some(Gone);
      }
      var tombstone := s.(state := Cancelled);
      var alive := PersistAll([Save(tombstone)] + Unlinks(listing) + [Save(tombstone.(cleaned := true))]);
      r := if alive then Some(Gone) else None;
    }

    method Cancel(listing: seq<int>) returns (r: Option<Reply>)
      modifies this
      ensures Performs(old(View()), View(), old(lives), lives, PlanCancel(old(View()), listing), r)
    {
      var s := NO_UPLOAD;
      if manifest.Some? {
        s := manifest.value;
      }
      r := CancelLocked(s, listing);
    }

    /** One session of a sweep. */
    method Sweep(listing: seq<int>, now: int) returns (r: Option<Reply>)
      modifies this
      ensures Performs(old(View()), View(), old(lives), lives, PlanSweep(old(View()), listing, now), r)
    {
      if manifest.None? {
        return Some(Gone);
      }
      var s := manifest.value;
      if (s.state == Cancelled && !s.cleaned) || (s.state == Uploading && s.expires <= now) {
        r := CancelLocked(s, listing);
      } else {
        r := Some(Gone);
      }
    }

    method Read(start: int, end: int, now: int) returns (r: Reply)
      ensures r == PlanRead(View(), start, end, now).reply
    {
      if manifest.None? {
        return Failed(Missing);
      }
      var s := manifest.value;
      if !Live(s, now) {
        return Failed(Expired);
      }
      if s.state != State.Complete {
        return Failed(Conflict);
      }
      var to := if end < 0 then s.size else end;
      if start < 0 || to < start || to > s.size || to - start > CHUNK_SIZE {
        return Failed(Conflict);
      }
      var bytes := [];
      for i := 0 to |s.chunks|
        invariant Pieces(files, s.chunks, start, to, i) == Some(bytes)
      {
        var c := s.chunks[i];
        if c.end <= start || c.start >= to {
          continue;
        }
        if !Intact(files, c) {
          Broken(files, s.chunks, start, to, i, |s.chunks|);
          return Failed(Corrupt);
        }
        bytes := bytes + Piece(files[c.start], c, start, to);
      }
      r := Data(bytes);
    }
  }

  /** A chunk that fails its check fails the read. */
  lemma {:induction false} Broken(files: map<int, Bytes>, chunks: seq<Chunk>, start: int, end: int, i: nat, n: nat)
    requires i < n <= |chunks| && start <= end
    requires !(chunks[i].end <= start || chunks[i].start >= end) && !Intact(files, chunks[i])
    ensures Pieces(files, chunks, start, end, n).None?
  {
    if n > i + 1 {
      Broken(files, chunks, start, end, i, n - 1);
    }
  }
}
