/** Multipart upload arithmetic (internal/drive/upload.go). Sizes are 64-bit, with the
    wrap-around of `fileSize + partSize - 1` written out. */
module Upload {
  import opened Bytes
  import opened Records

  const MB: int := 1024 * 1024
  const GB: int := 1024 * MB
  const TB: int := 1024 * GB
  const MULTIPART_THRESHOLD: int := 20 * MB
  const MAX_PARTS: int := 10000
  const MAX_ATTEMPTS: nat := 3

  predicate Int64(n: int) {
    -TWO_63 <= n < TWO_63
  }

  /** `calcPartSize`. */
  function PartSize(fileSize: int): (p: int)
    ensures 0 < p <= 5 * GB
  {
    if fileSize > 1 * TB then 5 * GB
    else if fileSize > 768 * GB then 109951163
    else if fileSize > 512 * GB then 82463373
    else if fileSize > 384 * GB then 54975582
    else if fileSize > 256 * GB then 41231687
    else if fileSize > 128 * GB then 27487791
    else 20 * MB
  }

  /** The least part size that fits a file of size `top` into 10000 parts. */
  predicate FitsTop(partSize: int, top: int) {
    (partSize - 1) * 10_000 < top <= partSize * 10_000
  }

  /** From 128 GB to 1 TB every range of sizes has the least part size that fits its largest file. */
  lemma PartSizeIsLeast(fileSize: int)
    ensures 128 * GB < fileSize <= 256 * GB ==> FitsTop(PartSize(fileSize), 256 * GB)
    ensures 256 * GB < fileSize <= 384 * GB ==> FitsTop(PartSize(fileSize), 384 * GB)
    ensures 384 * GB < fileSize <= 512 * GB ==> FitsTop(PartSize(fileSize), 512 * GB)
    ensures 512 * GB < fileSize <= 768 * GB ==> FitsTop(PartSize(fileSize), 768 * GB)
    ensures 768 * GB < fileSize <= 1024 * GB ==> FitsTop(PartSize(fileSize), 1024 * GB)
    ensures fileSize <= 128 * GB ==> PartSize(fileSize) == 20_971_520
    ensures 1024 * GB < fileSize ==> PartSize(fileSize) == 5_368_709_120
  {}

  function Wrap64(n: int): (r: int)
    ensures Int64(r)
    ensures Int64(n) ==> r == n
  {
    var u := n % TWO_64;
    if u >= TWO_63 then u - TWO_64 else u
  }

  /** Go's division truncates toward zero. */
  function Quotient(a: int, b: int): int
    requires b > 0
  {
    if a >= 0 then a / b else -((-a) / b)
  }

  function TotalParts(fileSize: int): int {
    Quotient(Wrap64(fileSize + PartSize(fileSize) - 1), PartSize(fileSize))
  }

  // ---- the part count ----

  /** Rounding up: `k` parts suffice exactly when their total reaches the size. */
  lemma CeilingBound(size: nat, part: nat, k: nat)
    requires part > 0
    ensures (size + part - 1) / part <= k <==> size <= k * part
  {
    var q := (size + part - 1) / part;
    assert q * part <= size + part - 1 < q * part + part;
    if q <= k {
      MulMonotone(q, k, part);
    } else {
      MulMonotone(k + 1, q, part);
    }
  }

  lemma MulMonotone(a: nat, b: nat, part: nat)
    requires a <= b
    ensures a * part <= b * part
    ensures (a + 1) * part == a * part + part
  {
    assert b * part == a * part + (b - a) * part;
  }

  lemma NoWrap(fileSize: int)
    requires 0 < fileSize && Int64(fileSize + PartSize(fileSize) - 1)
    ensures TotalParts(fileSize) == (fileSize + PartSize(fileSize) - 1) / PartSize(fileSize)
  {}

  lemma Wraps(fileSize: int)
    requires 0 < fileSize && Int64(fileSize) && !Int64(fileSize + PartSize(fileSize) - 1)
    ensures TotalParts(fileSize) <= 0
  {
    var sum := fileSize + PartSize(fileSize) - 1;
    assert sum - TWO_64 < 0 && sum % TWO_64 == sum;
    assert Wrap64(sum) == sum - TWO_64;
  }

  /** OSS allows 10000 parts: over every 64-bit size that goes multipart, the count is in range
      exactly up to 50000 GB. */
  lemma PartCountBound(fileSize: int)
    requires MULTIPART_THRESHOLD < fileSize && Int64(fileSize)
    ensures 1 <= TotalParts(fileSize) <= MAX_PARTS <==> fileSize <= 50000 * GB
  {
    hide TotalParts;
    var part := PartSize(fileSize);
    if Int64(fileSize + part - 1) {
      NoWrap(fileSize);
      CeilingBound(fileSize, part, MAX_PARTS);
      CeilingBound(fileSize, part, 0);
    } else {
      Wraps(fileSize);
    }
  }

  /** Part numbers never leave the 32-bit range they are converted to. */
  lemma PartNumbersFit(fileSize: int)
    requires MULTIPART_THRESHOLD < fileSize && Int64(fileSize)
    ensures TotalParts(fileSize) < 0x8000_0000
  {
    hide TotalParts;
    var part := PartSize(fileSize);
    if Int64(fileSize + part - 1) {
      NoWrap(fileSize);
      CeilingBound(fileSize, part, 0x7FFF_FFFF);
    } else {
      Wraps(fileSize);
    }
  }

  // ---- tiling ----

  datatype Part = Part(number: nat, offset: nat, size: nat, etag: string)

  /** Numbered from 1, adjacent from offset 0, none empty, none above the part size. */
  predicate Tiled(parts: seq<Part>, end: int, partSize: int) {
    && (parts == [] ==> end == 0)
    && (parts != [] ==> parts[0].offset == 0 && parts[|parts| - 1].offset + parts[|parts| - 1].size == end)
    && (forall i :: 0 <= i < |parts| ==> parts[i].number == i + 1 && 0 < parts[i].size <= partSize)
    && (forall i :: 0 < i < |parts| ==> parts[i - 1].offset + parts[i - 1].size == parts[i].offset)
  }

  lemma TiledPrefix(parts: seq<Part>, end: int, partSize: int)
    requires Tiled(parts, end, partSize) && parts != []
    ensures Tiled(parts[..|parts| - 1], parts[|parts| - 1].offset, partSize)
  {}

  lemma TiledMore(parts: seq<Part>, end: nat, partSize: int, size: nat, etag: string)
    requires Tiled(parts, end, partSize) && 0 < size <= partSize
    ensures Tiled(parts + [Part(|parts| + 1, end, size, etag)], end + size, partSize)
  {}

  /** The bytes the parts carry, one after another. */
  function Joined(parts: seq<Part>, data: string): string
    requires forall i :: 0 <= i < |parts| ==> parts[i].offset + parts[i].size <= |data|
  {
    if parts == [] then ""
    else
      var p := parts[|parts| - 1];
      Joined(parts[..|parts| - 1], data) + data[p.offset..p.offset + p.size]
  }

  lemma {:induction false} TiledInside(parts: seq<Part>, end: int, partSize: int, i: nat)
    requires Tiled(parts, end, partSize) && i < |parts|
    ensures parts[i].offset + parts[i].size <= end
    decreases |parts| - i
  {
    if i + 1 < |parts| { TiledInside(parts, end, partSize, i + 1); }
  }

  /** A tiling loses and repeats nothing: the parts carry exactly the file, in order. */
  lemma {:induction false} TilesCarryTheFile(parts: seq<Part>, end: nat, partSize: int, data: string)
    requires Tiled(parts, end, partSize) && end <= |data|
    ensures forall i :: 0 <= i < |parts| ==> parts[i].offset + parts[i].size <= |data|
    ensures Joined(parts, data) == data[..end]
  {
    forall i | 0 <= i < |parts| ensures parts[i].offset + parts[i].size <= |data| {
      TiledInside(parts, end, partSize, i);
    }
    if parts != [] {
      var p := parts[|parts| - 1];
      TiledPrefix(parts, end, partSize);
      TilesCarryTheFile(parts[..|parts| - 1], p.offset, partSize, data);
      assert data[..p.offset] + data[p.offset..end] == data[..end];
    }
  }

  // ---- the part loop ----

  /** What the storage service answers to attempt `k` (from 1) at part `i`. */
  type Service = (nat, nat) -> Option<string>

  /** Whether the context is done before part `i` (k = 0), or while waiting after attempt `k`. */
  type Context = (nat, nat) -> bool

  datatype Answer = Stored(etag: string) | Broken | Stopped

  /** Up to three attempts at one part. */
  function Attempts(reply: Service, done: Context, i: nat, k: nat): Answer
    decreases MAX_ATTEMPTS - k
  {
    if reply(i, k).Some? then Stored(reply(i, k).value)
    else if k >= MAX_ATTEMPTS then Broken
    else if done(i, k) then Stopped
    else Attempts(reply, done, i, k + 1)
  }

  /** The whole answer for part `i`. */
  function PartAnswer(reply: Service, done: Context, i: nat): Answer {
    if done(i, 0) then Stopped else Attempts(reply, done, i, 1)
  }

  /** One of attempts 1, 2 and 3 succeeds, the ones before it fail, and nothing is cancelled before. */
  predicate SucceedsAt(reply: Service, done: Context, i: nat, a: nat) {
    1 <= a <= 3 && reply(i, a).Some? && !done(i, 0) && forall b :: 1 <= b < a ==> reply(i, b).None? && !done(i, b)
  }

  ghost predicate ComesThrough(reply: Service, done: Context, i: nat) {
    exists a :: SucceedsAt(reply, done, i, a)
  }

  predicate FailsThrice(reply: Service, done: Context, i: nat) {
    && !done(i, 0) && !done(i, 1) && !done(i, 2)
    && reply(i, 1).None? && reply(i, 2).None? && reply(i, 3).None?
  }

  /** What the replies come to: the part is stored, or broken after three attempts, or else stopped. */
  lemma AnswerMeaning(reply: Service, done: Context, i: nat)
    ensures PartAnswer(reply, done, i).Stored? <==> ComesThrough(reply, done, i)
    ensures forall a :: SucceedsAt(reply, done, i, a) ==> PartAnswer(reply, done, i) == Stored(reply(i, a).value)
    ensures PartAnswer(reply, done, i).Broken? <==> FailsThrice(reply, done, i)
  {
    hide Attempts;
    AttemptStep(reply, done, i, 1);
    AttemptStep(reply, done, i, 2);
    AttemptStep(reply, done, i, 3);
    if PartAnswer(reply, done, i).Stored? {
      assert SucceedsAt(reply, done, i, 1) || SucceedsAt(reply, done, i, 2) || SucceedsAt(reply, done, i, 3);
    }
  }

  datatype Outcome =
    | Complete(parts: seq<Part>)
    | PartFailed(number: nat)
    | Cancelled

  datatype Request = Request(number: nat, offset: nat, size: nat)

  /** Every request is for one of the tiles. */
  predicate ForTile(q: Request, fileSize: int, partSize: int) {
    1 <= q.number && q.offset == (q.number - 1) * partSize
      && q.size == (if partSize <= fileSize - q.offset then partSize else fileSize - q.offset)
  }

  /** Part `i` is the first without an etag. */
  predicate StopsAt(reply: Service, done: Context, i: nat, a: Answer) {
    PartAnswer(reply, done, i) == a && forall k :: 0 <= k < i ==> PartAnswer(reply, done, k).Stored?
  }

  /** `multipartUpload`: for every size whose rounding does not wrap (allocating the part list
      panics for the others), the parts handed to the completing
      call tile the file, the parts are complete exactly when every one of them succeeded within
      three attempts, and otherwise the first part that did not decides the error. */
  method MultipartUpload(fileSize: int, reply: Service, done: Context)
    returns (r: Outcome, sent: seq<Request>)
    requires MULTIPART_THRESHOLD < fileSize && Int64(fileSize + PartSize(fileSize) - 1)
    ensures r.Complete? <==> forall i :: 0 <= i < TotalParts(fileSize) ==> PartAnswer(reply, done, i).Stored?
    ensures r.Complete? <==> forall i :: 0 <= i < TotalParts(fileSize) ==> ComesThrough(reply, done, i)
    ensures r.Complete? ==> |r.parts| == TotalParts(fileSize) && Tiled(r.parts, fileSize, PartSize(fileSize))
    ensures r.Complete? ==>
      forall i :: 0 <= i < |r.parts| ==> PartAnswer(reply, done, i) == Stored(r.parts[i].etag)
    ensures r.PartFailed? ==> 1 <= r.number <= TotalParts(fileSize)
    ensures r.PartFailed? ==> StopsAt(reply, done, r.number - 1, Broken) && FailsThrice(reply, done, r.number - 1)
    ensures r.Cancelled? ==>
      exists i: nat :: i < TotalParts(fileSize) && StopsAt(reply, done, i, Stopped)
    ensures forall q :: q in sent ==> ForTile(q, fileSize, PartSize(fileSize))
    ensures |sent| <= 3 * TotalParts(fileSize)
  {
    hide TotalParts, Tiled, Attempts, ComesThrough, FailsThrice, SucceedsAt;
    forall i: nat
      ensures PartAnswer(reply, done, i).Stored? <==> ComesThrough(reply, done, i)
      ensures PartAnswer(reply, done, i).Broken? <==> FailsThrice(reply, done, i)
    {
      AnswerMeaning(reply, done, i);
    }
    var partSize := PartSize(fileSize);
    var totalParts := TotalParts(fileSize);
    NoWrap(fileSize);
    CeilingBound(fileSize, partSize, 0);
    var parts, offset, i := [], 0, 0;
    sent := [];
    Untiled(partSize);
    while i < totalParts
      invariant 0 <= i == |parts| <= totalParts
      invariant offset == (if i < totalParts then i * partSize else fileSize)
      invariant Tiled(parts, offset, partSize)
      invariant forall k :: 0 <= k < i ==> PartAnswer(reply, done, k) == Stored(parts[k].etag)
      invariant forall q :: q in sent ==> ForTile(q, fileSize, partSize)
      invariant |sent| <= MAX_ATTEMPTS * i
    {
      if done(i, 0) {
        assert PartAnswer(reply, done, i) == Stopped;
        assert StopsAt(reply, done, i, Stopped);
        return Cancelled, sent;
      }
      var curSize := if partSize <= fileSize - offset then partSize else fileSize - offset;
      NextTile(fileSize, i);
      var attempt := 1;
      while reply(i, attempt).None?
        invariant 1 <= attempt <= MAX_ATTEMPTS
        invariant Attempts(reply, done, i, attempt) == PartAnswer(reply, done, i)
        invariant forall q :: q in sent ==> ForTile(q, fileSize, partSize)
        invariant |sent| <= MAX_ATTEMPTS * i + attempt - 1
        decreases MAX_ATTEMPTS - attempt
      {
        AttemptStep(reply, done, i, attempt);
        sent := sent + [Request(i + 1, offset, curSize)];
        if attempt >= MAX_ATTEMPTS { return PartFailed(i + 1), sent; }
        if done(i, attempt) {
          assert StopsAt(reply, done, i, Stopped);
          return Cancelled, sent;
        }
        attempt := attempt + 1;
      }
      AttemptStep(reply, done, i, attempt);
      sent := sent + [Request(i + 1, offset, curSize)];
      TiledMore(parts, offset, partSize, curSize, reply(i, attempt).value);
      parts := parts + [Part(i + 1, offset, curSize, reply(i, attempt).value)];
      offset := offset + curSize;
      i := i + 1;
    }
    r := Complete(parts);
  }

  lemma Untiled(partSize: int)
    ensures Tiled([], 0, partSize)
  {}

  lemma AttemptStep(reply: Service, done: Context, i: nat, k: nat)
    ensures Attempts(reply, done, i, k)
         == if reply(i, k).Some? then Stored(reply(i, k).value)
            else if k >= MAX_ATTEMPTS then Broken
            else if done(i, k) then Stopped
            else Attempts(reply, done, i, k + 1)
  {}

  /** Part `i` starts inside the file; only the last one can be short, and it ends the file. */
  lemma NextTile(fileSize: int, i: nat)
    requires MULTIPART_THRESHOLD < fileSize && Int64(fileSize + PartSize(fileSize) - 1)
    requires i < TotalParts(fileSize)
    ensures var part := PartSize(fileSize);
      && i * part < fileSize
      && (i + 1 < TotalParts(fileSize) ==> (i + 1) * part < fileSize)
      && (i + 1 == TotalParts(fileSize) ==> fileSize <= (i + 1) * part)
      && (i + 1) * part == i * part + part
  {
    hide TotalParts, PartSize;
    var part := PartSize(fileSize);
    NoWrap(fileSize);
    CeilingBound(fileSize, part, i);
    CeilingBound(fileSize, part, i + 1);
    MulMonotone(i, i + 1, part);
  }
}
