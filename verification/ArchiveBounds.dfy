/**
 The bounds on what an archive may make the verifier inflate: the budget in
 64-bit arithmetic, and the reader that enforces one.

 Sources: archive/verify.go and npm/tarball.go, their streamBound and boundedReader.
 */
module ArchiveBounds {
  import opened Wrappers

  const MAX_INT64 := 0x7fff_ffff_ffff_ffff
  const ENTRY_OVERHEAD := 4096
  const TAR_END_BYTES := 1024

  /** What int64 arithmetic makes of a result. */
  function Wrap(x: int): int {
    (x + MAX_INT64 + 1) % (2 * (MAX_INT64 + 1)) - (MAX_INT64 + 1)
  }

  /** Go's division, which truncates toward zero. */
  function Quotient(a: int, b: int): int
    requires a >= 0 && b != 0
  {
    if b > 0 then a / b else -(a / -b)
  }

  datatype Limits = Limits(entries: int, unpacked: int, nameBytes: int)

  predicate InRange(l: Limits) {
    && -MAX_INT64 - 1 <= l.entries <= MAX_INT64
    && -MAX_INT64 - 1 <= l.unpacked <= MAX_INT64
    && -MAX_INT64 - 1 <= l.nameBytes <= MAX_INT64
  }

  predicate Positive(l: Limits) {
    l.entries > 0 && l.unpacked > 0 && l.nameBytes > 0
  }

  const DEFAULT_LIMITS := Limits(10000, 10 * 1024 * 1024 * 1024, 255)

  function OrDefault(l: Limits): (r: Limits)
    requires InRange(l)
    ensures InRange(r) && Positive(r)
    ensures Positive(l) ==> r == l
  {
    Limits(if l.entries <= 0 then DEFAULT_LIMITS.entries else l.entries,
           if l.unpacked <= 0 then DEFAULT_LIMITS.unpacked else l.unpacked,
           if l.nameBytes <= 0 then DEFAULT_LIMITS.nameBytes else l.nameBytes)
  }

  /** streamBound, every operation in int64. */
  function StreamBound(l: Limits): int
    requires InRange(l) && Positive(l)
  {
    var perEntry := Wrap(ENTRY_OVERHEAD + l.nameBytes);
    WrapsOnce(ENTRY_OVERHEAD + l.nameBytes);
    if l.entries > Quotient(MAX_INT64 - TAR_END_BYTES, perEntry) then MAX_INT64
    else
      var framing := Wrap(Wrap(l.entries * perEntry) + TAR_END_BYTES);
      if l.unpacked > Wrap(MAX_INT64 - framing) then MAX_INT64 else Wrap(l.unpacked + framing)
  }

  lemma WrapsOnce(x: int)
    requires 0 <= x <= 2 * MAX_INT64
    ensures Wrap(x) == if x <= MAX_INT64 then x else x - 2 * (MAX_INT64 + 1)
  {
  }

  /** The same budget in unbounded arithmetic. */
  function Budget(l: Limits): int {
    l.unpacked + l.entries * (ENTRY_OVERHEAD + l.nameBytes) + TAR_END_BYTES
  }

  lemma FitsQuotient(a: int, b: int, n: int)
    requires a >= 0 && b > 0
    ensures n <= a / b <==> n * b <= a
  {
    assert a == a / b * b + a % b;
    if n <= a / b {
      assert n * b <= a / b * b;
    } else {
      assert n * b >= (a / b + 1) * b;
    }
  }

  lemma AtLeast(n: int, b: int)
    requires n >= 1 && b >= 0
    ensures n * b >= b
  {
  }

  /**
   The budget never suffers from overflow: it is the exact sum, or the largest
   int64 when the sum is larger, even for name bounds so large that the size of
   one entry's framing wraps.
   */
  lemma StreamBoundIsExact(l: Limits)
    requires InRange(l) && Positive(l)
    ensures StreamBound(l) == if Budget(l) > MAX_INT64 then MAX_INT64 else Budget(l)
  {
    var exact := ENTRY_OVERHEAD + l.nameBytes;
    var perEntry := Wrap(exact);
    WrapsOnce(exact);
    if exact > MAX_INT64 {
      assert Quotient(MAX_INT64 - TAR_END_BYTES, perEntry) <= 0;
      AtLeast(l.entries, exact);
    } else {
      FitsQuotient(MAX_INT64 - TAR_END_BYTES, exact, l.entries);
      if l.entries * exact <= MAX_INT64 - TAR_END_BYTES {
        AtLeast(l.entries, exact);
        WrapsOnce(l.entries * exact);
        WrapsOnce(l.entries * exact + TAR_END_BYTES);
        var framing := l.entries * exact + TAR_END_BYTES;
        WrapsOnce(MAX_INT64 - framing);
        WrapsOnce(l.unpacked + framing);
      }
    }
  }

  // ------------------------------------------------------- the bounded reader

  datatype ReadError = Ok | EndOfData | TooMuch

  /**
   A reader over whole that passes on at most limit bytes.  at is how much of
   whole has been read, passed what was handed on.
   */
  class BoundedReader {
    const whole: seq<bv8>
    const limit: nat
    var at: nat
    var left: int
    ghost var passed: seq<bv8>
    ghost var over: bool

    ghost predicate Valid()
      reads this
    {
      && |passed| <= at <= |whole| && passed == whole[..|passed|]
      && left == limit - |passed| && left >= 0
      && (over ==> |whole| > limit && left == 0)
      && (!over ==> at == |passed|)
    }

    constructor (whole: seq<bv8>, limit: nat)
      ensures Valid() && passed == [] && !over
      ensures this.whole == whole && this.limit == limit
    {
      this.whole, this.limit := whole, limit;
      at, left, passed, over := 0, limit, [], false;
    }

    /**
     Read into a buffer of size bytes.  The reader below gives chunk bytes, or
     what there is, and may say that the data ended along with the last of it.
     */
    method Read(size: nat, chunk: nat, ended: bool) returns (out: seq<bv8>, err: ReadError)
      requires Valid()
      modifies this`at, this`left, this`passed, this`over
      ensures Valid()
      ensures passed == old(passed) + out && |passed| <= limit
      ensures old(over) ==> over && out == []
      ensures err != TooMuch && !old(over) ==> !over
      ensures err == TooMuch ==> over && passed == whole[..limit]
      ensures err == EndOfData && !old(over) ==> passed == whole && |whole| <= limit
      ensures old(at) < |whole| && size > 0 && chunk > 0 ==> at > old(at)
      ensures old(at) == |whole| && ended && !old(over) ==> err == EndOfData
      ensures at == |whole| && ended ==> err != Ok
    {
      var p := if size > left then left + 1 else size;
      var n := LeastOf(chunk, p, |whole| - at);
      var start := at;
      err := if ended && at + n == |whole| then EndOfData else Ok;
      at := at + n;
      if n > left {
        n, err := left, TooMuch;
        over := true;
      }
      out := whole[start..start+n];
      left := left - n;
      TakenOn(whole, passed, start, n);
      passed := passed + out;
    }
  }

  function LeastOf(a: nat, b: nat, c: nat): nat {
    if a <= b && a <= c then a else if b <= c then b else c
  }

  /** What is passed on continues what was passed before, or is nothing. */
  lemma TakenOn(whole: seq<bv8>, passed: seq<bv8>, start: nat, n: nat)
    requires |passed| <= start && start + n <= |whole| && passed == whole[..|passed|]
    ensures n == 0 ==> passed + whole[start..start+n] == passed
    ensures start == |passed| ==> passed + whole[start..start+n] == whole[..start+n]
  {
  }

  /** One call of Read, and what the reader below does in it. */
  datatype Chunk = Chunk(size: nat, given: nat, ended: bool)

  /** The call asks for something, is given something while there is any, and is told of the end when it gets there. */
  predicate Productive(c: Chunk) {
    c.size > 0 && c.given > 0 && c.ended
  }

  /**
   However the reads are cut up, a stream that fits is passed on unchanged, and
   of a longer one exactly the first limit bytes, then the refusal.  More
   productive reads than the stream has bytes end with one or the other.
   */
  method Drain(r: BoundedReader, calls: seq<Chunk>) returns (out: seq<bv8>, err: ReadError)
    requires r.Valid() && r.passed == [] && !r.over
    modifies r
    ensures r.Valid()
    ensures |out| <= r.limit && out <= r.whole
    ensures err == EndOfData ==> |r.whole| <= r.limit && out == r.whole
    ensures err == TooMuch ==> |r.whole| > r.limit && out == r.whole[..r.limit]
    ensures |calls| > |r.whole| && (forall i :: 0 <= i < |calls| ==> Productive(calls[i])) ==>
      err == if |r.whole| <= r.limit then EndOfData else TooMuch
  {
    out, err := [], Ok;
    for i := 0 to |calls|
      invariant r.Valid() && out == r.passed && |out| <= r.limit
      invariant err == Ok ==> !r.over
      invariant err == Ok && (forall j :: 0 <= j < i ==> Productive(calls[j])) ==>
        r.at >= i && (i > 0 ==> r.at < |r.whole|)
      invariant err == EndOfData ==> |r.whole| <= r.limit && out == r.whole
      invariant err == TooMuch ==> |r.whole| > r.limit && out == r.whole[..r.limit]
    {
      if err != Ok {
        return;
      }
      var more: seq<bv8>;
      more, err := r.Read(calls[i].size, calls[i].given, calls[i].ended);
      out := out + more;
    }
  }

  // -------------------------------------------------- what archives need

  function Sum(sizes: seq<nat>): nat {
    if sizes == [] then 0 else sizes[0] + Sum(sizes[1..])
  }

  /**
   PAX and ustar framing: a header block, the content padded to blocks, and for a long name a
   path header of its own.
   */
  function Padded(n: nat): nat {
    (n + 511) / 512 * 512
  }

  const LONG_NAME := 100
  const PATH_RECORD := 64

  function Framed(nameBytes: nat, size: nat): nat {
    512 + Padded(size) + if nameBytes > LONG_NAME then 512 + Padded(nameBytes + PATH_RECORD) else 0
  }

  function FramedAll(names: seq<nat>, sizes: seq<nat>): nat
    requires |names| == |sizes|
  {
    if names == [] then 0 else Framed(names[0], sizes[0]) + FramedAll(names[1..], sizes[1..])
  }

  lemma {:induction false} FramingFits(names: seq<nat>, sizes: seq<nat>, nameBytes: nat)
    requires |names| == |sizes| && forall i :: 0 <= i < |names| ==> names[i] <= nameBytes
    ensures FramedAll(names, sizes) <= Sum(sizes) + |names| * (ENTRY_OVERHEAD + nameBytes)
  {
    if names != [] {
      FramingFits(names[1..], sizes[1..], nameBytes);
      OneFramingFits(names[0], sizes[0], nameBytes);
      OneMore(|names| - 1, ENTRY_OVERHEAD + nameBytes);
    }
  }

  lemma OneFramingFits(name: nat, size: nat, nameBytes: nat)
    requires name <= nameBytes
    ensures Framed(name, size) <= size + ENTRY_OVERHEAD + nameBytes
  {
  }

  lemma OneMore(n: nat, perEntry: nat)
    ensures (n + 1) * perEntry == n * perEntry + perEntry
  {
  }

  /**
   No archive within its limits is refused for its framing: its blocks and end
   marker fit the budget, or the budget is all that an int64 can count.
   */
  lemma WithinLimitsFits(names: seq<nat>, sizes: seq<nat>, l: Limits)
    requires InRange(l) && Positive(l)
    requires |names| == |sizes| <= l.entries && Sum(sizes) <= l.unpacked
    requires forall i :: 0 <= i < |names| ==> names[i] <= l.nameBytes
    ensures FramedAll(names, sizes) + TAR_END_BYTES <= Budget(l)
    ensures FramedAll(names, sizes) + TAR_END_BYTES <= StreamBound(l) || StreamBound(l) == MAX_INT64
  {
    FramingFits(names, sizes, l.nameBytes);
    StreamBoundIsExact(l);
    MoreEntries(|names|, l.entries, ENTRY_OVERHEAD + l.nameBytes);
  }

  lemma MoreEntries(a: nat, b: nat, perEntry: nat)
    requires a <= b
    ensures a * perEntry <= b * perEntry
  {
  }
}
