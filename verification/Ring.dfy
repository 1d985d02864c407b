/**
  The bounded single-writer/single-reader ring of decen_buffer.c.

  A slot holding NULL is empty: the ring has no fill counter, the contents of the
  slots are the only synchronisation between its two ends.
 */
module Ring {

  /** A `void *`. Address 0 is NULL. */
  type Pointer = int

  const NULL: Pointer := 0

  /** One past the largest `unsigned int`. */
  const UINT_RANGE: nat := 0x1_0000_0000

  /** The fields of buffer_t; `size` is |data|. */
  datatype Buffer = Buffer(data: seq<Pointer>, pread: nat, pwrite: nat) {
    ghost predicate WellFormed() {
      && 0 < |data| < UINT_RANGE
      && pread < |data|
      && pwrite < |data|
    }
  }

  /** `p += (p+1 >= size) ? (1-size) : 1` in 32-bit unsigned arithmetic. */
  function Advance(p: nat, size: nat): (r: nat)
  {
    var step := if (p + 1) % UINT_RANGE >= size then (1 - size) % UINT_RANGE else 1;
    (p + step) % UINT_RANGE
  }

  /** The wrap-around of the subtraction in Advance cancels: an index steps modulo the size. */
  lemma AdvanceIsModular(p: nat, size: nat)
    requires p < size < UINT_RANGE
    ensures Advance(p, size) == (p + 1) % size
    ensures Advance(p, size) == Wrap(p + 1, size)
  {
    WrapIsModular(p + 1, size);
    if p + 1 == size && size > 1 {
      assert 1 - size == -1 * UINT_RANGE + (UINT_RANGE + 1 - size);
    }
  }

  lemma WrapIsModular(x: nat, size: nat)
    requires 0 < size && x < 2 * size
    ensures x % size == Wrap(x, size)
  {
    if x >= size {
      assert x == 1 * size + (x - size);
    }
  }

  function Empty(size: nat): Buffer {
    Buffer(seq(size, _ => NULL), 0, 0)
  }

  function Top(b: Buffer): Pointer
    requires b.WellFormed()
  {
    b.data[b.pread]
  }

  function Pop(b: Buffer): Buffer
    requires b.WellFormed()
  {
    b.(data := b.data[b.pread := NULL], pread := Advance(b.pread, |b.data|))
  }

  predicate IsSpace(b: Buffer)
    requires b.WellFormed()
  {
    b.data[b.pwrite] == NULL
  }

  function Put(b: Buffer, item: Pointer): Buffer
    requires b.WellFormed()
  {
    b.(data := b.data[b.pwrite := item], pwrite := Advance(b.pwrite, |b.data|))
  }

  // ---------------------------------------------------------------------------
  // The queue a ring represents

  /** x reduced into [0, size), for x below 2 * size. */
  function Wrap(x: nat, size: nat): nat {
    if x >= size then x - size else x
  }

  /** Distance of slot j ahead of the read index. */
  function Ahead(j: nat, pread: nat, size: nat): int {
    if j >= pread then j - pread else j - pread + size
  }

  function Expected(q: seq<Pointer>, k: int): Pointer {
    if 0 <= k < |q| then q[k] else NULL
  }

  /** b stores exactly the queue q: q's items from the read index on, NULL everywhere else. */
  ghost predicate Holds(b: Buffer, q: seq<Pointer>) {
    && b.WellFormed()
    && |q| <= |b.data|
    && NULL !in q
    && b.pwrite == Wrap(b.pread + |q|, |b.data|)
    && forall j :: 0 <= j < |b.data| ==> b.data[j] == Expected(q, Ahead(j, b.pread, |b.data|))
  }

  lemma EmptyHolds(size: nat)
    requires 0 < size < UINT_RANGE
    ensures Holds(Empty(size), [])
  {
  }

  /** The slot test at the write index is exactly "not full". */
  lemma IsSpaceIffNotFull(b: Buffer, q: seq<Pointer>)
    requires Holds(b, q)
    ensures IsSpace(b) <==> |q| < |b.data|
  {
    if |q| == |b.data| {
      assert q[0] in q;
    }
  }

  /** The slot test at the read index is exactly "not empty", and yields the oldest item. */
  lemma TopIsOldest(b: Buffer, q: seq<Pointer>)
    requires Holds(b, q)
    ensures Top(b) == NULL <==> q == []
    ensures q != [] ==> Top(b) == q[0]
  {
    if q != [] {
      assert q[0] in q;
    }
  }

  lemma PutAppends(b: Buffer, q: seq<Pointer>, item: Pointer)
    requires Holds(b, q) && |q| < |b.data| && item != NULL
    ensures Holds(Put(b, item), q + [item])
  {
    AdvanceIsModular(b.pwrite, |b.data|);
  }

  lemma PopRemovesOldest(b: Buffer, q: seq<Pointer>)
    requires Holds(b, q) && q != []
    ensures Holds(Pop(b), q[1..])
  {
    AdvanceIsModular(b.pread, |b.data|);
  }

  /** buffer_t with its operations as they update it in place. */
  class RingBuffer {
    var data: array<Pointer>
    var pread: nat
    var pwrite: nat

    ghost predicate Valid()
      reads this
    {
      0 < data.Length < UINT_RANGE && pread < data.Length && pwrite < data.Length
    }

    ghost function Value(): Buffer
      reads this, data
    {
      Buffer(data[..], pread, pwrite)
    }

    /** LpelBufferInit */
    constructor (size: nat)
      requires 0 < size < UINT_RANGE
      ensures Valid() && fresh(data) && data.Length == size
      ensures Value() == Empty(size) && Holds(Value(), [])
    {
      pread, pwrite := 0, 0;
      data := new Pointer[size](_ => NULL);
      new;
      assert data[..] == Empty(size).data;
      EmptyHolds(size);
    }

    /** LpelBufferTop */
    method TopItem() returns (item: Pointer)
      requires Valid()
      ensures item == Top(Value())
    {
      item := data[pread];
    }

    /** LpelBufferPop */
    method PopItem()
      requires Valid()
      modifies this`pread, data
      ensures Valid() && Value() == Pop(old(Value()))
    {
      AdvanceIsModular(pread, data.Length);
      data[pread] := NULL;
      pread := Advance(pread, data.Length);
    }

    /** LpelBufferIsSpace */
    method HasSpace() returns (space: bool)
      requires Valid()
      ensures space == IsSpace(Value())
    {
      space := data[pwrite] == NULL;
    }

    /** LpelBufferPut, with the asserts on its argument and on space as its precondition. */
    method PutItem(item: Pointer)
      requires Valid() && item != NULL && IsSpace(Value())
      modifies this`pwrite, data
      ensures Valid() && Value() == Put(old(Value()), item)
    {
      AdvanceIsModular(pwrite, data.Length);
      data[pwrite] := item;
      pwrite := Advance(pwrite, data.Length);
    }
  }
}
