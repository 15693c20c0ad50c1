/** The log ring (`log_ring/mod.rs`): a fixed byte buffer that always holds the
    newest bytes written to it. */
module LogRing {

  /** The last `cap` bytes of a stream, or all of it while it is shorter. */
  function Newest(stream: seq<bv8>, cap: nat): (r: seq<bv8>)
    ensures |r| == if |stream| <= cap then |stream| else cap
  {
    if |stream| <= cap then stream else stream[|stream| - cap..]
  }

  /** Only the newest bytes of the past can matter to what is newest now. */
  lemma NewestForgets(past: seq<bv8>, bytes: seq<bv8>, cap: nat)
    ensures Newest(past + bytes, cap) == Newest(Newest(past, cap) + bytes, cap)
  {
    var whole, kept := past + bytes, Newest(past, cap) + bytes;
    if |past| > cap {
      assert kept == whole[|past| - cap..];
      if |whole| > cap { assert kept[|kept| - cap..] == whole[|whole| - cap..]; }
    }
  }

  /** An oversize write leaves nothing of the past. */
  lemma NewestOfOversize(past: seq<bv8>, bytes: seq<bv8>, cap: nat)
    requires |bytes| >= cap
    ensures Newest(past + bytes, cap) == bytes[|bytes| - cap..]
  {
    var whole := past + bytes;
    if |whole| > cap {
      assert whole[|whole| - cap..] == bytes[|bytes| - cap..];
    }
  }

  /** What a buffer holds: the part before the write position, preceded by the
      part after it once the ring has wrapped. */
  function Held(d: seq<bv8>, head: nat, wrapped: bool): seq<bv8>
    requires head <= |d|
  {
    if wrapped then d[head..] + d[..head] else d[..head]
  }

  /** A copy into a wrapped ring that fits before the end of the buffer: what it
      overwrites is the oldest of what was held. */
  lemma PlainCopyOverOld(d: seq<bv8>, head: nat, bytes: seq<bv8>, d': seq<bv8>)
    requires head < |d| == |d'| && |bytes| <= |d| - head
    requires d' == d[..head] + bytes + d[head + |bytes|..]
    ensures var h := head + |bytes|;
            Held(d', if h == |d| then 0 else h, true) == Newest(Held(d, head, true) + bytes, |d|)
  {
    var h := head + |bytes|;
    var newer := d[..head] + bytes;
    assert d'[..h] == newer && d'[h..] == d[h..];
    assert d[head..] + d[..head] + bytes == d[head..h] + (d[h..] + newer);
    NewestDrops(d[head..h], d[h..] + newer, 0, |d|);
    if h == |d| { assert d'[0..] + d'[..0] == d' == d[h..] + newer; }
  }

  /** The same into a ring that has not wrapped: nothing is overwritten. */
  lemma PlainCopyIntoFree(d: seq<bv8>, head: nat, bytes: seq<bv8>, d': seq<bv8>)
    requires head < |d| == |d'| && |bytes| <= |d| - head
    requires d' == d[..head] + bytes + d[head + |bytes|..]
    ensures var h := head + |bytes|;
            Held(d', if h == |d| then 0 else h, h == |d|) == Newest(Held(d, head, false) + bytes, |d|)
  {
    var h := head + |bytes|;
    assert d'[..h] == d[..head] + bytes;
    if h == |d| { assert d'[0..] + d'[..0] == d' == d'[..h]; }
  }

  /** A copy that runs over the end and on from the start. */
  lemma WrappedCopy(d: seq<bv8>, head: nat, wrapped: bool, bytes: seq<bv8>, d': seq<bv8>)
    requires head < |d| == |d'| && |d| - head < |bytes| <= |d|
    requires var tail := |d| - head;
             d' == bytes[tail..] + d[|bytes| - tail..head] + bytes[..tail]
    ensures Held(d', |bytes| - (|d| - head), true) == Newest(Held(d, head, wrapped) + bytes, |d|)
  {
    var h := |bytes| - (|d| - head);
    var tail := d[..head] + bytes;
    var kept := d[h..head] + bytes;
    assert tail[h..] == kept;
    assert d'[h..] == d[h..head] + bytes[..|d| - head] && d'[..h] == bytes[|d| - head..];
    assert bytes == bytes[..|d| - head] + bytes[|d| - head..];
    assert Held(d', h, true) == kept;
    if wrapped {
      NewestDrops(d[head..], tail, h, |d|);
      assert d[head..] + d[..head] + bytes == d[head..] + tail;
    } else {
      NewestDrops([], tail, h, |d|);
      assert [] + tail == tail;
    }
  }

  function Placed(d: seq<bv8>, at: nat, bytes: seq<bv8>): (d': seq<bv8>)
    requires at + |bytes| <= |d|
    ensures |d'| == |d|
  {
    d[..at] + bytes + d[at + |bytes|..]
  }

  /** The buffer after a copy of at most a bufferful, and the write position. */
  function Copied(d: seq<bv8>, head: nat, bytes: seq<bv8>): (d': seq<bv8>)
    requires head < |d| && |bytes| <= |d|
    ensures |d'| == |d|
  {
    var tail := |d| - head;
    if |bytes| <= tail then Placed(d, head, bytes)
    else bytes[tail..] + d[|bytes| - tail..head] + bytes[..tail]
  }

  /** A copy that runs over the end is two: up to the end, and on from the start. */
  lemma CopiedInTwo(d: seq<bv8>, head: nat, bytes: seq<bv8>)
    requires head < |d| && |d| - head < |bytes| <= |d|
    ensures var tail := |d| - head;
            Placed(Placed(d, head, bytes[..tail]), 0, bytes[tail..]) == Copied(d, head, bytes)
  {
    var tail := |d| - head;
    var once := Placed(d, head, bytes[..tail]);
    assert once[|bytes| - tail..] == d[|bytes| - tail..head] + bytes[..tail];
  }

  function HeadAfter(cap: nat, head: nat, n: nat): nat {
    if head + n < cap then head + n else if head + n == cap then 0 else head + n - cap
  }

  /** Whichever way a copy goes, the newest bytes are what is held after it. */
  lemma CopyKeepsNewest(d: seq<bv8>, head: nat, wrapped: bool, bytes: seq<bv8>)
    requires head < |d| && |bytes| <= |d|
    ensures HeadAfter(|d|, head, |bytes|) < |d|
    ensures Held(Copied(d, head, bytes), HeadAfter(|d|, head, |bytes|), wrapped || head + |bytes| >= |d|)
              == Newest(Held(d, head, wrapped) + bytes, |d|)
  {
    hide Held, Newest;
    if |bytes| > |d| - head {
      WrappedCopy(d, head, wrapped, bytes, Copied(d, head, bytes));
    } else if wrapped {
      PlainCopyOverOld(d, head, bytes, Copied(d, head, bytes));
    } else {
      PlainCopyIntoFree(d, head, bytes, Copied(d, head, bytes));
    }
  }

  lemma NewestDrops(before: seq<bv8>, stream: seq<bv8>, drop: nat, cap: nat)
    requires drop <= |stream| && |stream| - drop == cap
    ensures Newest(before + stream, cap) == stream[drop..]
  {
    var all := before + stream;
    assert all[|before| + drop..] == stream[drop..];
    if |all| <= cap { assert all == stream == stream[drop..]; }
  }

  class Ring {
    const data: array<bv8>
    var head: nat
    var wrapped: bool
    ghost var written: seq<bv8>

    /** The two slices a reader is handed, older half first, joined. */
    ghost function Contents(): seq<bv8>
      requires head <= data.Length
      reads this, data
    {
      Held(data[..], head, wrapped)
    }

    ghost predicate Valid()
      reads this, data
    {
      && head < data.Length
      && (!wrapped ==> |written| == head)
      && (wrapped ==> |written| >= data.Length)
      && Contents() == Newest(written, data.Length)
    }

    constructor (buf: array<bv8>)
      requires buf.Length > 0
      modifies buf
      ensures Valid() && data == buf && written == []
    {
      data := buf;
      head, wrapped := 0, false;
      written := [];
      new;
      forall i | 0 <= i < buf.Length { buf[i] := 0; }
    }

    /** `copy_from_slice` into the buffer from one index on. */
    method Put(at: nat, bytes: seq<bv8>)
      requires at + |bytes| <= data.Length
      modifies data
      ensures data[..] == Placed(old(data[..]), at, bytes)
    {
      forall i | 0 <= i < |bytes| { data[at + i] := bytes[i]; }
    }

    /** Copy at most a bufferful in at the write position. */
    method CopyIn(bytes: seq<bv8>)
      requires head < data.Length && |bytes| <= data.Length
      modifies this`head, this`wrapped, data
      ensures head < data.Length
      ensures Contents() == Newest(old(Contents()) + bytes, data.Length)
      ensures !wrapped ==> !old(wrapped) && head == old(head) + |bytes|
      ensures !old(wrapped) && wrapped ==> old(head) + |bytes| >= data.Length
    {
      hide Held, Newest;
      CopyKeepsNewest(data[..], head, wrapped, bytes);
      CopyOver(bytes);
    }

    method CopyOver(bytes: seq<bv8>)
      requires head < data.Length && |bytes| <= data.Length
      modifies this`head, this`wrapped, data
      ensures data[..] == Copied(old(data[..]), old(head), bytes)
      ensures head == HeadAfter(data.Length, old(head), |bytes|)
      ensures wrapped <==> old(wrapped) || old(head) + |bytes| >= data.Length
    {
      hide Placed;
      var cap := data.Length;
      var tail := cap - head;
      if |bytes| <= tail {
        Put(head, bytes);
        head := head + |bytes|;
        if head == cap {
          head := 0;
          wrapped := true;
        }
      } else {
        var first, rest := bytes[..tail], bytes[tail..];
        CopiedInTwo(data[..], head, bytes);
        Put(head, first);
        Put(0, rest);
        head := |rest|;
        wrapped := true;
      }
    }

    /** Append bytes of any number; of an oversize line only the last bufferful
        is kept. */
    method Write(line: seq<bv8>)
      requires Valid()
      modifies this, data
      ensures Valid() && written == old(written) + line
    {
      hide Held;
      var cap := data.Length;
      var bytes := line;
      NewestForgets(written, line, cap);
      if |bytes| > cap {
        bytes := bytes[|bytes| - cap..];
        head := 0;
        wrapped := true;
        NewestOfOversize(written, line, cap);
        NewestOfOversize(Contents(), bytes, cap);
      }
      CopyIn(bytes);
      written := written + line;
    }

    /** Borrow the contents as up to two slices, oldest bytes first: together
        they are the newest bytes of everything ever written. */
    method Slices() returns (older: seq<bv8>, newer: seq<bv8>)
      requires Valid()
      ensures older + newer == Newest(written, data.Length)
    {
      if wrapped {
        older, newer := data[head..], data[..head];
        assert data[..][head..] == older && data[..][..head] == newer;
      } else {
        older, newer := data[..head], [];
        assert older + newer == data[..][..head];
      }
    }
  }
}
