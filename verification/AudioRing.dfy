/**
  The audio buffer of TCPv3/src/external_RAM.c: one ring of bytes over two memory chips, which is
  filled by RAM_bufput and emptied by RAM_bufget and the VS_feed of TCPv3/VS1053/vs1053.c.
  A DMA transfer is one step, and the mutex and the transfers succeed.
 */
module AudioRing {
  import opened Octets

  const CHIP_SIZE: nat := 0x4_0000
  const BUF_SIZE: nat := 0x8_0000
  const MAX_TRANSFER: nat := 4095

  // ----- the ring as a value

  function Around(address: nat): nat {
    if address < BUF_SIZE then address else address - BUF_SIZE
  }

  /** How far an address lies ahead of another one, around the ring. */
  function Ahead(from: nat, address: nat): int {
    if address >= from then address - from else address - from + BUF_SIZE
  }

  /** n bytes from a place on. */
  function Bytes(memory: seq<byte>, from: nat, n: nat): (bytes: seq<byte>)
    requires |memory| == BUF_SIZE && from < BUF_SIZE && n <= BUF_SIZE
    ensures |bytes| == n
  {
    seq(n, i requires 0 <= i < n => memory[Around(from + i)])
  }

  /** The memory after bytes have been written from a place on. */
  function Written(memory: seq<byte>, from: nat, bytes: seq<byte>): (m: seq<byte>)
    requires |memory| == BUF_SIZE && from < BUF_SIZE && |bytes| <= BUF_SIZE
    ensures |m| == BUF_SIZE
  {
    seq(BUF_SIZE, a requires 0 <= a < BUF_SIZE => if Ahead(from, a) < |bytes| then bytes[Ahead(from, a)] else memory[a])
  }

  /** What is written behind the contents is appended to them. */
  lemma WrittenBehind(memory: seq<byte>, tail: nat, n: nat, bytes: seq<byte>)
    requires |memory| == BUF_SIZE && tail < BUF_SIZE && n + |bytes| < BUF_SIZE
    ensures Bytes(Written(memory, Around(tail + n), bytes), tail, n + |bytes|) == Bytes(memory, tail, n) + bytes
  {
    var head := Around(tail + n);
    var after := Bytes(Written(memory, head, bytes), tail, n + |bytes|);
    forall i | 0 <= i < n + |bytes| ensures after[i] == (Bytes(memory, tail, n) + bytes)[i] {
      assert Ahead(head, Around(tail + i)) == if i >= n then i - n else i - n + BUF_SIZE;
    }
  }

  lemma BytesInPieces(memory: seq<byte>, tail: nat, k: nat, n: nat)
    requires |memory| == BUF_SIZE && tail < BUF_SIZE && k <= n < BUF_SIZE
    ensures Bytes(memory, tail, n) == Bytes(memory, tail, k) + Bytes(memory, Around(tail + k), n - k)
  {
    forall i | k <= i < n ensures Bytes(memory, tail, n)[i] == Bytes(memory, Around(tail + k), n - k)[i - k] {
      assert Around(Around(tail + k) + (i - k)) == Around(tail + i);
    }
  }

  // ----- what a put of many chunks puts

  /** Every chunk but the first is taken from the same place, the end of the first one. */
  function LaterChunks(data: seq<byte>, left: nat): seq<byte>
    requires left > 0 ==> |data| >= MAX_TRANSFER + (if left > MAX_TRANSFER then MAX_TRANSFER else left)
    decreases left
  {
    if left == 0 then []
    else if left > MAX_TRANSFER then data[MAX_TRANSFER..2 * MAX_TRANSFER] + LaterChunks(data, left - MAX_TRANSFER)
    else data[MAX_TRANSFER..MAX_TRANSFER + left]
  }

  function Image(data: seq<byte>): seq<byte> {
    if |data| <= MAX_TRANSFER then data else data[..MAX_TRANSFER] + LaterChunks(data, |data| - MAX_TRANSFER)
  }

  /** In front of a round of the loop: the first one takes its bytes from the start, the others from the end of the first. */
  predicate InFrontOfARound(data: seq<byte>, source: nat, left: nat) {
    (source == 0 && left == |data|) || (source == MAX_TRANSFER && (left == 0 || left <= |data| - MAX_TRANSFER))
  }

  function ImageLeft(data: seq<byte>, source: nat, left: nat): seq<byte>
    requires InFrontOfARound(data, source, left)
  {
    if source == 0 then Image(data) else LaterChunks(data, left)
  }

  lemma OneRound(data: seq<byte>, source: nat, left: nat)
    requires InFrontOfARound(data, source, left) && left > 0
    ensures var len := if left > MAX_TRANSFER then MAX_TRANSFER else left;
      && source + len <= |data| && InFrontOfARound(data, MAX_TRANSFER, left - len)
      && ImageLeft(data, source, left) == data[source..source + len] + ImageLeft(data, MAX_TRANSFER, left - len)
  {
  }

  lemma ShortDataIsItsImage(data: seq<byte>)
    requires |data| <= 2 * MAX_TRANSFER
    ensures Image(data) == data
  {
    if |data| > MAX_TRANSFER {
      assert data == data[..MAX_TRANSFER] + data[MAX_TRANSFER..];
    }
  }

  lemma WholeImage(data: seq<byte>)
    ensures ImageLeft(data, 0, |data|) == Image(data)
  {
  }

  lemma NothingLeft(data: seq<byte>, source: nat)
    requires InFrontOfARound(data, source, 0)
    ensures ImageLeft(data, source, 0) == []
  {
  }

  /** Puts of a given length are right, whatever the data, exactly up to two full transfers. */
  lemma PutsAreRightUpToTwoTransfers(length: nat)
    ensures (forall data: seq<byte> :: |data| == length ==> Image(data) == data) <==> length <= 2 * MAX_TRANSFER
  {
    if length <= 2 * MAX_TRANSFER {
      forall data: seq<byte> | |data| == length ensures Image(data) == data {
        ShortDataIsItsImage(data);
      }
    } else {
      var data := seq(length, i => if i < 2 * MAX_TRANSFER then 0 else 1);
      var third := LaterChunks(data, length - 2 * MAX_TRANSFER);
      assert LaterChunks(data, length - MAX_TRANSFER) == data[MAX_TRANSFER..2 * MAX_TRANSFER] + third;
      assert third[0] == data[MAX_TRANSFER] == 0;
      assert Image(data)[2 * MAX_TRANSFER] == third[0];
      assert Image(data) != data;
    }
  }

  // ----- what a get gets

  /** The end of the chip that an address is in. */
  function ChipEnd(address: nat): nat {
    if address < CHIP_SIZE then CHIP_SIZE else BUF_SIZE
  }

  /** The bytes lie on two chips. */
  predicate IsSplit(tail: nat, len: nat) {
    ChipEnd(tail) - tail < len
  }

  /** What a get leaves in the buffer: the bytes of the second chip are put over those of the first one. */
  function Got(memory: seq<byte>, tail: nat, len: nat, before: seq<byte>): (bytes: seq<byte>)
    requires |memory| == BUF_SIZE && tail < BUF_SIZE && |before| == len <= CHIP_SIZE
    ensures |bytes| == len
  {
    if !IsSplit(tail, len) then Bytes(memory, tail, len)
    else
      var k := ChipEnd(tail) - tail;
      var first := Bytes(memory, tail, k) + before[k..];
      Bytes(memory, Around(tail + k), len - k) + first[len - k..]
  }

  function ArrivedAt(memory: seq<byte>, tail: nat, len: nat, before: seq<byte>, i: nat): byte
    requires |memory| == BUF_SIZE && tail < BUF_SIZE && |before| == len <= CHIP_SIZE && i < len
  {
    var k := ChipEnd(tail) - tail;
    if len <= k then memory[tail + i]
    else if i < len - k then memory[Around(tail + k) + i]
    else if i < k then memory[tail + i]
    else before[i]
  }

  /** The buffer after a get, index by index: the second chip's bytes, what is left of the first chip's, and of the buffer. */
  lemma Arrived(memory: seq<byte>, tail: nat, len: nat, before: seq<byte>, after: seq<byte>)
    requires |memory| == BUF_SIZE && tail < BUF_SIZE && |before| == |after| == len <= CHIP_SIZE
    requires forall i :: 0 <= i < len ==> after[i] == ArrivedAt(memory, tail, len, before, i)
    ensures after == Got(memory, tail, len, before)
  {
    var k := ChipEnd(tail) - tail;
    forall i | 0 <= i < len ensures after[i] == Got(memory, tail, len, before)[i] {
      assert after[i] == ArrivedAt(memory, tail, len, before, i);
      if k < len && i < len - k {
        assert Around(Around(tail + k) + i) == Around(tail + k) + i;
        assert Got(memory, tail, len, before)[i] == Bytes(memory, Around(tail + k), len - k)[i];
      } else if k < len {
        var first := Bytes(memory, tail, k) + before[k..];
        assert Got(memory, tail, len, before)[i] == first[len - k..][i - (len - k)] == first[i];
        assert i < k ==> first[i] == Bytes(memory, tail, k)[i] == memory[Around(tail + i)] == memory[tail + i];
        assert i >= k ==> first[i] == before[k..][i - k];
      } else {
        assert Around(tail + i) == tail + i;
      }
    }
  }

  /** Gets from a given place are right, whatever the memory holds, exactly if they are not split. */
  lemma GetsAreRightUnlessSplit(tail: nat, len: nat)
    requires tail < BUF_SIZE && len <= CHIP_SIZE
    ensures (forall memory: seq<byte>, before: seq<byte> :: |memory| == BUF_SIZE && |before| == len ==>
               Got(memory, tail, len, before) == Bytes(memory, tail, len))
            <==> !IsSplit(tail, len)
  {
    if IsSplit(tail, len) {
      var k := ChipEnd(tail) - tail;
      var memory := seq(BUF_SIZE, a => if a == Around(tail + k) then 1 else 0);
      var before := seq(len, i => 0);
      assert Got(memory, tail, len, before)[0] == 1;
      assert Around(tail + 0) == tail != Around(tail + k);
      assert Bytes(memory, tail, len)[0] == memory[tail] == 0;
      assert Got(memory, tail, len, before) != Bytes(memory, tail, len);
    }
  }

  /** Gets of 32 bytes from multiples of 32 are never split, and stay at multiples of 32. */
  lemma AlignedGetsAreNotSplit(tail: nat)
    requires tail < BUF_SIZE && tail % 32 == 0
    ensures !IsSplit(tail, 32) && Around(tail + 32) % 32 == 0
  {
  }

  // ----- how much is sent

  /** How often 32 bytes can be sent so that some are left: the last 32 bytes are never sent. */
  function ChunksIn(length: nat): nat {
    if length == 0 then 0 else (length - 1) / 32
  }

  lemma NotTheLastBytes(length: nat, n: nat)
    requires length - 32 * n > 32
    ensures n + 1 <= ChunksIn(length)
  {
  }

  lemma OnlyTheLastBytes(length: nat, n: nat)
    requires length - 32 * n <= 32 && n <= ChunksIn(length)
    ensures n == ChunksIn(length)
  {
  }

  // ----- the program

  class Ring {
    const ram1: array<byte>
    const ram2: array<byte>
    var head: nat
    var tail: nat
    ghost var given: seq<byte>         // all that was put since the last reset
    ghost var taken: seq<byte>         // all that was got since the last reset

    ghost function Memory(): (m: seq<byte>)
      reads ram1, ram2
      ensures |m| == ram1.Length + ram2.Length
    {
      ram1[..] + ram2[..]
    }

    /** RAM_buflen */
    function BufLen(): (n: nat)
      requires head < BUF_SIZE && tail < BUF_SIZE
      reads `head, `tail
      ensures n < BUF_SIZE && head == Around(tail + n)
    {
      if head > tail then head - tail else if head < tail then BUF_SIZE - (tail - head) else 0
    }

    /** RAM_buffree */
    function BufFree(): (n: nat)
      requires head < BUF_SIZE && tail < BUF_SIZE
      reads `head, `tail
      ensures n + BufLen() == BUF_SIZE - 1
    {
      BUF_SIZE - BufLen() - 1
    }

    ghost predicate Shape()
      reads `head, `tail
    {
      ram1.Length == ram2.Length == CHIP_SIZE && ram1 != ram2 && head < BUF_SIZE && tail < BUF_SIZE
    }

    ghost function Contents(): (bytes: seq<byte>)
      requires Shape()
      reads `head, `tail, ram1, ram2
      ensures |bytes| == BufLen()
    {
      Bytes(Memory(), tail, BufLen())
    }

    /** Everything comes out in the order in which it went in. */
    ghost predicate Valid()
      reads this, ram1, ram2
    {
      Shape() && given == taken + Contents()
    }

    constructor ()
      ensures Valid() && Contents() == [] && tail == 0 && fresh(ram1) && fresh(ram2)
    {
      ram1, ram2 := new byte[CHIP_SIZE](_ => 0), new byte[CHIP_SIZE](_ => 0);
      head, tail, given, taken := 0, 0, [], [];
    }

    /** A DMA transfer of bytes to consecutive addresses of one chip. */
    static method Transfer(chip: array<byte>, address: nat, bytes: seq<byte>)
      requires address + |bytes| <= chip.Length
      modifies chip
      ensures forall a :: 0 <= a < chip.Length ==>
        chip[a] == if address <= a < address + |bytes| then bytes[a - address] else old(chip[a])
    {
      forall i | 0 <= i < |bytes| {
        chip[address + i] := bytes[i];
      }
    }

    /** One round of the loop of RAM_bufput. */
    method PutChunk(data: seq<byte>)
      requires Shape() && |data| <= MAX_TRANSFER
      modifies `head, ram1, ram2
      ensures Shape() && head == Around(old(head) + |data|)
      ensures Memory() == Written(old(Memory()), old(head), data)
    {
      var len := |data|;
      if head < CHIP_SIZE {
        if CHIP_SIZE - head >= len {
          Transfer(ram1, head, data);
          head := head + len;
        } else {
          var written := CHIP_SIZE - head;
          Transfer(ram1, head, data[..written]);
          Transfer(ram2, 0, data[written..]);
          head := CHIP_SIZE + (len - written);
        }
      } else {
        if 2 * CHIP_SIZE - head >= len {
          Transfer(ram2, head - CHIP_SIZE, data);
          head := head + len;
          if head >= 2 * CHIP_SIZE {
            head := 0;
          }
        } else {
          var written := 2 * CHIP_SIZE - head;
          Transfer(ram2, head - CHIP_SIZE, data[..written]);
          Transfer(ram1, 0, data[written..]);
          head := len - written;
        }
      }
    }

    /** One round appends its bytes. */
    method Append(data: seq<byte>)
      requires Shape() && |data| <= MAX_TRANSFER && |data| <= BufFree()
      modifies `head, ram1, ram2
      ensures Shape() && BufLen() == old(BufLen()) + |data| && Contents() == old(Contents()) + data
    {
      WrittenBehind(Memory(), tail, BufLen(), data);
      hide Bytes, Written;
      ghost var n := BufLen();
      PutChunk(data);
      assert BufLen() == n + |data|;
    }

    /** RAM_bufput, when there is room: up to two transfers are appended as they are. */
    method BufPut(data: seq<byte>)
      requires Valid() && |data| <= BufFree()
      modifies `head, `given, ram1, ram2
      ensures Valid() && BufLen() == old(BufLen()) + |data|
      ensures Contents() == old(Contents()) + Image(data)
      ensures |data| <= 2 * MAX_TRANSFER ==> Contents() == old(Contents()) + data
      ensures given == old(given) + Image(data)
    {
      hide Bytes, Image, ImageLeft, LaterChunks, Memory;
      var left: nat := |data|;
      var source: nat := 0;
      WholeImage(data);
      ghost var before := Contents();
      while left > 0
        invariant Shape() && InFrontOfARound(data, source, left) && BufLen() + left == |before| + |data|
        invariant before + Image(data) == Contents() + ImageLeft(data, source, left) && given == old(given)
      {
        var len := if left > MAX_TRANSFER then MAX_TRANSFER else left;
        OneRound(data, source, left);
        ghost var contents := Contents();
        Append(data[source..source + len]);
        left := left - len;
        source := MAX_TRANSFER;
      }
      NothingLeft(data, source);
      assert taken + before + Image(data) == taken + (before + Image(data));
      given := given + Image(data);
      if |data| <= 2 * MAX_TRANSFER {
        ShortDataIsItsImage(data);
      }
    }

    /** A DMA transfer from one chip; the first byte to arrive is not data. */
    static method Receive(chip: array<byte>, address: nat, len: nat, buf: array<byte>, noise: byte)
      requires address + len <= chip.Length && len + 1 <= buf.Length && buf != chip
      modifies buf
      ensures forall i :: 0 < i < buf.Length ==> buf[i] == if i <= len then chip[address + i - 1] else old(buf[i])
    {
      buf[0] := noise;
      forall i | 0 < i <= len {
        buf[i] := chip[address + i - 1];
      }
    }

    /** Two transfers, the second one from the start of the other chip, to the same place in the buffer. */
    static method ReceiveTwice(chip: array<byte>, address: nat, read: nat, other: array<byte>, len: nat, buf: array<byte>, noise: byte)
      requires address + read <= chip.Length && read < len <= other.Length && len + 1 <= buf.Length && buf != chip && buf != other
      modifies buf
      ensures forall i :: 0 < i <= len ==>
        buf[i] == if i <= len - read then other[i - 1] else if i <= read then chip[address + i - 1] else old(buf[i])
    {
      Receive(chip, address, read, buf, noise);
      Receive(other, 0, len - read, buf, noise);
    }

    lemma At(address: nat)
      requires ram1.Length == ram2.Length == CHIP_SIZE && address < BUF_SIZE
      ensures Memory()[address] == if address < CHIP_SIZE then ram1[address] else ram2[address - CHIP_SIZE]
    {
    }

    /** RAM_bufget: the bytes arrive in buf from index 1 on. */
    method BufGet(buf: array<byte>, len: nat, noise: byte)
      requires Shape() && len + 1 <= buf.Length && len <= CHIP_SIZE && buf != ram1 && buf != ram2
      modifies `tail, buf
      ensures Shape() && tail == Around(old(tail) + len)
      ensures buf[1..len + 1] == Got(Memory(), old(tail), len, old(buf[1..len + 1]))
    {
      ghost var t, before := tail, buf[1..len + 1];
      hide Got, Bytes, Memory;
      if tail < CHIP_SIZE {
        if CHIP_SIZE - tail >= len {
          Receive(ram1, tail, len, buf, noise);
          tail := tail + len;
        } else {
          var read := CHIP_SIZE - tail;
          ReceiveTwice(ram1, tail, read, ram2, len, buf, noise);
          tail := tail + len;
        }
      } else {
        if 2 * CHIP_SIZE - tail >= len {
          Receive(ram2, tail - CHIP_SIZE, len, buf, noise);
          tail := tail + len;
          if tail >= 2 * CHIP_SIZE {
            tail := 0;
          }
        } else {
          var read := 2 * CHIP_SIZE - tail;
          ReceiveTwice(ram2, tail - CHIP_SIZE, read, ram1, len, buf, noise);
          tail := len - read;
        }
      }
      forall i | 0 <= i < len ensures buf[1..len + 1][i] == ArrivedAt(Memory(), t, len, before, i) {
        assert buf[1..len + 1][i] == buf[i + 1];
        At(Around(t + i));
        if IsSplit(t, len) {
          At(Around(ChipEnd(t)) + i);
        }
      }
      Arrived(Memory(), t, len, before, buf[1..len + 1]);
    }

    /** A get of 32 bytes at a multiple of 32: the oldest bytes, in order. */
    method GetAligned(buffer: array<byte>, noise: byte)
      requires Shape() && tail % 32 == 0 && BufLen() >= 32 && buffer.Length == 33 && buffer != ram1 && buffer != ram2
      modifies `tail, buffer
      ensures Shape() && tail % 32 == 0 && BufLen() == old(BufLen()) - 32
      ensures old(Contents()) == buffer[1..33] + Contents()
    {
      AlignedGetsAreNotSplit(tail);
      BytesInPieces(Memory(), tail, 32, BufLen());
      ghost var n := BufLen();
      hide Bytes;
      BufGet(buffer, 32, noise);
      assert BufLen() == n - 32;
    }

    /** The loop of VS_feed, as long as the decoder asks for more: 32 bytes at a time, in order. */
    method Feed(wanted: nat, noise: byte) returns (sent: seq<byte>)
      requires Valid() && tail % 32 == 0
      modifies `tail, `taken
      ensures Valid() && tail % 32 == 0
      ensures old(Contents()) == sent + Contents() && taken == old(taken) + sent
      ensures |sent| == 32 * if wanted < ChunksIn(old(BufLen())) then wanted else ChunksIn(old(BufLen()))
    {
      hide Bytes, Memory;
      sent := [];
      var n := 0;
      ghost var before := Contents();
      var buffer := new byte[33](_ => 0);
      while n < wanted && BufLen() > 32
        invariant Shape() && tail % 32 == 0 && 0 <= n <= wanted && |sent| == 32 * n
        invariant before == sent + Contents() && taken == old(taken)
        invariant BufLen() == old(BufLen()) - 32 * n && n <= ChunksIn(old(BufLen()))
      {
        NotTheLastBytes(old(BufLen()), n);
        GetAligned(buffer, noise);
        sent := sent + buffer[1..33];
        n := n + 1;
      }
      if n < wanted {
        OnlyTheLastBytes(old(BufLen()), n);
      }
      assert taken + before == taken + sent + Contents();
      taken := taken + sent;
    }

    /** resetbuff */
    method Reset()
      requires Shape()
      modifies `head, `tail, `given, `taken
      ensures Valid() && Contents() == [] && tail == 0
    {
      head, tail, given, taken := 0, 0, [], [];
    }
  }
}
