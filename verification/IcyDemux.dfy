/**
  The demultiplexer of TCPv3/src/shoutcast.c: the receive loop and get_metadata, which pass the audio
  of each packet on to RAM_bufput and skip the metadata.
 */
module IcyDemux {
  import opened Octets
  import opened IcyStream

  // ----- what one packet does

  /** The packet suits the state: no second length byte lies in it, and it completes a metadata block it continues. */
  predicate Fits(packet: seq<byte>, p: Phase, metaInt: nat) {
    match p
    case Audio(left) =>
      |packet| <= left || var rest := |packet| - left - 1 - MetaLength(packet[left]); rest <= metaInt
    case Meta(left) => packet == [] || left <= |packet| <= left + metaInt
  }

  /** What is put into the buffer for one packet; None if the wait for room never ends. */
  datatype Outcome = Never | Put(bytes: seq<byte>)

  function Payload(packet: seq<byte>, p: Phase): Outcome {
    match p
    case Audio(left) =>
      if |packet| <= left then Put(packet)
      else
        var skipped := MetaLength(packet[left]);
        if |packet| - left - 1 < skipped then Put(packet[..left]) else Put(packet[..left] + packet[left + 1 + skipped..])
    case Meta(left) =>
      if packet == [] then Put([]) else if |packet| < left then Never else Put(packet[left..])
  }

  /** The audio of a packet is passed on rightly exactly if the packet fits. */
  lemma PayloadIsExact(packet: seq<byte>, p: Phase, metaInt: nat)
    requires p.Meta? ==> p.left > 0
    ensures Payload(packet, p) == Put(Clean(packet, p, metaInt)) <==> Fits(packet, p, metaInt)
  {
    if p.Audio? && |packet| > p.left {
      var rest := packet[p.left + 1..];
      var skipped := MetaLength(packet[p.left]);
      if |rest| >= skipped {
        assert packet[p.left + 1 + skipped..] == rest[skipped..];
        CleanIsShort(rest[skipped..], Audio(metaInt), metaInt);
      }
    } else if p.Meta? && |packet| >= p.left {
      CleanIsShort(packet[p.left..], Audio(metaInt), metaInt);
    }
  }

  /** Where a packet that fits leaves the stream. */
  lemma AfterAPacket(packet: seq<byte>, p: Phase, metaInt: nat)
    requires Fits(packet, p, metaInt) && (p.Meta? ==> p.left > 0)
    ensures After(packet, p, metaInt) ==
      match p
      case Audio(left) =>
        if |packet| <= left then Audio(left - |packet|)
        else
          var skipped, rest := MetaLength(packet[left]), |packet| - left - 1;
          if rest < skipped then Meta(skipped - rest) else Audio(metaInt - (rest - skipped))
      case Meta(left) => if packet == [] then p else Audio(metaInt - (|packet| - left))
  {
    if p.Audio? && |packet| > p.left {
      var skipped, rest := MetaLength(packet[p.left]), packet[p.left + 1..];
      assert After(packet, p, metaInt) == After(rest, Meta(skipped), metaInt);
      if |rest| >= skipped {
        assert After(rest, Meta(skipped), metaInt) == After(rest[skipped..], Audio(metaInt), metaInt);
      }
    }
  }

  /** One packet more: the output stays the clean stream exactly if the packet fits. */
  lemma OnePacketMore(first: seq<byte>, received: seq<byte>, packet: seq<byte>, start: Phase, p: Phase, metaInt: nat)
    requires p == After(received, start, metaInt) && (p.Meta? ==> p.left > 0)
    ensures Fits(packet, p, metaInt) ==> Payload(packet, p).Put? && After(received + packet, start, metaInt) == After(packet, p, metaInt)
    ensures Payload(packet, p).Put? ==>
      (first + Clean(received, start, metaInt) + Payload(packet, p).bytes == first + Clean(received + packet, start, metaInt)
       <==> Fits(packet, p, metaInt))
  {
    CleanInPieces(received, packet, start, metaInt);
    PayloadIsExact(packet, p, metaInt);
    hide Clean, After, Fits, Payload;
    var before, whole := first + Clean(received, start, metaInt), first + Clean(received + packet, start, metaInt);
    assert whole == before + Clean(packet, p, metaInt);
    assert whole[|before|..] == Clean(packet, p, metaInt);
    if Payload(packet, p).Put? {
      var bytes := Payload(packet, p).bytes;
      assert Payload(packet, p) == Put(bytes);
      assert (before + bytes)[|before|..] == bytes;
    }
  }

  lemma FewBytesFit(packet: seq<byte>, p: Phase, metaInt: nat)
    requires (packet == [] && (p.Meta? ==> p.left > 0)) || (p.Audio? && |packet| <= p.left)
    ensures Fits(packet, p, metaInt) && Payload(packet, p) == Put(packet)
    ensures After(packet, p, metaInt) == if packet == [] then p else Audio(p.left - |packet|)
  {
  }

  /** Packets of at most one metadata interval fit, if they complete the block they continue. */
  lemma ShortPacketsFit(packet: seq<byte>, p: Phase, metaInt: nat)
    requires |packet| <= metaInt && (p.Meta? ==> p.left <= |packet|)
    ensures Fits(packet, p, metaInt)
  {
  }

  // ----- what all packets do

  function Flatten(packets: seq<seq<byte>>): seq<byte> {
    if packets == [] then [] else packets[0] + Flatten(packets[1..])
  }

  predicate AllFit(packets: seq<seq<byte>>, p: Phase, metaInt: nat)
    decreases |packets|
  {
    packets == [] || (Fits(packets[0], p, metaInt) && AllFit(packets[1..], After(packets[0], p, metaInt), metaInt))
  }

  /** The audio passed on for packets that fit, one after the other. */
  function Delivered(packets: seq<seq<byte>>, p: Phase, metaInt: nat): seq<byte>
    decreases |packets|
  {
    if packets == [] then []
    else
      var payload := Payload(packets[0], p);
      (if payload.Put? then payload.bytes else []) + Delivered(packets[1..], After(packets[0], p, metaInt), metaInt)
  }

  /** However the stream is cut into packets: if they fit, what is passed on is the stream without its metadata. */
  lemma {:induction false} DeliveredIsClean(packets: seq<seq<byte>>, p: Phase, metaInt: nat)
    requires AllFit(packets, p, metaInt) && (p.Meta? ==> p.left > 0)
    ensures Delivered(packets, p, metaInt) == Clean(Flatten(packets), p, metaInt)
    decreases |packets|
  {
    if packets != [] {
      PayloadIsExact(packets[0], p, metaInt);
      MetadataLeftIsPositive(packets[0], p, metaInt);
      DeliveredIsClean(packets[1..], After(packets[0], p, metaInt), metaInt);
      CleanInPieces(packets[0], Flatten(packets[1..]), p, metaInt);
    }
  }

  lemma {:induction false} FittingInPieces(a: seq<seq<byte>>, b: seq<seq<byte>>, p: Phase, metaInt: nat)
    requires p.Meta? ==> p.left > 0
    ensures AllFit(a + b, p, metaInt) <==> AllFit(a, p, metaInt) && AllFit(b, After(Flatten(a), p, metaInt), metaInt)
    ensures Flatten(a + b) == Flatten(a) + Flatten(b)
    decreases |a|
  {
    hide After, Fits;
    if a == [] {
      assert a + b == b;
      NoPackets(p, metaInt);
    } else {
      assert (a + b)[0] == a[0] && (a + b)[1..] == a[1..] + b;
      MetadataLeftIsPositive(a[0], p, metaInt);
      FittingInPieces(a[1..], b, After(a[0], p, metaInt), metaInt);
      CleanInPieces(a[0], Flatten(a[1..]), p, metaInt);
    }
  }

  lemma NoPackets(p: Phase, metaInt: nat)
    requires p.Meta? ==> p.left > 0
    ensures After([], p, metaInt) == p && Clean([], p, metaInt) == [] && Flatten([]) == []
  {
  }

  lemma OneMorePacket(packets: seq<seq<byte>>, p: Phase, metaInt: nat)
    requires packets != [] && (p.Meta? ==> p.left > 0)
    ensures var n := |packets| - 1;
      var q := After(Flatten(packets[..n]), p, metaInt);
      && Flatten(packets) == Flatten(packets[..n]) + packets[n]
      && After(Flatten(packets), p, metaInt) == After(packets[n], q, metaInt)
      && (AllFit(packets, p, metaInt) <==> AllFit(packets[..n], p, metaInt) && Fits(packets[n], q, metaInt))
  {
    hide After, Fits;
    var n := |packets| - 1;
    assert packets == packets[..n] + [packets[n]];
    FittingInPieces(packets[..n], [packets[n]], p, metaInt);
    assert Flatten([packets[n]]) == packets[n];
    CleanInPieces(Flatten(packets[..n]), packets[n], p, metaInt);
  }

  lemma FirstThatDoesNotFit(packets: seq<seq<byte>>, n: nat, p: Phase, metaInt: nat)
    requires n < |packets| && (p.Meta? ==> p.left > 0) && !Fits(packets[n], After(Flatten(packets[..n]), p, metaInt), metaInt)
    ensures !AllFit(packets, p, metaInt)
  {
    hide After, Fits;
    assert packets == packets[..n] + packets[n..];
    FittingInPieces(packets[..n], packets[n..], p, metaInt);
  }

  lemma {:induction false} MetadataLeftIsPositive(s: seq<byte>, p: Phase, metaInt: nat)
    ensures After(s, p, metaInt).Meta? ==> After(s, p, metaInt).left > 0
    decreases |s|, if p.Meta? then 1 else 0
  {
    if p.Audio? && |s| > p.left {
      MetadataLeftIsPositive(s[p.left + 1..], Meta(MetaLength(s[p.left])), metaInt);
    } else if p.Meta? && |s| >= p.left {
      MetadataLeftIsPositive(s[p.left..], Audio(metaInt), metaInt);
    }
  }

  /** Two ways to cut the same stream into fitting packets sound the same. */
  lemma PacketisationDoesNotMatter(a: seq<seq<byte>>, b: seq<seq<byte>>, p: Phase, metaInt: nat)
    requires AllFit(a, p, metaInt) && AllFit(b, p, metaInt) && Flatten(a) == Flatten(b) && (p.Meta? ==> p.left > 0)
    ensures Delivered(a, p, metaInt) == Delivered(b, p, metaInt)
  {
    DeliveredIsClean(a, p, metaInt);
    DeliveredIsClean(b, p, metaInt);
  }

  // ----- the program

  datatype Mode = MODE1 | MODE2 | MODE3 | MODE4

  /** The program's variables between two packets: the two static ones, and the counter of audio bytes. */
  datatype Machine = Machine(mode: Mode, left: nat, counter: int)

  /** The counter has not run past the next length byte, and metadata that is awaited is some. */
  predicate InRange(m: Machine, metaInt: nat) {
    0 <= m.counter <= metaInt && (!m.mode.MODE1? ==> m.left > 0)
  }

  /** Where in the stream get_metadata takes itself to be. */
  function TakenFor(m: Machine, metaInt: nat): Phase
    requires InRange(m, metaInt)
  {
    if m.mode.MODE1? then Audio(metaInt - m.counter) else Meta(m.left)
  }

  /** What the receive loop puts for a packet. */
  function CodePayload(m: Machine, packet: seq<byte>, metaInt: nat): Outcome
    requires InRange(m, metaInt)
  {
    if m.counter + |packet| <= metaInt then Put(packet) else Payload(packet, TakenFor(m, metaInt))
  }

  /** And what the variables are then; search is what looking for a title comes to. */
  function CodeNext(m: Machine, packet: seq<byte>, search: Mode, metaInt: nat): Machine
    requires InRange(m, metaInt)
  {
    if m.counter + |packet| <= metaInt then m.(counter := m.counter + |packet|)
    else if m.mode.MODE1? then
      var position := metaInt - m.counter;
      var length, rest := MetaLength(packet[position]), |packet| - position - 1;
      if rest < length then Machine(search, length - rest, metaInt) else Machine(MODE1, m.left, rest - length)
    else if |packet| < m.left then m.(counter := m.counter + |packet|)
    else Machine(MODE1, m.left, |packet| - m.left)
  }

  /** When the counter is in range and within metadata only at its end, the loop puts what get_metadata would. */
  lemma PayloadByCode(m: Machine, packet: seq<byte>, metaInt: nat)
    requires InRange(m, metaInt) && (!m.mode.MODE1? ==> m.counter == metaInt)
    ensures CodePayload(m, packet, metaInt) == Payload(packet, TakenFor(m, metaInt))
  {
  }

  /** Where get_metadata ends up: at the place in the stream if the packet fits, and with a counter too large otherwise. */
  lemma CodeNextFits(m: Machine, packet: seq<byte>, search: Mode, metaInt: nat)
    requires InRange(m, metaInt) && m.counter + |packet| > metaInt && search != MODE1
    ensures var p, next := TakenFor(m, metaInt), CodeNext(m, packet, search, metaInt);
      if Fits(packet, p, metaInt) then
        && InRange(next, metaInt) && TakenFor(next, metaInt) == After(packet, p, metaInt)
        && (!next.mode.MODE1? ==> next.counter == metaInt) && Payload(packet, p).Put?
      else Payload(packet, p).Put? ==> next.mode.MODE1? && next.counter > metaInt
  {
    if Fits(packet, TakenFor(m, metaInt), metaInt) {
      AfterAPacket(packet, TakenFor(m, metaInt), metaInt);
    }
    hide After;
  }

  /** All that is put for the packets; Never if a wait never ends, or the counter runs past a length byte. */
  function CodeOutput(m: Machine, packets: seq<seq<byte>>, search: Mode, metaInt: nat): Outcome
    decreases |packets|
  {
    if !InRange(m, metaInt) then Never
    else if packets == [] then Put([])
    else
      var first, rest := CodePayload(m, packets[0], metaInt), CodeOutput(CodeNext(m, packets[0], search, metaInt), packets[1..], search, metaInt);
      if first.Put? && rest.Put? then Put(first.bytes + rest.bytes) else Never
  }

  /**
    metadata, metaInt, dataCounter, state and leftMetaData are the program's variables; output is all
    that RAM_bufput was given. The search for the title, which chooses between MODE2, MODE3 and MODE4,
    is a parameter of the methods.
   */
  class Demultiplexer {
    const metadata: bool
    const metaInt: nat
    var state: Mode
    var leftMetaData: nat
    var dataCounter: int
    var output: seq<byte>
    const firstPut: seq<byte>          // what was put for the packet with the end of the header
    const firstLength: nat             // how much audio that packet held
    ghost var received: seq<byte>      // the packets since

    function Position(): Phase
      reads `state, `leftMetaData, `dataCounter
      requires state.MODE1? ==> dataCounter <= metaInt
    {
      if state.MODE1? then Audio(metaInt - dataCounter) else Meta(leftMetaData)
    }

    /** Behind the first packet, as long as it held at most one interval. */
    ghost function Start(): Phase {
      Audio(if firstLength <= metaInt then metaInt - firstLength else 0)
    }

    function Now(): Machine
      reads `state, `leftMetaData, `dataCounter
    {
      Machine(state, leftMetaData, dataCounter)
    }

    ghost predicate Settled()
      reads `state, `leftMetaData, `dataCounter
    {
      0 <= dataCounter <= metaInt && (!state.MODE1? ==> leftMetaData > 0 && dataCounter == metaInt)
    }

    ghost predicate Valid()
      reads this
    {
      if !metadata then output == firstPut + received
      else
        && Settled() && firstLength <= metaInt
        && Position() == After(received, Start(), metaInt)
        && output == firstPut + Clean(received, Start(), metaInt)
    }

    /**
      The packet with the end of the HTTP header. The data behind the header counts, but as many bytes
      from the start of the packet are put. The mode, and what was left of a metadata block, are still
      those of the connection before.
     */
    constructor (packet: seq<byte>, headerLength: nat, metadata: bool, metaInt: nat, state: Mode, leftMetaData: nat)
      requires headerLength <= |packet|
      ensures this.metadata == metadata && this.metaInt == metaInt && firstLength == |packet| - headerLength
      ensures firstPut == output == packet[..|packet| - headerLength] && received == []
      ensures Now() == Machine(state, leftMetaData, |packet| - headerLength)
      ensures Valid() <==> !metadata || (|packet| - headerLength <= metaInt && state == MODE1)
    {
      this.metadata, this.metaInt := metadata, metaInt;
      this.state, this.leftMetaData := state, leftMetaData;
      dataCounter := |packet| - headerLength;
      firstLength := |packet| - headerLength;
      firstPut := packet[..|packet| - headerLength];
      output := packet[..|packet| - headerLength];
      received := [];
    }

    /** RAM_bufput */
    method BufPut(bytes: seq<byte>)
      modifies `output
      ensures output == old(output) + bytes
    {
      output := output + bytes;
    }

    /**
      get_metadata, for a packet that is already counted. It returns false if it waits for room for a
      negative number of bytes, taken for a positive one: that wait never ends.
     */
    method GetMetadata(packet: seq<byte>, search: Mode) returns (ends: bool)
      requires search != MODE1 && dataCounter > metaInt && packet != []
      requires state.MODE1? ==> 0 <= dataCounter - |packet| <= metaInt
      requires !state.MODE1? ==> leftMetaData > 0 && 0 <= dataCounter - |packet| <= metaInt
      modifies `state, `leftMetaData, `dataCounter, `output
      ensures var p := if old(state).MODE1? then Audio(metaInt - (old(dataCounter) - |packet|)) else Meta(old(leftMetaData));
        && ends == Payload(packet, p).Put?
        && (ends ==> output == old(output) + Payload(packet, p).bytes)
        && (ends && !Fits(packet, p, metaInt) ==> state.MODE1? && dataCounter > metaInt)
        && (Fits(packet, p, metaInt) ==> Settled() && Position() == After(packet, p, metaInt))
      ensures ends ==> Now() == CodeNext(old(Now()).(counter := old(dataCounter) - |packet|), packet, search, metaInt)
    {
      CodeNextFits(Machine(state, leftMetaData, dataCounter - |packet|), packet, search, metaInt);
      hide After, MetaLength, Fits;
      ends := true;
      match state {
        case MODE1 =>
          var metaDataPos := |packet| - (dataCounter - metaInt);
          var metaDataLen := MetaLength(packet[metaDataPos]);
          if metaDataLen > 0 && |packet| - metaDataPos - 1 < metaDataLen {
            leftMetaData := metaDataLen - (|packet| - metaDataPos - 1);
            state := search;
            BufPut(packet[..metaDataPos]);
            dataCounter := metaInt;
          } else {
            dataCounter := dataCounter - metaInt - metaDataLen - 1;
            BufPut(packet[..metaDataPos]);
            BufPut(packet[metaDataPos + metaDataLen + 1..]);
          }
        case _ =>
          if |packet| < leftMetaData {
            ends := false;
          } else {
            BufPut(packet[leftMetaData..]);
            dataCounter := |packet| - leftMetaData;
            state := MODE1;
          }
      }
    }

    /**
      One packet in the receive loop. It is passed on rightly exactly if it fits, and then the next
      one may come; otherwise what has been put is not the clean stream, or the wait never ends.
     */
    method Receive(packet: seq<byte>, search: Mode) returns (ends: bool)
      requires search != MODE1 && (metadata ==> InRange(Now(), metaInt))
      modifies this
      ensures received == old(received) + packet
      ensures metadata ==>
        && ends == old(CodePayload(Now(), packet, metaInt)).Put?
        && (ends ==> output == old(output) + old(CodePayload(Now(), packet, metaInt)).bytes && Now() == old(CodeNext(Now(), packet, search, metaInt)))
      ensures metadata && old(Valid()) && old(Fits(packet, Position(), metaInt)) ==>
        Settled() && Position() == After(packet, old(Position()), metaInt)
      ensures metadata && old(Valid()) && !old(Fits(packet, Position(), metaInt)) ==>
        !ends || output != firstPut + Clean(received, Start(), metaInt)
      ensures old(Valid()) && (!metadata || old(Fits(packet, Position(), metaInt))) ==> ends && Valid()
    {
      hide After, Clean, Fits, Payload;
      if metadata && Valid() {
        OnePacketMore(firstPut, received, packet, Start(), Position(), metaInt);
        if dataCounter + |packet| <= metaInt {
          FewBytesFit(packet, Position(), metaInt);
        }
      }
      ends := true;
      received := received + packet;
      if metadata {
        dataCounter := dataCounter + |packet|;
        if dataCounter > metaInt {
          ends := GetMetadata(packet, search);
        } else {
          BufPut(packet);
        }
      } else {
        BufPut(packet);
      }
    }

    /**
      The receive loop, up to the first packet that does not fit, if any: n packets do. What has been put is
      the clean stream exactly if all fit; and the loop ends unless that packet is too short for the
      metadata it continues. search is what looking for a title comes to.
     */
    method ReceiveAll(packets: seq<seq<byte>>, search: Mode) returns (n: nat, ends: bool)
      requires Valid() && metadata && search != MODE1
      modifies this
      ensures n <= |packets| && AllFit(packets[..n], old(Position()), metaInt)
      ensures n == |packets| <==> old(AllFit(packets, Position(), metaInt))
      ensures n == |packets| ==> Valid() && received == old(received) + Flatten(packets)
      ensures n == |packets| <==> ends && output == firstPut + Clean(received, Start(), metaInt)
      ensures n < |packets| ==>
        var p := After(Flatten(packets[..n]), old(Position()), metaInt);
        && !Fits(packets[n], p, metaInt) && (ends <==> Payload(packets[n], p).Put?)
        && (ends ==> output == old(output) + Clean(Flatten(packets[..n]), old(Position()), metaInt) + Payload(packets[n], p).bytes)
    {
      hide Clean, After, Fits, Payload;
      ghost var start := Position();
      n, ends := 0, true;
      NoPackets(start, metaInt);
      while n < |packets|
        invariant n <= |packets| && ends && Valid() && AllFit(packets[..n], start, metaInt)
        invariant received == old(received) + Flatten(packets[..n]) && Position() == After(Flatten(packets[..n]), start, metaInt)
        invariant output == old(output) + Clean(Flatten(packets[..n]), start, metaInt)
        decreases |packets| - n
      {
        assert packets[..n + 1][..n] == packets[..n];
        OneMorePacket(packets[..n + 1], start, metaInt);
        CleanInPieces(Flatten(packets[..n]), packets[n], start, metaInt);
        PayloadIsExact(packets[n], Position(), metaInt);
        var fits := Fits(packets[n], Position(), metaInt);
        PayloadByCode(Now(), packets[n], metaInt);
        ends := Receive(packets[n], search);
        if !fits {
          FirstThatDoesNotFit(packets, n, start, metaInt);
          return;
        }
        n := n + 1;
      }
      assert packets[..|packets|] == packets;
    }
  }

  // ----- the first packet

  /**
    The data behind the header is passed on rightly, whatever it is, only if there is none: otherwise the
    first bytes put are those of the header.
   */
  lemma FirstPacketIsMisplaced(header: seq<byte>, length: nat)
    requires header != []
    ensures (forall data: seq<byte> :: |data| == length ==> (header + data)[..length] == data) <==> length == 0
  {
    if length > 0 {
      var other: byte := if header[0] == 0 then 1 else 0;
      var data := seq(length, i => other);
      assert (header + data)[..length][0] == header[0] != data[0];
    }
  }

  // ----- connecting again

  /** The program is where the stream is. */
  predicate Follows(m: Machine, p: Phase, metaInt: nat) {
    InRange(m, metaInt) && p == TakenFor(m, metaInt) && (!m.mode.MODE1? ==> m.counter == metaInt)
  }

  lemma FollowsOn(m: Machine, p: Phase, packet: seq<byte>, search: Mode, metaInt: nat)
    requires Follows(m, p, metaInt) && Fits(packet, p, metaInt) && search != MODE1
    ensures CodePayload(m, packet, metaInt) == Put(Clean(packet, p, metaInt))
    ensures Follows(CodeNext(m, packet, search, metaInt), After(packet, p, metaInt), metaInt)
  {
    PayloadIsExact(packet, p, metaInt);
    AfterAPacket(packet, p, metaInt);
    hide Clean, After;
  }

  lemma {:induction false} FollowsThrough(m: Machine, p: Phase, packets: seq<seq<byte>>, search: Mode, metaInt: nat)
    requires Follows(m, p, metaInt) && AllFit(packets, p, metaInt) && search != MODE1
    ensures CodeOutput(m, packets, search, metaInt) == Put(Clean(Flatten(packets), p, metaInt))
    decreases |packets|
  {
    if packets != [] {
      hide Clean, After, CodeNext, CodePayload, Fits;
      FollowsOn(m, p, packets[0], search, metaInt);
      FollowsThrough(CodeNext(m, packets[0], search, metaInt), After(packets[0], p, metaInt), packets[1..], search, metaInt);
      CleanInPieces(packets[0], Flatten(packets[1..]), p, metaInt);
    }
  }

  /** A run of zeros up to the next length byte, and then a block that the length left over does not match. */
  function Spoiler(left: nat, gap: nat): seq<seq<byte>> {
    [seq(gap, i => 0), if left == 1 then [1] + seq(16, i => 0) else [0]]
  }

  lemma SpoilerFits(left: nat, gap: nat, metaInt: nat)
    requires gap <= metaInt
    ensures AllFit(Spoiler(left, gap), Audio(gap), metaInt)
  {
    var packets := Spoiler(left, gap);
    assert After(packets[0], Audio(gap), metaInt) == Audio(0);
    assert packets[1..] == [packets[1]] && [packets[1]][1..] == [];
  }

  lemma OutputForTwo(m: Machine, packets: seq<seq<byte>>, search: Mode, metaInt: nat)
    requires |packets| == 2 && InRange(m, metaInt) && InRange(CodeNext(m, packets[0], search, metaInt), metaInt)
    ensures var m1 := CodeNext(m, packets[0], search, metaInt);
      var first, second, out := CodePayload(m, packets[0], metaInt), CodePayload(m1, packets[1], metaInt), CodeOutput(m, packets, search, metaInt);
      out == Never || (first.Put? && second.Put? && out == Put(first.bytes + second.bytes))
  {
    hide CodePayload, CodeNext, InRange;
    var m1 := CodeNext(m, packets[0], search, metaInt);
    assert packets[1..] == [packets[1]] && packets[1..][1..] == [];
    assert CodeOutput(CodeNext(m1, packets[1], search, metaInt), [], search, metaInt) in {Never, Put([])};
  }

  lemma SpoilerSpoils(m: Machine, search: Mode, metaInt: nat)
    requires InRange(m, metaInt) && !m.mode.MODE1? && search != MODE1
    ensures var packets := Spoiler(m.left, metaInt - m.counter);
      CodeOutput(m, packets, search, metaInt) != Put(Clean(Flatten(packets), Audio(metaInt - m.counter), metaInt))
  {
    hide Clean, Flatten, CodeOutput;
    var gap := metaInt - m.counter;
    var packets := Spoiler(m.left, gap);
    OutputForTwo(m, packets, search, metaInt);
    if m.left == 1 {
      SpoilerIsShort(gap, metaInt);
    }
  }

  /** What is to be heard of the spoiler is its first packet at most. */
  lemma SpoilerIsShort(gap: nat, metaInt: nat)
    requires gap <= metaInt
    ensures |Clean(Flatten(Spoiler(1, gap)), Audio(gap), metaInt)| <= gap
  {
    var packets := Spoiler(1, gap);
    SpoilerFits(1, gap, metaInt);
    DeliveredIsClean(packets, Audio(gap), metaInt);
    assert After(packets[0], Audio(gap), metaInt) == Audio(0);
    assert packets[1..] == [packets[1]];
    assert Payload(packets[1], Audio(0)) == Put([]);
    assert Delivered(packets[1..], Audio(0), metaInt) == [];
  }

  /**
    A connection is entered with the mode that the one before left. Its output is the clean stream, for every
    stream in packets that fit, exactly if that mode is MODE1.
   */
  lemma ConnectionsMustStartInMode1(m: Machine, search: Mode, metaInt: nat)
    requires InRange(m, metaInt) && search != MODE1
    ensures (forall packets :: AllFit(packets, Audio(metaInt - m.counter), metaInt) ==>
               CodeOutput(m, packets, search, metaInt) == Put(Clean(Flatten(packets), Audio(metaInt - m.counter), metaInt)))
            <==> m.mode == MODE1
  {
    var p := Audio(metaInt - m.counter);
    if m.mode == MODE1 {
      forall packets | AllFit(packets, p, metaInt)
        ensures CodeOutput(m, packets, search, metaInt) == Put(Clean(Flatten(packets), p, metaInt))
      {
        FollowsThrough(m, p, packets, search, metaInt);
      }
    } else {
      SpoilerFits(m.left, metaInt - m.counter, metaInt);
      SpoilerSpoils(m, search, metaInt);
    }
  }

  /** One connection ends two bytes into its metadata, and the next one comes to wait for ever for its second packet. */
  lemma ReconnectInsideMetadata()
    ensures CodeNext(Machine(MODE1, 0, 0), [1, 2, 3, 4, 2, 65, 66], MODE4, 4) == Machine(MODE4, 30, 4)
    ensures CodeOutput(Machine(MODE4, 30, 0), [[9, 9, 9, 9], [0]], MODE4, 4) == Never
    ensures Clean(Flatten([[9, 9, 9, 9], [0]]), Audio(4), 4) == [9, 9, 9, 9]
  {
    var packets: seq<seq<byte>> := [[9, 9, 9, 9], [0]];
    assert packets[1..] == [[0]];
    var m1 := CodeNext(Machine(MODE4, 30, 0), packets[0], MODE4, 4);
    assert CodeOutput(m1, [[0]], MODE4, 4) == Never;
    assert Flatten(packets) == [9, 9, 9, 9, 0] by {
      assert Flatten([[0]]) == [0];
    }
    var whole: seq<byte> := [9, 9, 9, 9, 0];
    assert whole[..4] == [9, 9, 9, 9] && whole[5..] == [];
    assert Clean([], Meta(0), 4) == [];
  }

  // ----- packets that do not fit, for example

  /** Two length bytes in one packet: the second one is put as if it were audio. */
  lemma TwoLengthBytesSpoilThePacket()
    ensures !Fits([5, 0, 6, 7, 0], Audio(1), 2)
    ensures Payload([5, 0, 6, 7, 0], Audio(1)) == Put([5, 6, 7, 0]) && Clean([5, 0, 6, 7, 0], Audio(1), 2) == [5, 6, 7]
  {
    var packet: seq<byte> := [5, 0, 6, 7, 0];
    var rest: seq<byte> := [6, 7, 0];
    assert packet[..1] == [5] && packet[2..] == rest;
    assert rest[..2] == [6, 7] && rest[3..] == [];
    assert Clean(rest, Audio(2), 2) == [6, 7];
    assert Clean(rest, Meta(0), 2) == [6, 7] by {
      assert rest[0..] == rest;
    }
  }

  /** A packet that ends inside metadata that was cut before: the wait for room never ends. */
  lemma ShortPacketIsWaitedForInVain()
    ensures !Fits([65, 66], Meta(3), 100) && Payload([65, 66], Meta(3)) == Never
  {
  }
}
