/** The peer label carried by a Subscribe message under the identity and
    broadcast policies: a UTF-8 string followed by one terminator byte. */
module Label {
  import opened Tunnel
  import Utf8

  datatype Parsed = Label(user: string) | Rejected(error: Error)

  /** `std::str::from_utf8(&msg.data[0..msg.size as usize - 1])`: the payload
      without its last byte, decoded. A zero size or a size past the payload
      makes the slice panic; malformed UTF-8 is a `DecodeError`. */
  function PeerLabel(data: seq<byte>, size: nat): (r: Parsed)
    ensures r == Rejected(Panic) <==> size == 0 || size - 1 > |data|
    ensures r.Label? ==> Utf8.Encode(r.user) == data[..size - 1]
    ensures r == Rejected(DecodeError) <==> 1 <= size <= |data| + 1 && Utf8.Decode(data[..size - 1]).None?
    ensures r.Label? <==> 1 <= size <= |data| + 1 && Utf8.Decode(data[..size - 1]).Some?
  {
    if size == 0 || size - 1 > |data| then Rejected(Panic)
    else
      match Utf8.Decode(data[..size - 1])
      case None => Rejected(DecodeError)
      case Some(user) =>
        Utf8.EncodeDecode(data[..size - 1]);
        Label(user)
  }

  /** A payload made of an encoded label and a terminator yields that label. */
  lemma SubscribePayload(user: string, terminator: byte)
    ensures PeerLabel(Utf8.Encode(user) + [terminator], |Utf8.Encode(user)| + 1) == Label(user)
  {
    var bs := Utf8.Encode(user);
    assert (bs + [terminator])[..|bs|] == bs;
    Utf8.DecodeEncode(user);
  }

  /** The payload "alice" followed by a NUL byte yields the label "alice". */
  lemma AlicePayload()
    ensures PeerLabel([0x61, 0x6C, 0x69, 0x63, 0x65, 0x00], 6) == Label("alice")
  {
    Utf8.EncodeAscii("alice");
    var payload: seq<byte> := [0x61, 0x6C, 0x69, 0x63, 0x65, 0x00];
    assert payload == Utf8.Encode("alice") + [0x00];
    SubscribePayload("alice", 0x00);
  }
}
