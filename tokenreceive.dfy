/** The hash-stable serialisation of TokenReceive and TokenReceiveHeader
    (package types of the block producer, generated by HashStablePack). Fields
    are written in a fixed order with no keys: a one-byte marker twice as the
    map header, then every field value, each one after the first preceded by
    the marker again. A nested field that fails to marshal aborts the whole
    encoding with its error. Msgsize is a closed-form size estimate. */
module TokenReceiveHash {
  import opened Wrappers

  /** The largest MessagePack bin header: one type byte and a 32-bit length. */
  const MaxBinHeader: nat := 5

  /** The map marker of TokenReceive (a MessagePack fixmap of 4 entries). */
  const TokenReceiveMarker: byte := 0x84

  /** The map marker of TokenReceiveHeader (a MessagePack fixmap of 5 entries). */
  const HeaderMarker: byte := 0x85

  type BinHeader = s: seq<byte> | |s| <= MaxBinHeader

  /** The helpers of the marshalhash package, left uninterpreted: the header
      AppendBytes writes before a byte string of a given length, the bytes
      AppendNil writes, and NilSize. */
  datatype Hsp = Hsp(binHeader: nat -> BinHeader, nilEncoding: seq<byte>, nilSize: int)


  /** hsp.AppendNil. */
  function AppendNil(h: Hsp, o: seq<byte>): seq<byte>
  {
    o + h.nilEncoding
  }

  /** An error reported by a nested field's MarshalHash. */
  datatype Error = MarshalError(reason: string)

  /** A value of a nested field type, seen through what its own MarshalHash
      and Msgsize return; those types are not part of this model. */
  datatype Nested = Nested(marshalHash: Result<seq<byte>, Error>, msgsize: int)

  datatype TokenReceiveHeader = TokenReceiveHeader(
    tokenType: Nested, amount: Nested, nonce: Nested, observer: Nested, receiver: Nested)

  /** Signee and Signature are pointers and may be nil. */
  datatype TokenReceive = TokenReceive(
    signee: Option<Nested>, signature: Option<Nested>, header: TokenReceiveHeader, headerHash: Nested)

  /** What one field appends to the output, or the error that aborts it. */
  type Entry = Result<seq<byte>, Error>

  /** What AppendBytes adds for the byte string b. */
  function Field(h: Hsp, b: seq<byte>): seq<byte>
  {
    h.binHeader(|b|) + b
  }

  /** hsp.AppendBytes: a bin header for the length, then the bytes themselves. */
  function AppendBytes(h: Hsp, o: seq<byte>, b: seq<byte>): seq<byte>
  {
    o + Field(h, b)
  }

  /** The entry of a field whose own MarshalHash returned r. */
  function Embed(h: Hsp, r: Result<seq<byte>, Error>): Entry
  {
    match r
    case Failure(e) => Failure(e)
    case Success(b) => Success(Field(h, b))
  }

  /** The entry of a pointer field: nil is written with the nil marker. */
  function OptionalEntry(h: Hsp, n: Option<Nested>): Entry
  {
    match n
    case None => Success(h.nilEncoding)
    case Some(v) => Embed(h, v.marshalHash)
  }

  /** The encoding as the generated code builds it: acc is the output so far
      and the entries from index i on are appended in order, every one but the
      first preceded by the marker; the first failing entry decides the result. */
  function Encode(marker: byte, acc: seq<byte>, entries: seq<Entry>, i: nat): Result<seq<byte>, Error>
    requires i <= |entries|
    decreases |entries| - i
  {
    if i == |entries| then Success(acc)
    else match entries[i]
      case Failure(e) => Failure(e)
      case Success(bytes) => Encode(marker, (if i == 0 then acc else acc + [marker]) + bytes, entries, i + 1)
  }

  /** The whole encoding: the marker twice as the map header, then the entries. */
  function MapEncoding(marker: byte, entries: seq<Entry>): Result<seq<byte>, Error>
  {
    Encode(marker, [marker, marker], entries, 0)
  }

  /** The total length of the entries from index i on, when they succeed. */
  function EntriesLength(entries: seq<Entry>, i: nat): int
    requires i <= |entries|
    decreases |entries| - i
  {
    if i == |entries| then 0
    else (if entries[i].Success? then |entries[i].value| else 0) + EntriesLength(entries, i + 1)
  }

  /** The encoding succeeds exactly when every remaining entry does, and then
      it adds one marker per entry after the first plus the entries' bytes. */
  lemma {:induction false} EncodeSucceeds(marker: byte, acc: seq<byte>, entries: seq<Entry>, i: nat)
    requires i <= |entries|
    ensures Encode(marker, acc, entries, i).Success? <==> forall j :: i <= j < |entries| ==> entries[j].Success?
    ensures Encode(marker, acc, entries, i).Success? ==>
      |Encode(marker, acc, entries, i).value|
        == |acc| + (|entries| - i) - (if i == 0 && |entries| > 0 then 1 else 0) + EntriesLength(entries, i)
    decreases |entries| - i
  {
    if i < |entries| && entries[i].Success? {
      EncodeSucceeds(marker, (if i == 0 then acc else acc + [marker]) + entries[i].value, entries, i + 1);
    }
  }

  /** Error short-circuiting: when entry k is the first that fails, the
      encoding fails with exactly its error, whatever came before. */
  lemma {:induction false} EncodeFirstError(marker: byte, acc: seq<byte>, entries: seq<Entry>, i: nat, k: nat)
    requires i <= k < |entries| && entries[k].Failure?
    requires forall j :: i <= j < k ==> entries[j].Success?
    ensures Encode(marker, acc, entries, i) == Failure(entries[k].error)
    decreases k - i
  {
    if i < k {
      EncodeFirstError(marker, (if i == 0 then acc else acc + [marker]) + entries[i].value, entries, i + 1, k);
    }
  }

  /** The fields of TokenReceiveHeader in encoding order. */
  function HeaderEntries(h: Hsp, z: TokenReceiveHeader): seq<Entry>
  {
    [Embed(h, z.tokenType.marshalHash), Embed(h, z.amount.marshalHash), Embed(h, z.nonce.marshalHash),
     Embed(h, z.observer.marshalHash), Embed(h, z.receiver.marshalHash)]
  }

  function HeaderEncoding(h: Hsp, z: TokenReceiveHeader): Result<seq<byte>, Error>
  {
    MapEncoding(HeaderMarker, HeaderEntries(h, z))
  }

  /** The fields of TokenReceive in encoding order; the header is embedded
      through its own encoding. */
  function TokenReceiveEntries(h: Hsp, z: TokenReceive): seq<Entry>
  {
    [OptionalEntry(h, z.signee), OptionalEntry(h, z.signature),
     Embed(h, HeaderEncoding(h, z.header)), Embed(h, z.headerHash.marshalHash)]
  }

  function TokenReceiveEncoding(h: Hsp, z: TokenReceive): Result<seq<byte>, Error>
  {
    MapEncoding(TokenReceiveMarker, TokenReceiveEntries(h, z))
  }

  /** TokenReceiveHeader.MarshalHash: the header bytes, then each field's
      MarshalHash appended as a byte string, with a marker between fields; the
      first field error returns nil output and that error. */
  method HeaderMarshalHash(h: Hsp, z: TokenReceiveHeader) returns (o: seq<byte>, err: Option<Error>)
    ensures err.None? ==> HeaderEncoding(h, z) == Success(o)
    ensures err.Some? ==> o == [] && HeaderEncoding(h, z) == Failure(err.value)
    ensures err.None? <==>
      && z.tokenType.marshalHash.Success? && z.amount.marshalHash.Success? && z.nonce.marshalHash.Success?
      && z.observer.marshalHash.Success? && z.receiver.marshalHash.Success?
    ensures err.None? ==>
      o == [HeaderMarker, HeaderMarker] + Field(h, z.tokenType.marshalHash.value)
           + [HeaderMarker] + Field(h, z.amount.marshalHash.value)
           + [HeaderMarker] + Field(h, z.nonce.marshalHash.value)
           + [HeaderMarker] + Field(h, z.observer.marshalHash.value)
           + [HeaderMarker] + Field(h, z.receiver.marshalHash.value)
  {
    ghost var entries := HeaderEntries(h, z);
    ghost var acc: seq<byte>;
    // hsp.Require only reserves capacity: the buffer starts empty, and the
    // map header is the first thing appended.
    o := [HeaderMarker, HeaderMarker];
    if z.tokenType.marshalHash.Failure? {
      EncodeFirstError(HeaderMarker, o, entries, 0, 0);
      return [], Some(z.tokenType.marshalHash.error);
    }
    o := AppendBytes(h, o, z.tokenType.marshalHash.value);
    assert MapEncoding(HeaderMarker, entries) == Encode(HeaderMarker, o, entries, 1);
    acc := o;
    o := o + [HeaderMarker];
    if z.amount.marshalHash.Failure? {
      EncodeFirstError(HeaderMarker, acc, entries, 1, 1);
      return [], Some(z.amount.marshalHash.error);
    }
    o := AppendBytes(h, o, z.amount.marshalHash.value);
    assert MapEncoding(HeaderMarker, entries) == Encode(HeaderMarker, o, entries, 2);
    acc := o;
    o := o + [HeaderMarker];
    if z.nonce.marshalHash.Failure? {
      EncodeFirstError(HeaderMarker, acc, entries, 2, 2);
      return [], Some(z.nonce.marshalHash.error);
    }
    o := AppendBytes(h, o, z.nonce.marshalHash.value);
    assert MapEncoding(HeaderMarker, entries) == Encode(HeaderMarker, o, entries, 3);
    acc := o;
    o := o + [HeaderMarker];
    if z.observer.marshalHash.Failure? {
      EncodeFirstError(HeaderMarker, acc, entries, 3, 3);
      return [], Some(z.observer.marshalHash.error);
    }
    o := AppendBytes(h, o, z.observer.marshalHash.value);
    assert MapEncoding(HeaderMarker, entries) == Encode(HeaderMarker, o, entries, 4);
    acc := o;
    o := o + [HeaderMarker];
    if z.receiver.marshalHash.Failure? {
      EncodeFirstError(HeaderMarker, acc, entries, 4, 4);
      return [], Some(z.receiver.marshalHash.error);
    }
    o := AppendBytes(h, o, z.receiver.marshalHash.value);
    assert MapEncoding(HeaderMarker, entries) == Encode(HeaderMarker, o, entries, 5);
    err := None;
  }
  /** TokenReceive.MarshalHash: the same scheme with marker 0x84 over Signee,
      Signature, the embedded header and HeaderHash; a nil Signee or Signature
      is written with the nil marker and never causes an error. */
  method MarshalHash(h: Hsp, z: TokenReceive) returns (o: seq<byte>, err: Option<Error>)
    ensures err.None? ==> TokenReceiveEncoding(h, z) == Success(o)
    ensures err.Some? ==> o == [] && TokenReceiveEncoding(h, z) == Failure(err.value)
    ensures err.None? <==>
      && (z.signee.None? || z.signee.value.marshalHash.Success?)
      && (z.signature.None? || z.signature.value.marshalHash.Success?)
      && HeaderEncoding(h, z.header).Success?
      && z.headerHash.marshalHash.Success?
    ensures err.None? ==>
      o == [TokenReceiveMarker, TokenReceiveMarker] + OptionalEntry(h, z.signee).value
           + [TokenReceiveMarker] + OptionalEntry(h, z.signature).value
           + [TokenReceiveMarker] + Field(h, HeaderEncoding(h, z.header).value)
           + [TokenReceiveMarker] + Field(h, z.headerHash.marshalHash.value)
  {
    ghost var entries := TokenReceiveEntries(h, z);
    ghost var acc: seq<byte>;
    // hsp.Require only reserves capacity, as in HeaderMarshalHash.
    o := [TokenReceiveMarker, TokenReceiveMarker];
    if z.signee.None? {
      o := AppendNil(h, o);
    } else {
      if z.signee.value.marshalHash.Failure? {
        EncodeFirstError(TokenReceiveMarker, o, entries, 0, 0);
        return [], Some(z.signee.value.marshalHash.error);
      }
      o := AppendBytes(h, o, z.signee.value.marshalHash.value);
    }
    assert MapEncoding(TokenReceiveMarker, entries) == Encode(TokenReceiveMarker, o, entries, 1);
    acc := o;
    o := o + [TokenReceiveMarker];
    if z.signature.None? {
      o := AppendNil(h, o);
    } else {
      if z.signature.value.marshalHash.Failure? {
        EncodeFirstError(TokenReceiveMarker, acc, entries, 1, 1);
        return [], Some(z.signature.value.marshalHash.error);
      }
      o := AppendBytes(h, o, z.signature.value.marshalHash.value);
    }
    assert MapEncoding(TokenReceiveMarker, entries) == Encode(TokenReceiveMarker, o, entries, 2);
    acc := o;
    o := o + [TokenReceiveMarker];
    var headerBytes, headerErr := HeaderMarshalHash(h, z.header);
    if headerErr.Some? {
      EncodeFirstError(TokenReceiveMarker, acc, entries, 2, 2);
      return [], headerErr;
    }
    o := AppendBytes(h, o, headerBytes);
    assert MapEncoding(TokenReceiveMarker, entries) == Encode(TokenReceiveMarker, o, entries, 3);
    acc := o;
    o := o + [TokenReceiveMarker];
    if z.headerHash.marshalHash.Failure? {
      EncodeFirstError(TokenReceiveMarker, acc, entries, 3, 3);
      return [], Some(z.headerHash.marshalHash.error);
    }
    o := AppendBytes(h, o, z.headerHash.marshalHash.value);
    assert MapEncoding(TokenReceiveMarker, entries) == Encode(TokenReceiveMarker, o, entries, 4);
    err := None;
  }

  /** TokenReceiveHeader.Msgsize, as the generated expression computes it. */
  function HeaderMsgsize(z: TokenReceiveHeader): int
  {
    1 + 5 + z.tokenType.msgsize + 7 + z.amount.msgsize + 6 + z.nonce.msgsize
      + 9 + z.observer.msgsize + 9 + z.receiver.msgsize
  }

  /** The size estimate of a pointer field: NilSize when it is nil. */
  function OptionalMsgsize(h: Hsp, n: Option<Nested>): int
  {
    match n
    case None => h.nilSize
    case Some(v) => v.msgsize
  }

  /** The closed form of TokenReceive.Msgsize: 48 bytes of fixed overhead plus
      the estimates of the four fields. */
  function TokenReceiveMsgsize(h: Hsp, z: TokenReceive): int
  {
    48 + OptionalMsgsize(h, z.signee) + OptionalMsgsize(h, z.signature)
      + HeaderMsgsize(z.header) + z.headerHash.msgsize
  }

  /** TokenReceive.Msgsize: accumulates the estimate field by field. */
  method Msgsize(h: Hsp, z: TokenReceive) returns (s: int)
    ensures s == TokenReceiveMsgsize(h, z)
  {
    s := 1 + 7;
    if z.signee.None? {
      s := s + h.nilSize;
    } else {
      s := s + z.signee.value.msgsize;
    }
    s := s + 10;
    if z.signature.None? {
      s := s + h.nilSize;
    } else {
      s := s + z.signature.value.msgsize;
    }
    s := s + 19 + HeaderMsgsize(z.header) + 11 + z.headerHash.msgsize;
  }

  /** A nested value keeps its own Msgsize promise. */
  ghost predicate Fits(n: Nested)
  {
    n.marshalHash.Success? ==> |n.marshalHash.value| <= n.msgsize
  }

  /** Msgsize is an upper bound on the length of what MarshalHash produces for
      a header, provided each field's Msgsize bounds its own encoding. */
  lemma HeaderWithinMsgsize(h: Hsp, z: TokenReceiveHeader)
    requires Fits(z.tokenType) && Fits(z.amount) && Fits(z.nonce) && Fits(z.observer) && Fits(z.receiver)
    ensures HeaderEncoding(h, z).Success? ==> |HeaderEncoding(h, z).value| <= HeaderMsgsize(z)
  {
    var entries := HeaderEntries(h, z);
    EncodeSucceeds(HeaderMarker, [HeaderMarker, HeaderMarker], entries, 0);
    if HeaderEncoding(h, z).Success? {
      var sizes := [z.tokenType.msgsize, z.amount.msgsize, z.nonce.msgsize, z.observer.msgsize, z.receiver.msgsize];
      forall j | 0 <= j < 5
        ensures entries[j].Success? && |entries[j].value| <= MaxBinHeader + sizes[j]
      {
      }
      assert EntriesLength(entries, 4) <= MaxBinHeader + sizes[4];
      assert EntriesLength(entries, 3) <= 2 * MaxBinHeader + sizes[3] + sizes[4];
      assert EntriesLength(entries, 2) <= 3 * MaxBinHeader + sizes[2] + sizes[3] + sizes[4];
      assert EntriesLength(entries, 1) <= 4 * MaxBinHeader + sizes[1] + sizes[2] + sizes[3] + sizes[4];
      assert EntriesLength(entries, 0) <= 5 * MaxBinHeader + sizes[0] + sizes[1] + sizes[2] + sizes[3] + sizes[4];
    }
  }

  /** Msgsize is an upper bound on the length of what MarshalHash produces for
      a TokenReceive, under the same assumption and a nil encoding within NilSize. */
  lemma TokenReceiveWithinMsgsize(h: Hsp, z: TokenReceive)
    requires z.signee.Some? ==> Fits(z.signee.value)
    requires z.signature.Some? ==> Fits(z.signature.value)
    requires Fits(z.header.tokenType) && Fits(z.header.amount) && Fits(z.header.nonce)
    requires Fits(z.header.observer) && Fits(z.header.receiver)
    requires Fits(z.headerHash)
    requires |h.nilEncoding| <= h.nilSize
    ensures TokenReceiveEncoding(h, z).Success? ==> |TokenReceiveEncoding(h, z).value| <= TokenReceiveMsgsize(h, z)
  {
    HeaderWithinMsgsize(h, z.header);
    var entries := TokenReceiveEntries(h, z);
    EncodeSucceeds(TokenReceiveMarker, [TokenReceiveMarker, TokenReceiveMarker], entries, 0);
    if TokenReceiveEncoding(h, z).Success? {
      var sizes := [OptionalMsgsize(h, z.signee), OptionalMsgsize(h, z.signature),
                    HeaderMsgsize(z.header), z.headerHash.msgsize];
      forall j | 0 <= j < 4
        ensures entries[j].Success? && |entries[j].value| <= MaxBinHeader + sizes[j]
      {
      }
      assert EntriesLength(entries, 3) <= MaxBinHeader + sizes[3];
      assert EntriesLength(entries, 2) <= 2 * MaxBinHeader + sizes[2] + sizes[3];
      assert EntriesLength(entries, 1) <= 3 * MaxBinHeader + sizes[1] + sizes[2] + sizes[3];
      assert EntriesLength(entries, 0) <= 4 * MaxBinHeader + sizes[0] + sizes[1] + sizes[2] + sizes[3];
    }
  }
}
