/** Command frames: a four-byte header naming version, type and length, then fixed
    fields. Parsing accepts exactly the encodings of commands. */
module Wire {
  import opened Types
  import opened Bytes

  const PROTOCOL_VERSION: nat := 2
  const NEW_ORDER_TYPE: nat := 1
  const CANCEL_ORDER_TYPE: nat := 2
  const REPLACE_ORDER_TYPE: nat := 3
  const NEW_ORDER_LEN: nat := 46
  const CANCEL_ORDER_LEN: nat := 28
  const REPLACE_ORDER_LEN: nat := 44

  datatype ParseError =
    | TruncatedHeader | UnsupportedVersion | UnknownMessageType | InvalidLength | InvalidSide | InvalidTimeInForce

  function TifTag(t: TimeInForce): U8 {
    match t
    case Gtc => 1
    case Ioc => 2
    case Fok => 3
    case PostOnly => 4
  }

  function TifOf(tag: U8): Option<TimeInForce> {
    if tag == 1 then Some(Gtc) else if tag == 2 then Some(Ioc) else if tag == 3 then Some(Fok)
    else if tag == 4 then Some(PostOnly) else None
  }

  function Frame(kind: U8, length: U16, body: Octets): Octets {
    PutU8(PROTOCOL_VERSION, PutU8(kind, PutU16(length, body)))
  }

  function PutNew(o: NewOrder): Octets {
    PutU64(o.orderId, PutU32(o.accountId, PutU32(o.instrument, PutI64(o.price, PutU64(o.quantity, PutU64(o.sequence,
      PutSide(o.side, PutU8(TifTag(o.tif), []))))))))
  }

  function PutCancel(c: CancelOrder): Octets {
    PutU64(c.orderId, PutU32(c.accountId, PutU32(c.instrument, PutU64(c.sequence, []))))
  }

  function PutReplace(r: ReplaceOrder): Octets {
    PutU64(r.orderId, PutU32(r.accountId, PutU32(r.instrument, PutU64(r.sequence, PutI64(r.price, PutU64(r.quantity, []))))))
  }

  function EncodeCommand(c: Command): Octets {
    match c
    case New(o) => Frame(NEW_ORDER_TYPE, NEW_ORDER_LEN, PutNew(o))
    case Cancel(x) => Frame(CANCEL_ORDER_TYPE, CANCEL_ORDER_LEN, PutCancel(x))
    case Replace(r) => Frame(REPLACE_ORDER_TYPE, REPLACE_ORDER_LEN, PutReplace(r))
  }

  /** A new order's fields with its two tags unchecked. */
  function GetNew(b: Octets): Read<(NewOrder, U8, U8)> {
    var (orderId, b) :- GetU64(b);
    var (accountId, b) :- GetU32(b);
    var (instrument, b) :- GetU32(b);
    var (price, b) :- GetI64(b);
    var (quantity, b) :- GetU64(b);
    var (sequence, b) :- GetU64(b);
    var (side, b) :- GetU8(b);
    var (tif, b) :- GetU8(b);
    Ok(((NewOrder(orderId, accountId, instrument, price, quantity, sequence, if side == 1 then Buy else Sell,
                  if TifOf(tif).Some? then TifOf(tif).value else PostOnly), side, tif), b))
  }

  function GetCancel(b: Octets): Read<CancelOrder> {
    var (orderId, b) :- GetU64(b);
    var (accountId, b) :- GetU32(b);
    var (instrument, b) :- GetU32(b);
    var (sequence, b) :- GetU64(b);
    Ok((CancelOrder(orderId, accountId, instrument, sequence), b))
  }

  function GetReplace(b: Octets): Read<ReplaceOrder> {
    var (orderId, b) :- GetU64(b);
    var (accountId, b) :- GetU32(b);
    var (instrument, b) :- GetU32(b);
    var (sequence, b) :- GetU64(b);
    var (price, b) :- GetI64(b);
    var (quantity, b) :- GetU64(b);
    Ok((ReplaceOrder(orderId, accountId, instrument, sequence, price, quantity), b))
  }

  /** The body of a frame of the given type and declared length. */
  function ParseBody(kind: U8, declared: U16, body: Octets): Result<Command, ParseError> {
    if kind == NEW_ORDER_TYPE then
      if declared != NEW_ORDER_LEN || GetNew(body).Err? then Err(InvalidLength)
      else
        var (o, side, tif) := GetNew(body).value.0;
        if side != 1 && side != 2 then Err(ParseError.InvalidSide)
        else if TifOf(tif).None? then Err(InvalidTimeInForce)
        else Ok(New(o))
    else if kind == CANCEL_ORDER_TYPE then
      if declared != CANCEL_ORDER_LEN || GetCancel(body).Err? then Err(InvalidLength) else Ok(Cancel(GetCancel(body).value.0))
    else if kind == REPLACE_ORDER_TYPE then
      if declared != REPLACE_ORDER_LEN || GetReplace(body).Err? then Err(InvalidLength) else Ok(Replace(GetReplace(body).value.0))
    else Err(UnknownMessageType)
  }

  function Parse(b: Octets): Result<Command, ParseError> {
    match GetU8(b)
    case Err(_) => Err(TruncatedHeader)
    case Ok((version, b1)) =>
      match GetU8(b1)
      case Err(_) => Err(TruncatedHeader)
      case Ok((kind, b2)) =>
        match GetU16(b2)
        case Err(_) => Err(TruncatedHeader)
        case Ok((declared, body)) =>
          if version != PROTOCOL_VERSION then Err(UnsupportedVersion)
          else if |b| != declared then Err(InvalidLength)
          else ParseBody(kind, declared, body)
  }

  lemma {:induction false} PutSizes()
    ensures forall x, rest :: |PutU8(x, rest)| == 1 + |rest|
    ensures forall x, rest :: |PutU16(x, rest)| == 2 + |rest|
    ensures forall x, rest :: |PutU32(x, rest)| == 4 + |rest|
    ensures forall x, rest :: |PutU64(x, rest)| == 8 + |rest|
    ensures forall x, rest :: |PutI64(x, rest)| == 8 + |rest|
    ensures forall x, rest :: |PutSide(x, rest)| == 1 + |rest|
  {
  }

  /** A frame is exactly as long as it declares. */
  lemma {:induction false} FrameLength(c: Command)
    ensures |EncodeCommand(c)| == match c { case New(_) => NEW_ORDER_LEN case Cancel(_) => CANCEL_ORDER_LEN case Replace(_) => REPLACE_ORDER_LEN }
  {
    hide PutU8, PutU16, PutU32, PutU64, PutI64, PutSide;
    PutSizes();
  }

  lemma {:induction false} ReadNew(o: NewOrder)
    ensures GetNew(PutNew(o)) == Ok(((o, if o.side == Buy then 1 else 2, TifTag(o.tif)), []))
  {
    hide PutU8, PutU32, PutU64, PutI64, PutSide, GetU8, GetU32, GetU64, GetI64, TifTag, TifOf;
    SideIsTag(o.side, PutU8(TifTag(o.tif), []));
    UnsignedReads();
    SignedReads();
    TifTags(o.tif);
  }

  lemma {:induction false} TifTags(t: TimeInForce)
    ensures TifOf(TifTag(t)) == Some(t)
  {
  }

  lemma {:induction false} SideIsTag(side: Side, rest: Octets)
    ensures PutSide(side, rest) == PutU8(if side == Buy then 1 else 2, rest)
  {
  }

  lemma {:induction false} ReadCancel(c: CancelOrder)
    ensures GetCancel(PutCancel(c)) == Ok((c, []))
  {
    hide PutU32, PutU64, GetU32, GetU64;
    UnsignedReads();
  }

  lemma {:induction false} ReadReplace(r: ReplaceOrder)
    ensures GetReplace(PutReplace(r)) == Ok((r, []))
  {
    hide PutU32, PutU64, PutI64, GetU32, GetU64, GetI64;
    UnsignedReads();
    SignedReads();
  }

  /** Parsing an encoded command gives the command back. */
  lemma {:induction false} ParseEncode(c: Command)
    ensures Parse(EncodeCommand(c)) == Ok(c)
  {
    hide PutU8, PutU16, GetU8, GetU16, PutNew, GetNew, PutCancel, GetCancel, PutReplace, GetReplace;
    FrameLength(c);
    UnsignedReads();
    match c
    case New(o) => ReadNew(o);
    case Cancel(x) => ReadCancel(x);
    case Replace(r) => ReadReplace(r);
  }

  lemma {:induction false} GetSizes()
    ensures forall b :: GetU8(b).Ok? ==> |GetU8(b).value.1| == |b| - 1
    ensures forall b :: GetU16(b).Ok? ==> |GetU16(b).value.1| == |b| - 2
    ensures forall b :: GetU32(b).Ok? ==> |GetU32(b).value.1| == |b| - 4
    ensures forall b :: GetU64(b).Ok? ==> |GetU64(b).value.1| == |b| - 8
    ensures forall b :: GetI64(b).Ok? ==> |GetI64(b).value.1| == |b| - 8
  {
  }

  lemma {:induction false} WriteNew(b: Octets)
    requires GetNew(b).Ok? && |b| == NEW_ORDER_LEN - 4
    ensures var (o, side, tif) := GetNew(b).value.0;
            (side == 1 || side == 2) && TifOf(tif).Some? ==> PutNew(o) == b
  {
    hide PutU8, PutU32, PutU64, PutI64, PutSide, GetU8, GetU32, GetU64, GetI64;
    UnsignedWrites();
    SignedWrites();
    GetSizes();
    var (o, side, tif) := GetNew(b).value.0;
    SideIsTag(o.side, PutU8(TifTag(o.tif), []));
  }

  lemma {:induction false} WriteCancel(b: Octets)
    requires GetCancel(b).Ok? && |b| == CANCEL_ORDER_LEN - 4
    ensures PutCancel(GetCancel(b).value.0) == b
  {
    hide PutU32, PutU64, GetU32, GetU64;
    UnsignedWrites();
    GetSizes();
  }

  lemma {:induction false} WriteReplace(b: Octets)
    requires GetReplace(b).Ok? && |b| == REPLACE_ORDER_LEN - 4
    ensures PutReplace(GetReplace(b).value.0) == b
  {
    hide PutU32, PutU64, PutI64, GetU32, GetU64, GetI64;
    UnsignedWrites();
    SignedWrites();
    GetSizes();
  }

  /** Only encodings of commands parse. */
  lemma {:induction false} EncodeParse(b: Octets)
    requires Parse(b).Ok?
    ensures EncodeCommand(Parse(b).value) == b
  {
    hide PutU8, PutU16, GetU8, GetU16, PutNew, GetNew, PutCancel, GetCancel, PutReplace, GetReplace;
    UnsignedWrites();
    GetSizes();
    var (version, b1) := GetU8(b).value;
    var (kind, b2) := GetU8(b1).value;
    var (declared, body) := GetU16(b2).value;
    if kind == NEW_ORDER_TYPE {
      WriteNew(body);
    } else if kind == CANCEL_ORDER_TYPE {
      WriteCancel(body);
    } else {
      WriteReplace(body);
    }
  }
}
