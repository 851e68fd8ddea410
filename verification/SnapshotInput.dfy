/** The decoder as it runs: one cursor over the payload, advanced field by field. Each
    step is proved to read what the corresponding reader reads. */
module SnapshotInput {
  import opened Types
  import opened Bytes
  import opened RiskRestore
  import opened BookRestore
  import opened GatewayRestore
  import opened StateCodec
  import R = RiskSpec
  import BookSpec

  /** `r` and the bytes left are what `read` says. */
  predicate Agrees<T(==)>(r: Result<T, FieldError>, read: Read<T>, rest: Octets) {
    match read
    case Err(e) => r == Err(e)
    case Ok((x, tail)) => r == Ok(x) && rest == tail
  }

  class Input {
    const bytes: Octets
    var offset: nat

    constructor (bytes: Octets)
      ensures this.bytes == bytes && Valid() && Rest() == bytes
    {
      this.bytes := bytes;
      offset := 0;
    }

    predicate Valid()
      reads this
    {
      offset <= |bytes|
    }

    function Rest(): Octets
      requires Valid()
      reads this
    {
      bytes[offset..]
    }

    method Field(n: nat) returns (r: Result<nat, FieldError>)
      requires Valid()
      modifies this
      ensures Valid() && Agrees(r, Get(n, old(Rest())), Rest())
    {
      if |bytes| - offset < n {
        return Err(Truncated);
      }
      var end := offset + n;
      r := Ok(FromBytes(bytes[offset..end]));
      assert bytes[offset..][..n] == bytes[offset..end] && bytes[offset..][n..] == bytes[end..];
      offset := end;
    }

    method ReadU8() returns (r: Result<U8, FieldError>)
      requires Valid()
      modifies this
      ensures Valid() && Agrees(r, GetU8(old(Rest())), Rest())
    {
      FieldFits(1, Rest());
      var x :- Field(1);
      r := Ok(x);
    }

    method ReadU32() returns (r: Result<U32, FieldError>)
      requires Valid()
      modifies this
      ensures Valid() && Agrees(r, GetU32(old(Rest())), Rest())
    {
      FieldFits(4, Rest());
      var x :- Field(4);
      r := Ok(x);
    }

    method ReadU64() returns (r: Result<U64, FieldError>)
      requires Valid()
      modifies this
      ensures Valid() && Agrees(r, GetU64(old(Rest())), Rest())
    {
      FieldFits(8, Rest());
      var x :- Field(8);
      r := Ok(x);
    }

    method ReadU128() returns (r: Result<U128, FieldError>)
      requires Valid()
      modifies this
      ensures Valid() && Agrees(r, GetU128(old(Rest())), Rest())
    {
      FieldFits(16, Rest());
      var x :- Field(16);
      r := Ok(x);
    }

    method ReadI64() returns (r: Result<I64, FieldError>)
      requires Valid()
      modifies this
      ensures Valid() && Agrees(r, GetI64(old(Rest())), Rest())
    {
      hide GetU64;
      var x :- ReadU64();
      r := Ok(if x < I64_BOUND then x else x - U64_BOUND);
    }

    method ReadI128() returns (r: Result<I128, FieldError>)
      requires Valid()
      modifies this
      ensures Valid() && Agrees(r, GetI128(old(Rest())), Rest())
    {
      hide GetU128;
      var x :- ReadU128();
      r := Ok(if x < I128_BOUND then x else x - U128_BOUND);
    }

    method ReadBool() returns (r: Result<bool, FieldError>)
      requires Valid()
      modifies this
      ensures Valid() && Agrees(r, GetBool(old(Rest())), Rest())
    {
      hide GetU8;
      var x :- ReadU8();
      r := if x > 1 then Err(InvalidBoolean) else Ok(x == 1);
    }

    method ReadSide() returns (r: Result<Side, FieldError>)
      requires Valid()
      modifies this
      ensures Valid() && Agrees(r, GetSide(old(Rest())), Rest())
    {
      hide GetU8;
      var x :- ReadU8();
      r := if x == 1 then Ok(Buy) else if x == 2 then Ok(Sell) else Err(InvalidSide);
    }

    method ReadOptional() returns (r: Result<Option<OrderId>, FieldError>)
      requires Valid()
      modifies this
      ensures Valid() && Agrees(r, GetOptional(old(Rest())), Rest())
    {
      hide GetBool, GetU64;
      var present :- ReadBool();
      var x :- ReadU64();
      r := if present then Ok(Some(x)) else if x == 0 then Ok(None) else Err(FieldError.NonCanonical);
    }

    method ReadAccount() returns (r: Result<(AccountId, R.Account), FieldError>)
      requires Valid()
      modifies this
      ensures Valid() && Agrees(r, GetAccount(old(Rest())), Rest())
    {
      hide GetU32, GetU64, GetU128, GetI64, GetI128, GetBool, Rest;
      var id :- ReadU32();
      var maxQuantity :- ReadU64();
      var maxNotional :- ReadU128();
      var maxPosition :- ReadU64();
      var maxOpen :- ReadU32();
      var minPrice :- ReadI64();
      var maxPrice :- ReadI64();
      var settled :- ReadI128();
      var buys :- ReadU128();
      var sells :- ReadU128();
      var open :- ReadU32();
      var killed :- ReadBool();
      r := Ok((id, R.Account(R.RiskLimits(maxQuantity, maxNotional, maxPosition, maxOpen, minPrice, maxPrice),
                             settled, buys, sells, open, killed)));
    }

    method ReadReservation() returns (r: Result<(OrderId, R.Reservation), FieldError>)
      requires Valid()
      modifies this
      ensures Valid() && Agrees(r, GetReservation(old(Rest())), Rest())
    {
      hide GetU32, GetU64, GetSide, Rest;
      var id :- ReadU64();
      var account :- ReadU32();
      var side :- ReadSide();
      var quantity :- ReadU64();
      r := Ok((id, R.Reservation(account, side, quantity)));
    }

    method ReadOrder() returns (r: Result<BookOrderState, FieldError>)
      requires Valid()
      modifies this
      ensures Valid() && Agrees(r, GetOrder(old(Rest())), Rest())
    {
      hide GetU32, GetU64, GetI64, GetSide, Rest;
      var id :- ReadU64();
      var account :- ReadU32();
      var side :- ReadSide();
      var price :- ReadI64();
      var quantity :- ReadU64();
      var sequence :- ReadU64();
      r := Ok(BookOrderState(id, account, side, price, quantity, sequence));
    }

    method ReadLevel(shape: BookSpec.Shape) returns (r: Result<BookLevelState, FieldError>)
      requires Valid()
      modifies this
      ensures Valid() && Agrees(r, GetLevel(old(Rest()), shape), Rest())
    {
      hide GetU32, GetI64, GetSide, GetOrder, Rest;
      var side :- ReadSide();
      var price :- ReadI64();
      var count :- ReadU32();
      if count > shape.orders {
        return Err(InvalidCount);
      }
      ghost var start := Rest();
      var orders: seq<BookOrderState> := [];
      for i := 0 to count
        invariant Valid() && GetList(GetOrder, count, start, []) == GetList(GetOrder, count - i, Rest(), orders)
      {
        var o :- ReadOrder();
        orders := orders + [o];
      }
      r := Ok(BookLevelState(side, price, orders));
    }

    method ReadHead() returns (r: Result<Head, FieldError>)
      requires Valid()
      modifies this
      ensures Valid() && Agrees(r, GetHead(old(Rest())), Rest())
    {
      hide GetU32, GetU64, GetOptional, GetBool, Rest;
      var instrument :- ReadU32();
      var expected :- ReadU64();
      var maximum :- ReadOptional();
      var riskMaximum :- ReadOptional();
      var killed :- ReadBool();
      var accounts :- ReadU32();
      var reservations :- ReadU32();
      var bids :- ReadU32();
      var asks :- ReadU32();
      r := Ok(Head(instrument, expected, maximum, riskMaximum, killed, accounts, reservations, bids, asks));
    }

    method ReadAccounts(count: nat) returns (r: Result<seq<(AccountId, R.Account)>, FieldError>)
      requires Valid()
      modifies this
      ensures Valid() && Agrees(r, GetList(GetAccount, count, old(Rest()), []), Rest())
    {
      hide GetAccount, Rest;
      ghost var start := Rest();
      var list: seq<(AccountId, R.Account)> := [];
      for i := 0 to count
        invariant Valid() && GetList(GetAccount, count, start, []) == GetList(GetAccount, count - i, Rest(), list)
      {
        var x :- ReadAccount();
        list := list + [x];
      }
      r := Ok(list);
    }

    method ReadReservations(count: nat) returns (r: Result<seq<(OrderId, R.Reservation)>, FieldError>)
      requires Valid()
      modifies this
      ensures Valid() && Agrees(r, GetList(GetReservation, count, old(Rest()), []), Rest())
    {
      hide GetReservation, Rest;
      ghost var start := Rest();
      var list: seq<(OrderId, R.Reservation)> := [];
      for i := 0 to count
        invariant Valid() && GetList(GetReservation, count, start, []) == GetList(GetReservation, count - i, Rest(), list)
      {
        var x :- ReadReservation();
        list := list + [x];
      }
      r := Ok(list);
    }

    method ReadLevels(count: nat, shape: BookSpec.Shape) returns (r: Result<seq<BookLevelState>, FieldError>)
      requires Valid()
      modifies this
      ensures Valid() && Agrees(r, GetLevels(count, old(Rest()), shape, []), Rest())
    {
      hide GetLevel, Rest;
      ghost var start := Rest();
      var list: seq<BookLevelState> := [];
      for i := 0 to count
        invariant Valid() && GetLevels(count, start, shape, []) == GetLevels(count - i, Rest(), shape, list)
      {
        var x :- ReadLevel(shape);
        list := list + [x];
      }
      r := Ok(list);
    }

    method ReadTables(h: Head, shape: BookSpec.Shape) returns (r: Result<GatewayRecords, FieldError>)
      requires Valid()
      modifies this
      ensures Valid() && Agrees(r, GetTables(h, old(Rest()), shape), Rest())
    {
      hide GetList, GetAccount, GetReservation, GetLevels, Rest;
      var accounts :- ReadAccounts(h.accounts);
      var reservations :- ReadReservations(h.reservations);
      var bids :- ReadLevels(h.bids, shape);
      var asks :- ReadLevels(h.asks, shape);
      r := Ok(GatewayRecords(h.instrument, BookState(h.instrument, bids, asks),
                             RiskRecords(accounts, reservations, h.riskMaximum, h.killed), h.expected, h.maximum));
    }
  }

  lemma {:induction false} FieldFits(n: nat, b: Octets)
    ensures Pow256(1) == U8_BOUND && Pow256(4) == U32_BOUND && Pow256(8) == U64_BOUND && Pow256(16) == U128_BOUND
    ensures Get(n, b).Ok? ==> Get(n, b).value.0 < Pow256(n)
  {
    Widths();
    if Get(n, b).Ok? {
      PutGet(n, b);
    }
  }

  /** Decodes one payload, all of it or none. */
  method DecodeState(payload: Octets, shape: BookSpec.Shape, riskShape: R.RiskShape) returns (r: Result<GatewayRecords, PayloadError>)
    ensures r == GetState(payload, shape, riskShape)
  {
    hide GetHead, GetTables;
    var input := new Input(payload);
    var head := input.ReadHead();
    if head.Err? {
      return Err(BadField(head.error));
    }
    if !HeadFits(head.value, shape, riskShape) {
      return Err(BadField(InvalidCount));
    }
    var tables := input.ReadTables(head.value, shape);
    if tables.Err? {
      return Err(BadField(tables.error));
    }
    if input.offset != |payload| {
      return Err(TrailingPayload);
    }
    r := Ok(tables.value);
  }
}
