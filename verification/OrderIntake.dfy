/** From a posted order intent to a stored row, and from the row to the order the matcher loads. */
module OrderIntake {
  import opened Outcomes
  import opened Numbers
  import opened Matching
  import opened OrderText
  import opened OrderMessage

  /** A field of the posted body. `shown` is how the runtime prints the number. */
  datatype JsonField = Absent | Bool(value: bool) | Number(shown: string) | Text(text: string) | Other

  datatype Body = NotAnObject | Body(
    owner: JsonField,
    marketId: JsonField,
    isLong: JsonField,
    reduceOnly: JsonField,
    size: JsonField,
    limitPrice: JsonField,
    nonce: JsonField,
    expiryTs: JsonField,
    signature: JsonField)

  /**
   What the intake and the matcher share: the network passphrase, the configured
   markets, the conversion of a field to an integer, address decoding, and
   signature verification over owner, message and signature.
   */
  datatype Env = Env(
    domain: string,
    markets: set<nat>,
    toInteger: JsonField -> Option<int>,
    decode: string -> Option<seq<Byte>>,
    verify: (string, string, string) -> bool)
  {
    ghost predicate Valid() {
      && (forall m | m in markets :: m < 0x1_0000_0000)
      && (forall owner :: decode(owner).Some? ==> |decode(owner).value| == 32)
    }

    /** The message that the terms of an owner are signed under. */
    function Message(owner: string, t: Terms): string
      requires decode(owner).Some?
    {
      OrderSettlementMessage(domain, Hex(decode(owner).value), Payload(t))
    }
  }

  const MAX_U64: int := 0x1_0000_0000_0000_0000 - 1
  const MAX_SIZE: int := 1_000_000_000 * 10_000_000
  const MAX_PRICE: int := 10_000_000 * 1_000_000_000_000_000_000
  const MAX_TTL_SECONDS: int := 7 * 24 * 3600
  const MIN_TTL_SECONDS: int := 5
  const MAX_BIGINT: int := 0x7FFF_FFFF_FFFF_FFFF

  datatype IntakeError =
    | BodyNotObject | InvalidOwner | UnknownMarket | IsLongNotBoolean | ReduceOnlyNotBoolean
    | SizeNotPositive | SizeTooLarge | PriceNegative | PriceTooLarge | NonceNotU64
    | ExpiryNotU64 | ExpiryTooSoon | ExpiryTooFar | MissingSignature | InvalidSignature

  datatype Verdict = Valid(owner: string, terms: Terms) | Rejected(error: IntakeError)

  function ParseField(f: JsonField): Option<int> {
    match f
    case Text(s) => ParseBigInt(s)
    case Number(shown) => ParseBigInt(shown)
    case _ => None
  }

  predicate IsU64(n: Option<int>) {
    n.Some? && 0 <= n.value <= MAX_U64
  }

  /** An accepted intent fits the contract's types and carries a signature over its canonical terms. */
  function ValidateOrderIntent(env: Env, body: Body, now: nat): (r: Verdict)
    requires env.Valid()
    ensures r.Valid? ==>
      && body.Body? && body.signature.Text?
      && FitsContract(r.terms) && 0 < r.terms.size && 0 <= r.terms.limitPrice
      && now + MIN_TTL_SECONDS < r.terms.expiryTs <= now + MAX_TTL_SECONDS
      && env.decode(r.owner).Some? && env.verify(r.owner, env.Message(r.owner, r.terms), body.signature.text)
  {
    if body.NotAnObject? then Rejected(BodyNotObject)
    else if !body.owner.Text? || env.decode(body.owner.text).None? then Rejected(InvalidOwner)
    else if env.toInteger(body.marketId).None? || env.toInteger(body.marketId).value !in env.markets then
      Rejected(UnknownMarket)
    else if !body.isLong.Bool? then Rejected(IsLongNotBoolean)
    else if !body.reduceOnly.Bool? then Rejected(ReduceOnlyNotBoolean)
    else
      var size, price := ParseField(body.size), ParseField(body.limitPrice);
      var nonce, expiry := ParseField(body.nonce), ParseField(body.expiryTs);
      if size.None? || size.value <= 0 then Rejected(SizeNotPositive)
      else if size.value > MAX_SIZE then Rejected(SizeTooLarge)
      else if price.None? || price.value < 0 then Rejected(PriceNegative)
      else if price.value > MAX_PRICE then Rejected(PriceTooLarge)
      else if !IsU64(nonce) then Rejected(NonceNotU64)
      else if !IsU64(expiry) then Rejected(ExpiryNotU64)
      else if expiry.value <= now + MIN_TTL_SECONDS then Rejected(ExpiryTooSoon)
      else if expiry.value > now + MAX_TTL_SECONDS then Rejected(ExpiryTooFar)
      else if !body.signature.Text? || |body.signature.text| > 256 then Rejected(MissingSignature)
      else
        var terms := Terms(env.toInteger(body.marketId).value, body.isLong.value, size.value, price.value,
                           body.reduceOnly.value, nonce.value, expiry.value);
        if env.verify(body.owner.text, env.Message(body.owner.text, terms), body.signature.text)
        then Valid(body.owner.text, terms)
        else Rejected(InvalidSignature)
  }

  /** The body posts these terms for this owner: each under its own field. */
  predicate Posts(env: Env, body: Body, owner: string, t: Terms) {
    && body.Body? && body.owner == Text(owner)
    && env.toInteger(body.marketId) == Some(t.marketId)
    && body.isLong == Bool(t.isLong) && body.reduceOnly == Bool(t.reduceOnly)
    && ParseField(body.size) == Some(t.size) && ParseField(body.limitPrice) == Some(t.limitPrice)
    && ParseField(body.nonce) == Some(t.nonce) && ParseField(body.expiryTs) == Some(t.expiryTs)
  }

  /** Terms that intake takes at this time. */
  predicate Acceptable(env: Env, t: Terms, now: nat) {
    && t.marketId in env.markets
    && 0 < t.size <= MAX_SIZE && 0 <= t.limitPrice <= MAX_PRICE
    && t.nonce <= MAX_U64 && t.expiryTs <= MAX_U64
    && now + MIN_TTL_SECONDS < t.expiryTs <= now + MAX_TTL_SECONDS
  }

  /** The signature is text of a reasonable length and verifies over the owner's message for the terms. */
  predicate SignedFor(env: Env, body: Body, owner: string, t: Terms) {
    && env.decode(owner).Some?
    && body.Body? && body.signature.Text? && |body.signature.text| <= 256
    && env.verify(owner, env.Message(owner, t), body.signature.text)
  }

  /** An intent is valid for an owner and terms exactly when it posts them, they are acceptable, and it is signed. */
  lemma IntentIsValidIff(env: Env, body: Body, now: nat, owner: string, t: Terms)
    requires env.Valid()
    ensures ValidateOrderIntent(env, body, now) == Valid(owner, t)
       <==> Posts(env, body, owner, t) && Acceptable(env, t, now) && SignedFor(env, body, owner, t)
  {
    hide ParseBigInt, OrderSettlementMessage, Hex;
  }

  /** So a client that prints acceptable terms and signs their message is never turned away. */
  lemma HonestIntentIsValid(env: Env, market: JsonField, owner: string, t: Terms, signature: string, now: nat)
    requires env.Valid() && Acceptable(env, t, now) && env.toInteger(market) == Some(t.marketId)
    requires env.decode(owner).Some? && |signature| <= 256 && env.verify(owner, env.Message(owner, t), signature)
    ensures ValidateOrderIntent(env, Body(Text(owner), market, Bool(t.isLong), Bool(t.reduceOnly), Text(Show(t.size)),
                                          Text(Show(t.limitPrice)), Text(Show(t.nonce)), Text(Show(t.expiryTs)),
                                          Text(signature)), now) == Valid(owner, t)
  {
    hide ParseBigInt, Show, ValidateOrderIntent;
    ParseShow(t.size);
    ParseShow(t.limitPrice);
    ParseShow(t.nonce);
    ParseShow(t.expiryTs);
    var body := Body(Text(owner), market, Bool(t.isLong), Bool(t.reduceOnly), Text(Show(t.size)),
                     Text(Show(t.limitPrice)), Text(Show(t.nonce)), Text(Show(t.expiryTs)), Text(signature));
    IntentIsValidIff(env, body, now, owner, t);
  }

  // ----- Rows

  /** An order row as stored: amounts as text, nonce and expiry as numbers. */
  datatype OrderRecord = OrderRecord(
    owner: string,
    marketId: nat,
    isLong: bool,
    size: string,
    limitPrice: string,
    reduceOnly: bool,
    nonce: nat,
    expiryTs: nat,
    cancelled: bool,
    filledSize: string,
    signature: Option<string>,
    createdAt: int)

  /** The text key of a row. */
  function RowId(owner: string, nonce: nat): string {
    owner + [':'] + Show(nonce)
  }

  /** Different orders have different keys, whatever the owner's text: the pair can stand for the key. */
  lemma RowIdInjective(owner: string, nonce: nat, owner': string, nonce': nat)
    ensures RowId(owner, nonce) == RowId(owner', nonce') <==> OrderId(owner, nonce) == OrderId(owner', nonce')
  {
    hide Show;
    if RowId(owner, nonce) == RowId(owner', nonce') {
      ShowIsPlain(nonce);
      ShowIsPlain(nonce');
      LastField(owner, Show(nonce), owner', Show(nonce'), ':');
      ShowInjective(nonce, nonce');
    }
  }

  function NewRecord(owner: string, t: Terms, signature: string, createdAt: int): OrderRecord {
    OrderRecord(owner, t.marketId, t.isLong, Show(t.size), Show(t.limitPrice), t.reduceOnly, t.nonce, t.expiryTs,
                false, "0", Some(signature), createdAt)
  }

  datatype Response = Accepted | BadRequest(error: IntakeError) | ServerError

  /** The route: validate, then insert unless the row exists. The nonce column is a signed 64-bit integer. */
  function PlaceOrder(env: Env, table: map<string, OrderRecord>, body: Body, now: nat, createdAt: int)
    : (map<string, OrderRecord>, Response)
    requires env.Valid()
  {
    var verdict := ValidateOrderIntent(env, body, now);
    if verdict.Rejected? then (table, BadRequest(verdict.error))
    else if verdict.terms.nonce > MAX_BIGINT || verdict.terms.expiryTs > MAX_BIGINT then (table, ServerError)
    else
      var id := RowId(verdict.owner, verdict.terms.nonce);
      if id in table then (table, Accepted)
      else (table[id := NewRecord(verdict.owner, verdict.terms, body.signature.text, createdAt)], Accepted)
  }

  /** What the matcher loads from a row; None when an amount is not a number. */
  function MapOrderRow(r: OrderRecord): Option<Order> {
    var size, price, filled := ParseBigInt(r.size), ParseBigInt(r.limitPrice), ParseBigInt(r.filledSize);
    if size.None? || price.None? || filled.None? then None
    else Some(Order(r.owner, r.marketId, r.isLong, size.value, price.value, r.reduceOnly, r.nonce, r.expiryTs,
                    filled.value, r.createdAt, r.signature))
  }

  function TermsOf(o: Order): Terms {
    Terms(o.marketId, o.isLong, o.size, o.limitPrice, o.reduceOnly, o.nonce, o.expiryTs)
  }

  /** The matcher's check before it settles; None when the owner's address cannot be decoded. */
  function SettlementSigValid(env: Env, o: Order): Option<bool> {
    if o.signature.None? || o.signature.value == "" then Some(true)
    else if env.decode(o.owner).None? then None
    else Some(env.verify(o.owner, env.Message(o.owner, TermsOf(o)), o.signature.value))
  }

  // ----- Runs over the table

  datatype Step =
    | Place(body: Body, now: nat, createdAt: int)
    | SetFilledSize(id: string, filled: nat)  // any accounting by matcher or reconciler
    | Cancel(id: string)

  function Next(env: Env, table: map<string, OrderRecord>, step: Step): map<string, OrderRecord>
    requires env.Valid()
  {
    match step
    case Place(body, now, createdAt) => PlaceOrder(env, table, body, now, createdAt).0
    case SetFilledSize(id, filled) => if id in table then table[id := table[id].(filledSize := Show(filled))] else table
    case Cancel(id) => if id in table then table[id := table[id].(cancelled := true)] else table
  }

  function Run(env: Env, table: map<string, OrderRecord>, steps: seq<Step>): map<string, OrderRecord>
    requires env.Valid()
  {
    if steps == [] then table else Next(env, Run(env, table, steps[..|steps| - 1]), steps[|steps| - 1])
  }

  /**
   The row loads, under its own key, as an order the gateway's types can hold and
   the matcher will not call poisoned.
   */
  ghost predicate Settleable(env: Env, id: string, r: OrderRecord) {
    var loaded := MapOrderRow(r);
    && id == RowId(r.owner, r.nonce)
    && loaded.Some? && FitsContract(TermsOf(loaded.value)) && loaded.value.size > 0 && loaded.value.limitPrice >= 0
    && loaded.value.signature.Some? && env.decode(loaded.value.owner).Some?
    && env.verify(loaded.value.owner, env.Message(loaded.value.owner, TermsOf(loaded.value)),
                  loaded.value.signature.value)
    && SettlementSigValid(env, loaded.value) == Some(true)
  }

  ghost predicate TableSound(env: Env, table: map<string, OrderRecord>) {
    forall id | id in table :: Settleable(env, id, table[id])
  }

  /** The order loaded from a fresh row has the terms that were verified: text and back loses nothing. */
  lemma RecordLoads(owner: string, t: Terms, signature: string, createdAt: int)
    ensures var loaded := MapOrderRow(NewRecord(owner, t, signature, createdAt));
      loaded.Some? && TermsOf(loaded.value) == t && loaded.value.owner == owner
      && loaded.value.signature == Some(signature) && loaded.value.filledSize == 0
      && loaded.value.createdAt == createdAt
  {
    assert Show(0) == "0";
    hide Show, ParseBigInt;
    ParseShow(t.size);
    ParseShow(t.limitPrice);
    ParseShow(0);
  }

  lemma PlacedIsSettleable(env: Env, table: map<string, OrderRecord>, body: Body, now: nat, createdAt: int)
    requires env.Valid() && TableSound(env, table)
    ensures TableSound(env, PlaceOrder(env, table, body, now, createdAt).0)
  {
    hide Show, ParseBigInt, MapOrderRow, NewRecord, RowId;
    var verdict := ValidateOrderIntent(env, body, now);
    if verdict.Valid? {
      RecordLoads(verdict.owner, verdict.terms, body.signature.text, createdAt);
      assert NewRecord(verdict.owner, verdict.terms, body.signature.text, createdAt).owner == verdict.owner by {
        NewRecordKeys(verdict.owner, verdict.terms, body.signature.text, createdAt);
      }
      NewRecordKeys(verdict.owner, verdict.terms, body.signature.text, createdAt);
    }
  }

  lemma NewRecordKeys(owner: string, t: Terms, signature: string, createdAt: int)
    ensures var r := NewRecord(owner, t, signature, createdAt); r.owner == owner && r.nonce == t.nonce && !r.cancelled
  {
  }

  lemma UpdateKeepsSettleable(env: Env, id: string, r: OrderRecord, filled: nat)
    requires Settleable(env, id, r)
    ensures Settleable(env, id, r.(filledSize := Show(filled))) && Settleable(env, id, r.(cancelled := true))
  {
    hide Show, ParseBigInt;
    ParseShow(filled);
  }

  lemma NextSound(env: Env, table: map<string, OrderRecord>, step: Step)
    requires env.Valid() && TableSound(env, table)
    ensures TableSound(env, Next(env, table, step))
  {
    hide Settleable, PlaceOrder, Show;
    match step
    case Place(body, now, createdAt) => PlacedIsSettleable(env, table, body, now, createdAt);
    case SetFilledSize(id, filled) => if id in table { UpdateKeepsSettleable(env, id, table[id], filled); }
    case Cancel(id) => if id in table { UpdateKeepsSettleable(env, id, table[id], 0); }
  }

  /** Whatever is posted, filled or cancelled, every stored order verifies when the matcher rebuilds its message. */
  lemma {:induction false} AcceptedIsNeverPoison(env: Env, steps: seq<Step>)
    requires env.Valid()
    ensures TableSound(env, Run(env, map[], steps))
  {
    hide TableSound, Next;
    if steps != [] {
      AcceptedIsNeverPoison(env, steps[..|steps| - 1]);
      NextSound(env, Run(env, map[], steps[..|steps| - 1]), steps[|steps| - 1]);
    } else {
      EmptySound(env);
    }
  }

  lemma EmptySound(env: Env)
    ensures TableSound(env, map[])
  {
  }

  /** The same order, perhaps further filled or cancelled since. */
  predicate SameOrder(before: OrderRecord, after: OrderRecord) {
    && after.(filledSize := before.filledSize, cancelled := before.cancelled) == before
    && (before.cancelled ==> after.cancelled)
  }

  lemma NextKeepsOrder(env: Env, table: map<string, OrderRecord>, step: Step, id: string)
    requires env.Valid() && id in table
    ensures id in Next(env, table, step) && SameOrder(table[id], Next(env, table, step)[id])
  {
    hide ValidateOrderIntent, NewRecord, RowId, Show;
  }

  /** A row's terms and signature never change: resubmitting a nonce, even with other terms, leaves the first order. */
  lemma {:induction false} FirstOrderStays(env: Env, table: map<string, OrderRecord>, steps: seq<Step>, id: string)
    requires env.Valid() && id in table
    ensures id in Run(env, table, steps) && SameOrder(table[id], Run(env, table, steps)[id])
  {
    hide Next;
    if steps != [] {
      FirstOrderStays(env, table, steps[..|steps| - 1], id);
      NextKeepsOrder(env, Run(env, table, steps[..|steps| - 1]), steps[|steps| - 1], id);
    }
  }

  /**
   An accepted request is answered by the row under its key; the row holds the
   request's terms unless an older one kept the key.
   */
  lemma AcceptedIsStored(env: Env, table: map<string, OrderRecord>, body: Body, now: nat, createdAt: int)
    requires env.Valid()
    ensures var (later, response) := PlaceOrder(env, table, body, now, createdAt);
      var verdict := ValidateOrderIntent(env, body, now);
      && (response.Accepted?
        <==> verdict.Valid? && verdict.terms.nonce <= MAX_BIGINT && verdict.terms.expiryTs <= MAX_BIGINT)
      && (response.Accepted? ==>
            var id := RowId(verdict.owner, verdict.terms.nonce);
            && later.Keys == table.Keys + {id}
            && (id in table ==> later == table)
            && (id !in table ==> !later[id].cancelled && MapOrderRow(later[id]).Some?
                                 && TermsOf(MapOrderRow(later[id]).value) == verdict.terms))
      && (!response.Accepted? ==> later == table)
  {
    hide Show, ParseBigInt, MapOrderRow, NewRecord, RowId, ValidateOrderIntent, TermsOf;
    var verdict := ValidateOrderIntent(env, body, now);
    if verdict.Valid? {
      RecordLoads(verdict.owner, verdict.terms, body.signature.text, createdAt);
      NewRecordKeys(verdict.owner, verdict.terms, body.signature.text, createdAt);
    }
  }

  /** An intent with the largest nonce the validation admits: signed, valid, and answered with an error. */
  lemma LargeNonceIsNotStored() returns (env: Env, body: Body)
    ensures env.Valid() && ValidateOrderIntent(env, body, 50).Valid?
    ensures ValidateOrderIntent(env, body, 50).terms.nonce == MAX_U64
    ensures PlaceOrder(env, map[], body, 50, 0) == (map[], ServerError)
  {
    hide ParseBigInt, Show;
    var key: seq<Byte> := seq(32, _ => 0);
    env := Env("net", {1}, _ => Some(1), _ => Some(key), (_, _, _) => true);
    body := Body(Text("owner"), Number("1"), Bool(true), Bool(false), Text(Show(1)), Text(Show(1)),
                 Text(Show(MAX_U64)), Text(Show(100)), Text("signature"));
    ParseShow(1);
    ParseShow(MAX_U64);
    ParseShow(100);
    assert |"signature"| <= 256;
  }
}
