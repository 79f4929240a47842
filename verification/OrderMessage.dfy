/**
 The messages a wallet signs for an order: as the client, the intake route and
 the matcher build them, and as the order gateway contract rebuilds them. Bytes
 are written as the characters they encode.
 */
module OrderMessage {
  import opened Numbers
  import opened OrderText

  /** An order's terms as numbers. */
  datatype Terms = Terms(
    marketId: nat,
    isLong: bool,
    size: int,
    limitPrice: int,
    reduceOnly: bool,
    nonce: nat,
    expiryTs: nat)

  /** The terms in the text form that travels in a request. */
  datatype SignedPayload = SignedPayload(
    marketId: nat,
    isLong: bool,
    size: string,
    limitPrice: string,
    reduceOnly: bool,
    nonce: string,
    expiryTs: string)
  {
    predicate Free(c: char) {
      c !in size && c !in limitPrice && c !in nonce && c !in expiryTs
    }
  }

  function Payload(t: Terms): SignedPayload {
    SignedPayload(t.marketId, t.isLong, Show(t.size), Show(t.limitPrice), t.reduceOnly, Show(t.nonce), Show(t.expiryTs))
  }

  function Flag(b: bool): string {
    if b then "1" else "0"
  }

  function SettlementFields(domain: string, pubkeyHex: string, o: SignedPayload): seq<string> {
    [domain, "place_order", pubkeyHex, Show(o.marketId), Flag(o.isLong), o.size, o.limitPrice, Flag(o.reduceOnly),
     o.nonce, o.expiryTs]
  }

  function OrderSettlementMessage(domain: string, pubkeyHex: string, o: SignedPayload): string {
    Join(SettlementFields(domain, pubkeyHex, o), '|')
  }

  lemma ShowIsPlain(n: int)
    ensures forall c | c in Show(n) :: IsDigit(c) || c == '-'
  {
  }

  /** The message can be taken apart whatever the domain is, so nothing in it can be signed for another order. */
  lemma SettlementMessageDecodes(d: string, h: string, o: SignedPayload, e: string, g: string, p: SignedPayload)
    requires o.Free('|') && p.Free('|') && '|' !in h && '|' !in g
    ensures OrderSettlementMessage(d, h, o) == OrderSettlementMessage(e, g, p) <==> d == e && h == g && o == p
  {
    hide Show, Join;
    var a, b := SettlementFields(d, h, o), SettlementFields(e, g, p);
    ShowIsPlain(o.marketId);
    ShowIsPlain(p.marketId);
    JoinInjective(a, b, '|');
    if a == b {
      FieldsDecode(d, h, o, e, g, p);
    }
  }

  lemma FieldsDecode(d: string, h: string, o: SignedPayload, e: string, g: string, p: SignedPayload)
    requires SettlementFields(d, h, o) == SettlementFields(e, g, p)
    ensures d == e && h == g && o == p
  {
    hide Show;
    var a, b := SettlementFields(d, h, o), SettlementFields(e, g, p);
    assert a[0] == b[0] && a[2] == b[2] && a[3] == b[3] && a[4] == b[4] && a[5] == b[5];
    assert a[6] == b[6] && a[7] == b[7] && a[8] == b[8] && a[9] == b[9];
    assert Flag(true)[0] != Flag(false)[0];
    ShowInjective(o.marketId, p.marketId);
  }

  lemma PayloadIsPlain(t: Terms)
    ensures Payload(t).Free('|')
  {
    hide Show;
    ShowIsPlain(t.size);
    ShowIsPlain(t.limitPrice);
    ShowIsPlain(t.nonce);
    ShowIsPlain(t.expiryTs);
  }

  lemma PayloadInjective(t: Terms, u: Terms)
    ensures Payload(t) == Payload(u) <==> t == u
  {
    hide Show;
    ShowInjective(t.size, u.size);
    ShowInjective(t.limitPrice, u.limitPrice);
    ShowInjective(t.nonce, u.nonce);
    ShowInjective(t.expiryTs, u.expiryTs);
  }

  /**
   A signature commits to network, public key and every term: two orders share a
   message only if they agree on all.
   */
  lemma SignedMessageIsUnique(domain: string, key: seq<Byte>, t: Terms, domain': string, key': seq<Byte>, t': Terms)
    ensures var left, right := OrderSettlementMessage(domain, Hex(key), Payload(t)),
                               OrderSettlementMessage(domain', Hex(key'), Payload(t'));
      left == right <==> domain == domain' && key == key' && t == t'
  {
    hide OrderSettlementMessage, Hex, Payload;
    PayloadIsPlain(t);
    PayloadIsPlain(t');
    HexShape(key);
    HexShape(key');
    SettlementMessageDecodes(domain, Hex(key), Payload(t), domain', Hex(key'), Payload(t'));
    HexInjective(key, key');
    PayloadInjective(t, t');
  }

  // ----- The order gateway contract

  const I128_LIMIT: int := 0x8000_0000_0000_0000_0000_0000_0000_0000

  /** What the contract's integer types can hold. */
  predicate FitsContract(t: Terms) {
    && t.marketId < 0x1_0000_0000
    && -I128_LIMIT <= t.size < I128_LIMIT && -I128_LIMIT <= t.limitPrice < I128_LIMIT
    && t.nonce < 0x1_0000_0000_0000_0000 && t.expiryTs < 0x1_0000_0000_0000_0000
  }

  lemma ShowNat(n: nat)
    ensures Show(n) == Decimal(n)
  {
  }

  /** Join, written field after field. */
  lemma JoinStep(parts: seq<string>, last: string, sep: char)
    requires parts != []
    ensures Join(parts + [last], sep) == Join(parts, sep) + [sep] + last
  {
    assert (parts + [last])[..|parts|] == parts;
  }

  lemma JoinThree(a: string, b: string, c: string)
    ensures Join([a, b, c], '|') == a + ['|'] + b + ['|'] + c
  {
    JoinStep([a], b, '|');
    JoinStep([a, b], c, '|');
    assert [a] + [b] == [a, b] && [a, b] + [c] == [a, b, c];
  }

  /** The contract rebuilds, piece by piece, exactly the bytes that the client signed. */
  method CanonicalMessage(domain: string, pubkey: seq<Byte>, t: Terms) returns (msg: string)
    requires |pubkey| == 32 && FitsContract(t)
    ensures msg == OrderSettlementMessage(domain, Hex(pubkey), Payload(t))
  {
    hide Show, Join, Hex;
    ShowNat(t.marketId);
    ShowNat(t.nonce);
    ShowNat(t.expiryTs);
    ghost var fields := SettlementFields(domain, Hex(pubkey), Payload(t));
    msg := domain;
    msg := msg + "|place_order|";
    msg := AppendHex(msg, pubkey);
    assert msg == domain + ['|'] + "place_order" + ['|'] + Hex(pubkey);
    JoinThree(domain, "place_order", Hex(pubkey));
    assert fields[..3] == [domain, "place_order", Hex(pubkey)];
    msg := msg + ['|'];
    msg := AppendDecimal(msg, t.marketId);
    FieldAdded(fields, 3);
    msg := msg + ['|'];
    msg := msg + (if t.isLong then ['1'] else ['0']);
    FieldAdded(fields, 4);
    msg := msg + ['|'];
    msg := AppendSigned(msg, t.size);
    FieldAdded(fields, 5);
    msg := msg + ['|'];
    msg := AppendSigned(msg, t.limitPrice);
    FieldAdded(fields, 6);
    msg := msg + ['|'];
    msg := msg + (if t.reduceOnly then ['1'] else ['0']);
    FieldAdded(fields, 7);
    msg := msg + ['|'];
    msg := AppendDecimal(msg, t.nonce);
    FieldAdded(fields, 8);
    msg := msg + ['|'];
    msg := AppendDecimal(msg, t.expiryTs);
    FieldAdded(fields, 9);
    assert fields[..10] == fields;
  }

  lemma FieldAdded(fields: seq<string>, k: nat)
    requires 0 < k < |fields|
    ensures Join(fields[..k + 1], '|') == Join(fields[..k], '|') + ['|'] + fields[k]
  {
    assert fields[..k + 1] == fields[..k] + [fields[k]];
    JoinStep(fields[..k], fields[k], '|');
  }

  // ----- The messages of the client's older signing scheme

  const APP_DOMAIN := "kryon.perps"

  function Line(pair: (string, string)): string {
    pair.0 + "=" + pair.1
  }

  function CanonicalPairs(pairs: seq<(string, string)>): string
    requires pairs != []
  {
    Join(seq(|pairs|, i requires 0 <= i < |pairs| => Line(pairs[i])), '\n')
  }

  function Truth(b: bool): string {
    if b then "true" else "false"
  }

  const KEYS: seq<string> :=
    ["domain", "action", "network", "owner", "market_id", "is_long", "size", "limit_price", "reduce_only", "nonce",
     "expiry_ts"]

  function OrderPairs(network: string, owner: string, o: SignedPayload): seq<(string, string)> {
    [("domain", APP_DOMAIN), ("action", "place_order"), ("network", network), ("owner", owner),
     ("market_id", Show(o.marketId)), ("is_long", Truth(o.isLong)), ("size", o.size), ("limit_price", o.limitPrice),
     ("reduce_only", Truth(o.reduceOnly)), ("nonce", o.nonce), ("expiry_ts", o.expiryTs)]
  }

  function OrderSigningMessage(network: string, owner: string, o: SignedPayload): string {
    CanonicalPairs(OrderPairs(network, owner, o))
  }

  function CancelPairs(network: string, owner: string, nonce: string): seq<(string, string)> {
    [("domain", APP_DOMAIN), ("action", "cancel_order"), ("network", network), ("owner", owner), ("nonce", nonce)]
  }

  function CancelSigningMessage(network: string, owner: string, nonce: string): string {
    CanonicalPairs(CancelPairs(network, owner, nonce))
  }

  /** Pair lists under the same keys have equal messages only when their values agree. */
  lemma PairsDecode(a: seq<(string, string)>, b: seq<(string, string)>)
    requires |a| == |b| > 0
    requires forall k | 0 <= k < |a| :: a[k].0 == b[k].0 && Plain(a[k].0) && Plain(a[k].1) && Plain(b[k].1)
    ensures CanonicalPairs(a) == CanonicalPairs(b) <==> a == b
  {
    hide Join;
    var x := seq(|a|, i requires 0 <= i < |a| => Line(a[i]));
    var y := seq(|b|, i requires 0 <= i < |b| => Line(b[i]));
    JoinInjective(x, y, '\n');
    if x == y {
      forall k | 0 <= k < |a| ensures a[k] == b[k] {
        assert x[k] == y[k];
        var n := |a[k].0| + 1;
        assert Line(a[k])[n..] == a[k].1 && Line(b[k])[n..] == b[k].1;
      }
    }
  }

  /** The older message, too, commits to the owner and every term. */
  lemma OrderSigningMessageIsUnique(network: string, owner: string, t: Terms, owner': string, t': Terms)
    requires Plain(network) && Plain(owner) && Plain(owner')
    ensures OrderSigningMessage(network, owner, Payload(t)) == OrderSigningMessage(network, owner', Payload(t'))
         <==> owner == owner' && t == t'
  {
    hide OrderPairs, CanonicalPairs, Payload, Plain;
    var a, b := OrderPairs(network, owner, Payload(t)), OrderPairs(network, owner', Payload(t'));
    PairsArePlain(network, owner, t);
    PairsArePlain(network, owner', t');
    PairsDecode(a, b);
    if a == b {
      OrderPairsDecode(network, owner, Payload(t), owner', Payload(t'));
      PayloadInjective(t, t');
    }
  }

  lemma OrderPairsDecode(network: string, owner: string, o: SignedPayload, owner': string, o': SignedPayload)
    requires OrderPairs(network, owner, o) == OrderPairs(network, owner', o')
    ensures owner == owner' && o == o'
  {
    hide Show;
    var a, b := OrderPairs(network, owner, o), OrderPairs(network, owner', o');
    assert a[3].1 == b[3].1 && a[4].1 == b[4].1 && a[5].1 == b[5].1 && a[6].1 == b[6].1;
    assert a[7].1 == b[7].1 && a[8].1 == b[8].1 && a[9].1 == b[9].1 && a[10].1 == b[10].1;
    assert Truth(true)[0] != Truth(false)[0];
    ShowInjective(o.marketId, o'.marketId);
  }

  predicate Plain(s: string) {
    '\n' !in s
  }

  lemma KeysArePlain()
    ensures Plain("domain") && Plain("action") && Plain("network") && Plain("owner") && Plain("market_id")
    ensures Plain("is_long") && Plain("size") && Plain("limit_price") && Plain("reduce_only") && Plain("nonce")
    ensures Plain("expiry_ts") && Plain("true") && Plain("false") && Plain(APP_DOMAIN) && Plain("place_order")
  {
  }

  lemma NumberIsPlain(n: int)
    ensures Plain(Show(n))
  {
  }

  lemma PairsArePlain(network: string, owner: string, t: Terms)
    requires Plain(network) && Plain(owner)
    ensures var pairs := OrderPairs(network, owner, Payload(t));
      |pairs| == 11 && forall k | 0 <= k < 11 :: pairs[k].0 == KEYS[k] && Plain(pairs[k].0) && Plain(pairs[k].1)
  {
    hide Show, Plain;
    KeysArePlain();
    NumberIsPlain(t.marketId);
    NumberIsPlain(t.size);
    NumberIsPlain(t.limitPrice);
    NumberIsPlain(t.nonce);
    NumberIsPlain(t.expiryTs);
  }

  lemma {:induction false} JoinStarts(parts: seq<string>, sep: char)
    requires |parts| >= 2
    ensures parts[0] + [sep] + parts[1] <= Join(parts, sep)
  {
    if |parts| > 2 {
      JoinStarts(parts[..|parts| - 1], sep);
    } else {
      assert parts[..1] == [parts[0]];
    }
  }

  /** No request to place an order is also a request to cancel one. */
  lemma PlaceIsNeverCancel(network: string, owner: string, o: SignedPayload, network': string, owner': string,
                           nonce: string)
    ensures OrderSigningMessage(network, owner, o) != CancelSigningMessage(network', owner', nonce)
  {
    hide Join, Show;
    var a, b := OrderPairs(network, owner, o), CancelPairs(network', owner', nonce);
    var x := seq(|a|, i requires 0 <= i < |a| => Line(a[i]));
    var y := seq(|b|, i requires 0 <= i < |b| => Line(b[i]));
    JoinStarts(x, '\n');
    JoinStarts(y, '\n');
    var start := Line(a[0]) + ['\n'] + "action=";
    assert x[0] == y[0] == Line(a[0]);
    assert x[0] + ['\n'] + x[1] == start + "place_order";
    assert y[0] + ['\n'] + y[1] == start + "cancel_order";
    assert OrderSigningMessage(network, owner, o)[|start|] == "place_order"[0];
    assert CancelSigningMessage(network', owner', nonce)[|start|] == "cancel_order"[0];
  }
}
