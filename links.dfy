/**
 * The link tables: seller_vertical (generate_seller_verticals), the address
 * books (generate_address_books) and the cards with their per-consumer map
 * (generate_cards). Every random draw is an input; the identifiers come in
 * as drawn values.
 */
module Links {
  import opened Opt
  import opened Seqs
  import opened Domain

  function Min(a: int, b: int): int {
    if a <= b then a else b
  }

  predicate DistinctSellers(ss: seq<Seller>) {
    forall i, j :: 0 <= i < j < |ss| ==> ss[i].id != ss[j].id
  }

  predicate DistinctVerticals(vs: seq<Vertical>) {
    forall i, j :: 0 <= i < j < |vs| ==> vs[i].id != vs[j].id
  }

  predicate DistinctConsumers(cs: seq<Consumer>) {
    forall i, j :: 0 <= i < j < |cs| ==> cs[i].id != cs[j].id
  }

  // ---------------------------------------------------------------------------
  // seller_vertical
  // ---------------------------------------------------------------------------

  /**
   * One seller's draw: random.randint(1, min(5, n)) positions, then
   * random.sample of that many distinct positions among the n verticals.
   */
  predicate ValidVerticalPick(pick: seq<nat>, n: nat) {
    && 1 <= |pick| <= Min(5, n)
    && (forall j :: 0 <= j < |pick| ==> pick[j] < n)
    && (forall j, k :: 0 <= j < k < |pick| ==> pick[j] != pick[k])
  }

  predicate ValidVerticalPicks(picks: seq<seq<nat>>, sellers: seq<Seller>, verticals: seq<Vertical>) {
    |picks| == |sellers| && forall i :: 0 <= i < |picks| ==> ValidVerticalPick(picks[i], |verticals|)
  }

  /** The links of one seller, to the verticals at its drawn positions. */
  function LinksOf(s: Seller, verticals: seq<Vertical>, pick: seq<nat>): (r: seq<SellerVertical>)
    requires forall j :: 0 <= j < |pick| ==> pick[j] < |verticals|
    ensures |r| == |pick|
    ensures forall j :: 0 <= j < |r| ==> r[j] == SellerVertical(s.id, verticals[pick[j]].id)
  {
    seq(|pick|, j requires 0 <= j < |pick| => SellerVertical(s.id, verticals[pick[j]].id))
  }

  /** The whole table: each seller's links, seller after seller. */
  function SellerVerticalLinks(sellers: seq<Seller>, verticals: seq<Vertical>, picks: seq<seq<nat>>): seq<SellerVertical>
    requires ValidVerticalPicks(picks, sellers, verticals)
    decreases |sellers|
  {
    if sellers == [] then []
    else
      var n := |sellers| - 1;
      SellerVerticalLinks(sellers[..n], verticals, picks[..n]) + LinksOf(sellers[n], verticals, picks[n])
  }

  /** generate_seller_verticals. */
  method GenerateSellerVerticals(sellers: seq<Seller>, verticals: seq<Vertical>, picks: seq<seq<nat>>)
    returns (links: seq<SellerVertical>)
    requires ValidVerticalPicks(picks, sellers, verticals)
    ensures links == SellerVerticalLinks(sellers, verticals, picks)
  {
    links := [];
    var i := 0;
    while i < |sellers|
      invariant 0 <= i <= |sellers|
      invariant links == SellerVerticalLinks(sellers[..i], verticals, picks[..i])
    {
      var pick := picks[i];
      var j := 0;
      while j < |pick|
        invariant 0 <= j <= |pick|
        invariant links == SellerVerticalLinks(sellers[..i], verticals, picks[..i]) + LinksOf(sellers[i], verticals, pick)[..j]
      {
        links := links + [SellerVertical(sellers[i].id, verticals[pick[j]].id)];
        assert LinksOf(sellers[i], verticals, pick)[..j + 1] == LinksOf(sellers[i], verticals, pick)[..j] + [SellerVertical(sellers[i].id, verticals[pick[j]].id)];
        j := j + 1;
      }
      assert sellers[..i + 1][..i] == sellers[..i];
      assert picks[..i + 1][..i] == picks[..i];
      assert LinksOf(sellers[i], verticals, pick)[..j] == LinksOf(sellers[i], verticals, pick);
      i := i + 1;
    }
    assert sellers[..i] == sellers;
    assert picks[..i] == picks;
  }

  function SellerIs(sid: Id): SellerVertical -> bool {
    (l: SellerVertical) => l.sellerId == sid
  }

  function VerticalIds(ls: seq<SellerVertical>): (r: seq<Id>)
    ensures |r| == |ls| && forall j :: 0 <= j < |ls| ==> r[j] == ls[j].verticalId
  {
    seq(|ls|, j requires 0 <= j < |ls| => ls[j].verticalId)
  }

  /** The verticals linked to seller sid, in table order. */
  function LinkedVerticals(links: seq<SellerVertical>, sid: Id): seq<Id> {
    VerticalIds(Filter(links, SellerIs(sid)))
  }

  /** Every link names one of the sellers. */
  lemma {:induction false} LinksNameSellers(sellers: seq<Seller>, verticals: seq<Vertical>, picks: seq<seq<nat>>)
    requires ValidVerticalPicks(picks, sellers, verticals)
    ensures forall l :: l in SellerVerticalLinks(sellers, verticals, picks) ==>
      exists i :: 0 <= i < |sellers| && l.sellerId == sellers[i].id
    decreases |sellers|
  {
    if sellers != [] {
      var n := |sellers| - 1;
      LinksNameSellers(sellers[..n], verticals, picks[..n]);
      forall l | l in SellerVerticalLinks(sellers, verticals, picks)
        ensures exists i :: 0 <= i < |sellers| && l.sellerId == sellers[i].id
      {
        if l in SellerVerticalLinks(sellers[..n], verticals, picks[..n]) {
          var i :| 0 <= i < n && l.sellerId == sellers[..n][i].id;
          assert sellers[..n][i] == sellers[i];
        } else {
          assert l.sellerId == sellers[n].id;
        }
      }
    }
  }

  /** Every link names one of the verticals. */
  lemma {:induction false} LinksNameVerticals(sellers: seq<Seller>, verticals: seq<Vertical>, picks: seq<seq<nat>>)
    requires ValidVerticalPicks(picks, sellers, verticals)
    ensures forall l :: l in SellerVerticalLinks(sellers, verticals, picks) ==>
      exists k :: 0 <= k < |verticals| && l.verticalId == verticals[k].id
    decreases |sellers|
  {
    if sellers != [] {
      var n := |sellers| - 1;
      LinksNameVerticals(sellers[..n], verticals, picks[..n]);
      forall l | l in SellerVerticalLinks(sellers, verticals, picks)
        ensures exists k :: 0 <= k < |verticals| && l.verticalId == verticals[k].id
      {
        if l !in SellerVerticalLinks(sellers[..n], verticals, picks[..n]) {
          var j :| 0 <= j < |picks[n]| && l == LinksOf(sellers[n], verticals, picks[n])[j];
          assert l.verticalId == verticals[picks[n][j]].id;
        }
      }
    }
  }

  /** A seller id that is none of the sellers has no link. */
  lemma {:induction false} NoLinksOf(sellers: seq<Seller>, verticals: seq<Vertical>, picks: seq<seq<nat>>, sid: Id)
    requires ValidVerticalPicks(picks, sellers, verticals)
    requires forall i :: 0 <= i < |sellers| ==> sellers[i].id != sid
    ensures Filter(SellerVerticalLinks(sellers, verticals, picks), SellerIs(sid)) == []
    decreases |sellers|
  {
    if sellers != [] {
      var n := |sellers| - 1;
      NoLinksOf(sellers[..n], verticals, picks[..n], sid);
      FilterSkipLast(SellerVerticalLinks(sellers[..n], verticals, picks[..n]), LinksOf(sellers[n], verticals, picks[n]), SellerIs(sid));
    }
  }

  /** With distinct seller ids, the links of seller i are exactly the ones drawn for it. */
  lemma {:induction false} LinksOfSeller(sellers: seq<Seller>, verticals: seq<Vertical>, picks: seq<seq<nat>>, i: nat)
    requires ValidVerticalPicks(picks, sellers, verticals)
    requires DistinctSellers(sellers) && i < |sellers|
    ensures Filter(SellerVerticalLinks(sellers, verticals, picks), SellerIs(sellers[i].id)) == LinksOf(sellers[i], verticals, picks[i])
    decreases |sellers|
  {
    var n := |sellers| - 1;
    var prefix := SellerVerticalLinks(sellers[..n], verticals, picks[..n]);
    var last := LinksOf(sellers[n], verticals, picks[n]);
    var p := SellerIs(sellers[i].id);
    if i == n {
      NoLinksOf(sellers[..n], verticals, picks[..n], sellers[n].id);
      FilterOnlyLast(prefix, last, p);
    } else {
      assert sellers[..n][i] == sellers[i];
      assert picks[..n][i] == picks[i];
      LinksOfSeller(sellers[..n], verticals, picks[..n], i);
      FilterSkipLast(prefix, last, p);
    }
  }

  /**
   * Every seller is linked to between 1 and min(5, |verticals|) verticals,
   * and (the vertical ids being distinct) to no vertical twice.
   */
  lemma SellerVerticalCounts(sellers: seq<Seller>, verticals: seq<Vertical>, picks: seq<seq<nat>>, i: nat)
    requires ValidVerticalPicks(picks, sellers, verticals)
    requires DistinctSellers(sellers) && DistinctVerticals(verticals) && i < |sellers|
    ensures var vs := LinkedVerticals(SellerVerticalLinks(sellers, verticals, picks), sellers[i].id);
      && 1 <= |vs| <= Min(5, |verticals|)
      && (forall j, k :: 0 <= j < k < |vs| ==> vs[j] != vs[k])
      && |vs| == |picks[i]|
      && (forall j :: 0 <= j < |vs| ==> vs[j] == verticals[picks[i][j]].id)
  {
    LinksOfSeller(sellers, verticals, picks, i);
  }

  // ---------------------------------------------------------------------------
  // address_books
  // ---------------------------------------------------------------------------

  /** One consumer's addresses: the first is the default one. */
  function AddressesFor(c: Consumer, ids: seq<Id>): (r: seq<Address>)
    ensures |r| == |ids|
    ensures forall j :: 0 <= j < |r| ==> r[j] == Address(ids[j], c.id, j == 0)
  {
    seq(|ids|, j requires 0 <= j < |ids| => Address(ids[j], c.id, j == 0))
  }

  /** random.randint(1, 3) addresses per consumer, each with a drawn id. */
  predicate ValidAddressDraws(ids: seq<seq<Id>>, consumers: seq<Consumer>) {
    |ids| == |consumers| && forall i :: 0 <= i < |ids| ==> 1 <= |ids[i]| <= 3
  }

  function AddressBooks(consumers: seq<Consumer>, ids: seq<seq<Id>>): seq<Address>
    requires |ids| == |consumers|
    decreases |consumers|
  {
    if consumers == [] then []
    else
      var n := |consumers| - 1;
      AddressBooks(consumers[..n], ids[..n]) + AddressesFor(consumers[n], ids[n])
  }

  /** generate_address_books. */
  method GenerateAddressBooks(consumers: seq<Consumer>, ids: seq<seq<Id>>) returns (addresses: seq<Address>)
    requires ValidAddressDraws(ids, consumers)
    ensures addresses == AddressBooks(consumers, ids)
  {
    addresses := [];
    var i := 0;
    while i < |consumers|
      invariant 0 <= i <= |consumers|
      invariant addresses == AddressBooks(consumers[..i], ids[..i])
    {
      var j := 0;
      while j < |ids[i]|
        invariant 0 <= j <= |ids[i]|
        invariant addresses == AddressBooks(consumers[..i], ids[..i]) + AddressesFor(consumers[i], ids[i])[..j]
      {
        var a := Address(ids[i][j], consumers[i].id, j == 0);
        addresses := addresses + [a];
        assert AddressesFor(consumers[i], ids[i])[..j + 1] == AddressesFor(consumers[i], ids[i])[..j] + [a];
        j := j + 1;
      }
      assert consumers[..i + 1][..i] == consumers[..i];
      assert ids[..i + 1][..i] == ids[..i];
      assert AddressesFor(consumers[i], ids[i])[..j] == AddressesFor(consumers[i], ids[i]);
      i := i + 1;
    }
    assert consumers[..i] == consumers;
    assert ids[..i] == ids;
  }

  function UserIs(uid: Id): Address -> bool {
    (a: Address) => a.userId == uid
  }

  /** The addresses of user uid, in table order. */
  function AddressesOfUser(addresses: seq<Address>, uid: Id): seq<Address> {
    Filter(addresses, UserIs(uid))
  }

  /** Every address belongs to one of the consumers. */
  lemma {:induction false} AddressesNameConsumers(consumers: seq<Consumer>, ids: seq<seq<Id>>)
    requires |ids| == |consumers|
    ensures forall a :: a in AddressBooks(consumers, ids) ==>
      exists i :: 0 <= i < |consumers| && a.userId == consumers[i].id
    decreases |consumers|
  {
    if consumers != [] {
      var n := |consumers| - 1;
      AddressesNameConsumers(consumers[..n], ids[..n]);
      forall a | a in AddressBooks(consumers, ids)
        ensures exists i :: 0 <= i < |consumers| && a.userId == consumers[i].id
      {
        if a in AddressBooks(consumers[..n], ids[..n]) {
          var i :| 0 <= i < n && a.userId == consumers[..n][i].id;
          assert consumers[..n][i] == consumers[i];
        } else {
          assert a.userId == consumers[n].id;
        }
      }
    }
  }

  /** A user that is none of the consumers has no address. */
  lemma {:induction false} NoAddressesOf(consumers: seq<Consumer>, ids: seq<seq<Id>>, uid: Id)
    requires |ids| == |consumers|
    requires forall i :: 0 <= i < |consumers| ==> consumers[i].id != uid
    ensures AddressesOfUser(AddressBooks(consumers, ids), uid) == []
    decreases |consumers|
  {
    if consumers != [] {
      var n := |consumers| - 1;
      NoAddressesOf(consumers[..n], ids[..n], uid);
      FilterSkipLast(AddressBooks(consumers[..n], ids[..n]), AddressesFor(consumers[n], ids[n]), UserIs(uid));
    }
  }

  /** With distinct consumer ids, consumer i's addresses are exactly the ones drawn for it. */
  lemma {:induction false} AddressesOfConsumer(consumers: seq<Consumer>, ids: seq<seq<Id>>, i: nat)
    requires |ids| == |consumers| && DistinctConsumers(consumers) && i < |consumers|
    ensures AddressesOfUser(AddressBooks(consumers, ids), consumers[i].id) == AddressesFor(consumers[i], ids[i])
    decreases |consumers|
  {
    var n := |consumers| - 1;
    var prefix := AddressBooks(consumers[..n], ids[..n]);
    var last := AddressesFor(consumers[n], ids[n]);
    var p := UserIs(consumers[i].id);
    if i == n {
      NoAddressesOf(consumers[..n], ids[..n], consumers[n].id);
      FilterOnlyLast(prefix, last, p);
    } else {
      assert consumers[..n][i] == consumers[i];
      assert ids[..n][i] == ids[i];
      AddressesOfConsumer(consumers[..n], ids[..n], i);
      FilterSkipLast(prefix, last, p);
    }
  }

  /** Each consumer has 1 to 3 addresses; the first is the default and no other is. */
  lemma AddressDefaults(consumers: seq<Consumer>, ids: seq<seq<Id>>, i: nat)
    requires ValidAddressDraws(ids, consumers) && DistinctConsumers(consumers) && i < |consumers|
    ensures var book := AddressesOfUser(AddressBooks(consumers, ids), consumers[i].id);
      && 1 <= |book| <= 3
      && (forall j :: 0 <= j < |book| ==> (book[j].isDefault <==> j == 0))
  {
    AddressesOfConsumer(consumers, ids, i);
  }

  // ---------------------------------------------------------------------------
  // cards
  // ---------------------------------------------------------------------------

  /** A card draw: its id and the Faker card number. */
  datatype CardDraw = CardDraw(id: Id, number: string)

  /** random.randint(1, 3) cards per consumer. */
  predicate ValidCardDraws(draws: seq<seq<CardDraw>>, consumers: seq<Consumer>) {
    |draws| == |consumers| && forall i :: 0 <= i < |draws| ==> 1 <= |draws[i]| <= 3
  }

  /** Python's number[-4:]: the last four characters, or all of them when there are fewer. */
  function Last4(number: string): (r: string)
    ensures |r| == Min(4, |number|)
    ensures number == number[..|number| - |r|] + r
  {
    if |number| <= 4 then number else number[|number| - 4..]
  }

  /** One consumer's cards: the token is the hash of the number and the first card is the default one. */
  function CardsFor(c: Consumer, draws: seq<CardDraw>, hash: string -> string): (r: seq<Card>)
    ensures |r| == |draws|
    ensures forall j :: 0 <= j < |r| ==>
      r[j] == Card(draws[j].id, c.id, hash(draws[j].number), Last4(draws[j].number), j == 0)
  {
    seq(|draws|, j requires 0 <= j < |draws| =>
      Card(draws[j].id, c.id, hash(draws[j].number), Last4(draws[j].number), j == 0))
  }

  function AllCards(consumers: seq<Consumer>, draws: seq<seq<CardDraw>>, hash: string -> string): seq<Card>
    requires |draws| == |consumers|
    decreases |consumers|
  {
    if consumers == [] then []
    else
      var n := |consumers| - 1;
      AllCards(consumers[..n], draws[..n], hash) + CardsFor(consumers[n], draws[n], hash)
  }

  /** consumer_cards_map: each consumer id mapped to the cards made for it (last one wins on a repeated id). */
  function CardsMap(consumers: seq<Consumer>, draws: seq<seq<CardDraw>>, hash: string -> string): map<Id, seq<Card>>
    requires |draws| == |consumers|
    decreases |consumers|
  {
    if consumers == [] then map[]
    else
      var n := |consumers| - 1;
      CardsMap(consumers[..n], draws[..n], hash)[consumers[n].id := CardsFor(consumers[n], draws[n], hash)]
  }

  /** generate_cards: the card list and the per-consumer map. */
  method GenerateCards(consumers: seq<Consumer>, draws: seq<seq<CardDraw>>, hash: string -> string)
    returns (cards: seq<Card>, cardsMap: map<Id, seq<Card>>)
    requires ValidCardDraws(draws, consumers)
    ensures cards == AllCards(consumers, draws, hash)
    ensures cardsMap == CardsMap(consumers, draws, hash)
  {
    cards, cardsMap := [], map[];
    var i := 0;
    while i < |consumers|
      invariant 0 <= i <= |consumers|
      invariant cards == AllCards(consumers[..i], draws[..i], hash)
      invariant cardsMap == CardsMap(consumers[..i], draws[..i], hash)
    {
      var consumerCards := [];
      var j := 0;
      while j < |draws[i]|
        invariant 0 <= j <= |draws[i]|
        invariant consumerCards == CardsFor(consumers[i], draws[i], hash)[..j]
        invariant cards == AllCards(consumers[..i], draws[..i], hash) + consumerCards
      {
        var d := draws[i][j];
        var card := Card(d.id, consumers[i].id, hash(d.number), Last4(d.number), j == 0);
        cards := cards + [card];
        consumerCards := consumerCards + [card];
        assert CardsFor(consumers[i], draws[i], hash)[..j + 1] == CardsFor(consumers[i], draws[i], hash)[..j] + [card];
        j := j + 1;
      }
      assert consumers[..i + 1][..i] == consumers[..i];
      assert draws[..i + 1][..i] == draws[..i];
      assert consumerCards == CardsFor(consumers[i], draws[i], hash);
      cardsMap := cardsMap[consumers[i].id := consumerCards];
      i := i + 1;
    }
    assert consumers[..i] == consumers;
    assert draws[..i] == draws;
  }

  function CardOwnerIs(cid: Id): Card -> bool {
    (c: Card) => c.consumerId == cid
  }

  /** The cards of consumer cid, in table order. */
  function CardsOfConsumer(cards: seq<Card>, cid: Id): seq<Card> {
    Filter(cards, CardOwnerIs(cid))
  }

  /** Every card belongs to one of the consumers. */
  lemma {:induction false} CardsNameConsumers(consumers: seq<Consumer>, draws: seq<seq<CardDraw>>, hash: string -> string)
    requires |draws| == |consumers|
    ensures forall c :: c in AllCards(consumers, draws, hash) ==>
      exists i :: 0 <= i < |consumers| && c.consumerId == consumers[i].id
    decreases |consumers|
  {
    if consumers != [] {
      var n := |consumers| - 1;
      CardsNameConsumers(consumers[..n], draws[..n], hash);
      forall c | c in AllCards(consumers, draws, hash)
        ensures exists i :: 0 <= i < |consumers| && c.consumerId == consumers[i].id
      {
        if c in AllCards(consumers[..n], draws[..n], hash) {
          var i :| 0 <= i < n && c.consumerId == consumers[..n][i].id;
          assert consumers[..n][i] == consumers[i];
        } else {
          assert c.consumerId == consumers[n].id;
        }
      }
    }
  }

  /** A consumer id that is none of the consumers has no card. */
  lemma {:induction false} NoCardsOf(consumers: seq<Consumer>, draws: seq<seq<CardDraw>>, hash: string -> string, cid: Id)
    requires |draws| == |consumers|
    requires forall i :: 0 <= i < |consumers| ==> consumers[i].id != cid
    ensures CardsOfConsumer(AllCards(consumers, draws, hash), cid) == []
    decreases |consumers|
  {
    if consumers != [] {
      var n := |consumers| - 1;
      NoCardsOf(consumers[..n], draws[..n], hash, cid);
      FilterSkipLast(AllCards(consumers[..n], draws[..n], hash), CardsFor(consumers[n], draws[n], hash), CardOwnerIs(cid));
    }
  }

  /** With distinct consumer ids, consumer i's cards are exactly the ones drawn for it. */
  lemma {:induction false} CardsOfEachConsumer(consumers: seq<Consumer>, draws: seq<seq<CardDraw>>, hash: string -> string, i: nat)
    requires |draws| == |consumers| && DistinctConsumers(consumers) && i < |consumers|
    ensures CardsOfConsumer(AllCards(consumers, draws, hash), consumers[i].id) == CardsFor(consumers[i], draws[i], hash)
    decreases |consumers|
  {
    var n := |consumers| - 1;
    var prefix := AllCards(consumers[..n], draws[..n], hash);
    var last := CardsFor(consumers[n], draws[n], hash);
    var p := CardOwnerIs(consumers[i].id);
    if i == n {
      NoCardsOf(consumers[..n], draws[..n], hash, consumers[n].id);
      FilterOnlyLast(prefix, last, p);
    } else {
      assert consumers[..n][i] == consumers[i];
      assert draws[..n][i] == draws[i];
      CardsOfEachConsumer(consumers[..n], draws[..n], hash, i);
      FilterSkipLast(prefix, last, p);
    }
  }

  /** The map's keys are exactly the consumer ids. */
  lemma {:induction false} CardsMapKeys(consumers: seq<Consumer>, draws: seq<seq<CardDraw>>, hash: string -> string)
    requires |draws| == |consumers|
    ensures forall id :: id in CardsMap(consumers, draws, hash) <==> exists i :: 0 <= i < |consumers| && consumers[i].id == id
    decreases |consumers|
  {
    if consumers != [] {
      var n := |consumers| - 1;
      CardsMapKeys(consumers[..n], draws[..n], hash);
      forall id ensures id in CardsMap(consumers, draws, hash) <==> exists i :: 0 <= i < |consumers| && consumers[i].id == id {
        if id in CardsMap(consumers[..n], draws[..n], hash) {
          var i :| 0 <= i < n && consumers[..n][i].id == id;
          assert consumers[..n][i] == consumers[i];
        }
        if exists i :: 0 <= i < |consumers| && consumers[i].id == id {
          var i :| 0 <= i < |consumers| && consumers[i].id == id;
          if i < n { assert consumers[..n][i] == consumers[i]; }
        }
      }
    }
  }

  /** With distinct consumer ids, the map entry of a consumer is the cards made for it. */
  lemma {:induction false} CardsMapAt(consumers: seq<Consumer>, draws: seq<seq<CardDraw>>, hash: string -> string, i: nat)
    requires |draws| == |consumers| && DistinctConsumers(consumers) && i < |consumers|
    ensures consumers[i].id in CardsMap(consumers, draws, hash)
    ensures CardsMap(consumers, draws, hash)[consumers[i].id] == CardsFor(consumers[i], draws[i], hash)
    decreases |consumers|
  {
    var n := |consumers| - 1;
    if i < n {
      assert consumers[..n][i] == consumers[i];
      assert draws[..n][i] == draws[i];
      assert consumers[i].id != consumers[n].id;
      CardsMapAt(consumers[..n], draws[..n], hash, i);
    }
  }

  /** With distinct consumer ids, the map entry of a consumer holds exactly its cards: the first is the default. */
  lemma CardsMapEntry(consumers: seq<Consumer>, draws: seq<seq<CardDraw>>, hash: string -> string, i: nat)
    requires |draws| == |consumers| && DistinctConsumers(consumers) && i < |consumers|
    ensures consumers[i].id in CardsMap(consumers, draws, hash)
    ensures CardsMap(consumers, draws, hash)[consumers[i].id] == CardsOfConsumer(AllCards(consumers, draws, hash), consumers[i].id)
    ensures |CardsMap(consumers, draws, hash)[consumers[i].id]| == |draws[i]|
    ensures forall j :: 0 <= j < |draws[i]| ==>
      (CardsMap(consumers, draws, hash)[consumers[i].id][j].isDefault <==> j == 0)
  {
    CardsMapAt(consumers, draws, hash, i);
    CardsOfEachConsumer(consumers, draws, hash, i);
  }
}
