/** Headers, and the way one block is taken apart into a sub-block per app. */
module Routing {
  import opened Abci
  import opened ChainAppIds

  const MAGIC: Bytes := [0x23, 0x6d, 0x75, 0x78]
  const HEADER_LEN := 8

  type Digest = s: Bytes | |s| == 20 witness seq(20, _ => 0)

  /** SHA-1 is not computed here: any function to 20 bytes may stand for it. */
  type Hash = Bytes -> Digest

  function AppId(sha1: Hash, chainID: Bytes): ChainAppIdentifier {
    sha1(chainID)[..5][..4]
  }

  function CreateMegablocksHeader(sha1: Hash, chainID: Bytes): Bytes {
    MAGIC + sha1(chainID)[..4]
  }

  function CheckHeader(tx: Bytes): Option<Error> {
    if |tx| < HEADER_LEN then Some(InvalidHeaderLength)
    else if tx[..4] != MAGIC then Some(InvalidMagic)
    else None
  }

  /** `tx` carries a valid header with identifier `id`. */
  predicate Names(tx: Bytes, id: ChainAppIdentifier) {
    CheckHeader(tx).None? && tx[4..8] == id
  }

  predicate Routable(ids: set<ChainAppIdentifier>, tx: Bytes) {
    CheckHeader(tx).None? && tx[4..8] in ids
  }

  predicate AllRoutable(ids: set<ChainAppIdentifier>, txs: seq<Bytes>) {
    forall i :: 0 <= i < |txs| ==> Routable(ids, txs[i])
  }

  function Strip(tx: Bytes): Bytes {
    if |tx| < HEADER_LEN then [] else tx[HEADER_LEN..]
  }

  function Owner(tx: Bytes): ChainAppIdentifier
    requires CheckHeader(tx).None?
  {
    tx[4..8]
  }

  /** The payloads addressed to `id`, in block order. */
  function SubBlock(txs: seq<Bytes>, id: ChainAppIdentifier): seq<Bytes> {
    if |txs| == 0 then []
    else
      var n := |txs| - 1;
      SubBlock(txs[..n], id) + if Names(txs[n], id) then [Strip(txs[n])] else []
  }

  /** The positions in the block of the transactions addressed to `id`. */
  function Slots(txs: seq<Bytes>, id: ChainAppIdentifier): seq<nat> {
    if |txs| == 0 then []
    else
      var n := |txs| - 1;
      Slots(txs[..n], id) + if Names(txs[n], id) then [n] else []
  }

  /** How many earlier transactions of the block are addressed to the app of transaction `i`. */
  function Rank(txs: seq<Bytes>, i: nat): nat
    requires i < |txs| && CheckHeader(txs[i]).None?
  {
    |SubBlock(txs[..i], Owner(txs[i]))|
  }

  /** Slot `r` of an app holds the transaction whose payload is number `r` of its sub-block, and the slots increase. */
  lemma {:induction false} SlotsMatch(txs: seq<Bytes>, id: ChainAppIdentifier)
    ensures |Slots(txs, id)| == |SubBlock(txs, id)|
    ensures forall r :: 0 <= r < |Slots(txs, id)| ==>
              && Slots(txs, id)[r] < |txs|
              && Names(txs[Slots(txs, id)[r]], id)
              && SubBlock(txs, id)[r] == Strip(txs[Slots(txs, id)[r]])
    ensures forall r, q :: 0 <= r < q < |Slots(txs, id)| ==> Slots(txs, id)[r] < Slots(txs, id)[q]
  {
    if |txs| != 0 {
      SlotsMatch(txs[..|txs| - 1], id);
    }
  }

  lemma OneMore(txs: seq<Bytes>, n: nat, id: ChainAppIdentifier)
    requires n < |txs|
    ensures SubBlock(txs[..n + 1], id)
            == if Names(txs[n], id) then SubBlock(txs[..n], id) + [Strip(txs[n])] else SubBlock(txs[..n], id)
    ensures Slots(txs[..n + 1], id) == if Names(txs[n], id) then Slots(txs[..n], id) + [n] else Slots(txs[..n], id)
  {
    assert txs[..n + 1][..n] == txs[..n];
  }

  lemma {:induction false} SlotsPrefix(txs: seq<Bytes>, i: nat, id: ChainAppIdentifier)
    requires i <= |txs|
    ensures Slots(txs[..i], id) <= Slots(txs, id)
    decreases |txs|
  {
    if i == |txs| {
      assert txs[..i] == txs;
    } else {
      var front := txs[..|txs| - 1];
      assert front[..i] == txs[..i];
      SlotsPrefix(front, i, id);
    }
  }

  /** Scattering undoes gathering: every routed transaction sits in the slot of its own rank. */
  lemma RankFindsSlot(txs: seq<Bytes>, i: nat)
    requires i < |txs| && CheckHeader(txs[i]).None?
    ensures var id, r := Owner(txs[i]), Rank(txs, i);
            && r < |Slots(txs, id)| && Slots(txs, id)[r] == i
            && r < |SubBlock(txs, id)| && SubBlock(txs, id)[r] == Strip(txs[i])
  {
    var id := Owner(txs[i]);
    SlotsPrefix(txs, i + 1, id);
    assert txs[..i + 1][..i] == txs[..i];
    SlotsMatch(txs[..i], id);
    SlotsMatch(txs, id);
  }

  lemma SlotHasRank(txs: seq<Bytes>, id: ChainAppIdentifier, r: nat)
    requires r < |Slots(txs, id)|
    ensures Slots(txs, id)[r] < |txs| && Names(txs[Slots(txs, id)[r]], id)
    ensures Rank(txs, Slots(txs, id)[r]) == r
  {
    SlotsMatch(txs, id);
    RankFindsSlot(txs, Slots(txs, id)[r]);
  }

  /** The slot lists of the apps divide a routable block among them: every position is in one list, once. */
  lemma SlotsPartition(ids: set<ChainAppIdentifier>, txs: seq<Bytes>, i: nat)
    requires AllRoutable(ids, txs) && i < |txs|
    ensures exists id, r :: id in ids && 0 <= r < |Slots(txs, id)| && Slots(txs, id)[r] == i
    ensures forall id1, r1, id2, r2 ::
              && 0 <= r1 < |Slots(txs, id1)| && Slots(txs, id1)[r1] == i
              && 0 <= r2 < |Slots(txs, id2)| && Slots(txs, id2)[r2] == i ==>
                id1 == id2 && r1 == r2
  {
    assert Routable(ids, txs[i]);
    RankFindsSlot(txs, i);
    forall id, r | 0 <= r < |Slots(txs, id)| && Slots(txs, id)[r] == i
      ensures id == Owner(txs[i]) && r == Rank(txs, i)
    {
      SlotHasRank(txs, id, r);
    }
  }

  /** What a routed transaction is made of. */
  lemma HeaderAndPayload(tx: Bytes)
    requires CheckHeader(tx).None?
    ensures tx == MAGIC + Owner(tx) + Strip(tx)
  {
    assert tx == tx[..4] + tx[4..8] + tx[8..];
  }

  datatype AbciHandler = AbciHandler(id: ChainAppIdentifier, chainID: Bytes, initAppState: Bytes)

  type Clients = map<ChainAppIdentifier, AbciHandler>

  /** Each handler is filed under its own identifier, which is the hash of its chain id. */
  ghost predicate Registered(sha1: Hash, clients: Clients) {
    forall id :: id in clients ==> clients[id].id == id && AppId(sha1, clients[id].chainID) == id
  }

  /** The header made for a registered chain leads back to it and to nothing else, with the payload left over.
      Two registered chains never share an identifier, so nothing is assumed about collisions. */
  lemma HeaderRoundTrip(sha1: Hash, clients: Clients, id: ChainAppIdentifier, payload: Bytes)
    requires Registered(sha1, clients) && id in clients
    ensures var tx := CreateMegablocksHeader(sha1, clients[id].chainID) + payload;
            && Routable(clients.Keys, tx)
            && (forall other :: Names(tx, other) <==> other == id)
            && Strip(tx) == payload
    ensures forall other :: other in clients && clients[other].chainID == clients[id].chainID ==> other == id
  {
    var chain := clients[id].chainID;
    var tx := CreateMegablocksHeader(sha1, chain) + payload;
    assert sha1(chain)[..5][..4] == sha1(chain)[..4];
    assert tx[..4] == MAGIC;
    assert tx[4..8] == id;
  }

  /** The header byte by byte, and the identifier it carries. */
  lemma HeaderBytes(sha1: Hash, chainID: Bytes)
    ensures var digest := sha1(chainID);
            && CreateMegablocksHeader(sha1, chainID)
               == [0x23, 0x6d, 0x75, 0x78, digest[0], digest[1], digest[2], digest[3]]
            && AppId(sha1, chainID) == [digest[0], digest[1], digest[2], digest[3]]
  {
  }

  /** What is wrong with a transaction that has no valid header. */
  lemma HeaderVerdict(tx: Bytes)
    ensures CheckHeader(tx) == Some(InvalidHeaderLength) <==> |tx| < 8
    ensures CheckHeader(tx) == Some(InvalidMagic) <==> |tx| >= 8 && tx[..4] != [0x23, 0x6d, 0x75, 0x78]
    ensures CheckHeader(tx) == None <==> |tx| >= 8 && tx[..4] == [0x23, 0x6d, 0x75, 0x78]
  {
  }

  // Sub-blocks of the smallest blocks

  /** `tx` carries the header of `id` and this payload. */
  ghost predicate IsFor(tx: Bytes, id: ChainAppIdentifier, payload: Bytes) {
    && CheckHeader(tx).None? && Owner(tx) == id && Strip(tx) == payload
    && forall other :: Names(tx, other) <==> other == id
  }

  lemma Addressed(id: ChainAppIdentifier, payload: Bytes)
    ensures IsFor(MAGIC + id + payload, id, payload)
  {
    var tx := MAGIC + id + payload;
    assert tx[..4] == MAGIC && tx[4..8] == id;
  }

  lemma NoPart(txs: seq<Bytes>, id: ChainAppIdentifier)
    requires |txs| == 0
    ensures SubBlock(txs, id) == []
  {
  }

  lemma OnePart(id: ChainAppIdentifier, payload: Bytes, txs: seq<Bytes>, ids: set<ChainAppIdentifier>)
    requires id in ids && |txs| == 1 && IsFor(txs[0], id, payload)
    ensures AllRoutable(ids, txs) && SubBlock(txs, id) == [payload]
  {
    hide Names, Strip, CheckHeader, SubBlock;
    OneMore(txs, 0, id);
    NoPart(txs[..0], id);
    assert txs[..1] == txs;
  }

  lemma NoneToRoute(ids: set<ChainAppIdentifier>, txs: seq<Bytes>)
    requires txs == []
    ensures AllRoutable(ids, txs)
  {
  }

  lemma TwoParts(a: ChainAppIdentifier, b: ChainAppIdentifier, p: Bytes, q: Bytes, txs: seq<Bytes>,
                 ids: set<ChainAppIdentifier>)
    requires a != b && a in ids && b in ids
    requires |txs| == 2 && IsFor(txs[0], a, p) && IsFor(txs[1], b, q)
    ensures AllRoutable(ids, txs)
    ensures SubBlock(txs, a) == [p]
    ensures SubBlock(txs, b) == [q]
  {
    hide Names, Strip, CheckHeader, SubBlock;
    OneMore(txs, 0, a);
    OneMore(txs, 0, b);
    OneMore(txs, 1, a);
    OneMore(txs, 1, b);
    NoPart(txs[..0], a);
    NoPart(txs[..0], b);
    assert txs[..2] == txs;
  }
}
