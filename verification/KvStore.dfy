/** The key-value chain application (app/kvstore/app.go). */
module KvStore {
  import opened Abci

  const EQUALS: byte := 61

  /** Position of the first '=' in `tx`, or its length when there is none. */
  function Index(tx: Bytes): (i: nat)
    ensures i <= |tx|
    ensures i < |tx| ==> tx[i] == EQUALS
    ensures EQUALS !in tx[..i]
  {
    if |tx| == 0 || tx[0] == EQUALS then 0
    else
      var i := 1 + Index(tx[1..]);
      assert tx[..i] == [tx[0]] + tx[1..][..i - 1];
      i
  }

  function Count(tx: Bytes): nat {
    if |tx| == 0 then 0 else (if tx[0] == EQUALS then 1 else 0) + Count(tx[1..])
  }

  /** bytes.SplitN(tx, "=", n) for a positive n: at most n parts, the last one left uncut. */
  function SplitN(tx: Bytes, n: nat): seq<Bytes>
    requires n > 0
  {
    var i := Index(tx);
    if n == 1 || i == |tx| then [tx] else [tx[..i]] + SplitN(tx[i + 1..], n - 1)
  }

  /** bytes.Split(tx, "="): as many parts as there are, one more than the separators. */
  function Split(tx: Bytes): seq<Bytes> {
    SplitN(tx, Count(tx) + 1)
  }

  function IsValid(tx: Bytes): nat {
    if |Split(tx)| != 2 then 1 else 0
  }

  /** What a client sends to write `value` under `key`. */
  function Print(key: Bytes, value: Bytes): Bytes {
    key + [EQUALS] + value
  }

  lemma {:induction false} CountSplits(tx: Bytes, n: nat)
    requires n > 0
    ensures |SplitN(tx, n)| == if Count(tx) + 1 < n then Count(tx) + 1 else n
    decreases |tx|, 1
  {
    CountFromIndex(tx);
    var i := Index(tx);
    if n != 1 && i != |tx| {
      CountSplits(tx[i + 1..], n - 1);
    }
  }

  lemma {:induction false} CountFromIndex(tx: Bytes)
    ensures var i := Index(tx);
            Count(tx) == if i == |tx| then 0 else 1 + Count(tx[i + 1..])
    decreases |tx|, 0
  {
    if |tx| != 0 && tx[0] != EQUALS {
      CountFromIndex(tx[1..]);
      var i := Index(tx);
      if i < |tx| {
        assert tx[1..][i..] == tx[i + 1..];
      }
    }
  }

  lemma CountZero(tx: Bytes)
    ensures Count(tx) == 0 <==> EQUALS !in tx
  {
    CountFromIndex(tx);
    if Index(tx) == |tx| {
      assert tx[..|tx|] == tx;
    } else {
      assert tx[Index(tx)] in tx;
    }
  }

  /** A transaction is valid exactly when it holds one '='; FinalizeBlock's SplitN then finds the two
      parts that isValid's Split found, neither holds an '=', and printing them restores the transaction. */
  lemma ParseThenPrint(tx: Bytes)
    ensures IsValid(tx) == 0 <==> Count(tx) == 1
    ensures IsValid(tx) == 0 ==>
              && SplitN(tx, 2) == Split(tx)
              && |SplitN(tx, 2)| == 2
              && EQUALS !in KeyOf(tx) && EQUALS !in ValueOf(tx)
              && Print(KeyOf(tx), ValueOf(tx)) == tx
  {
    CountSplits(tx, Count(tx) + 1);
    if Count(tx) == 1 {
      OneSeparator(tx);
    }
  }

  lemma OneSeparator(tx: Bytes)
    requires Count(tx) == 1
    ensures var i := Index(tx);
            i < |tx| && SplitN(tx, 2) == [tx[..i], tx[i + 1..]] && EQUALS !in tx[..i] && EQUALS !in tx[i + 1..]
    ensures Print(tx[..Index(tx)], tx[Index(tx) + 1..]) == tx
  {
    CountFromIndex(tx);
    var i := Index(tx);
    CountZero(tx[i + 1..]);
    CutAt(tx, i);
    hide Index, Count, Print;
  }

  lemma CutAt(tx: Bytes, i: nat)
    requires i < |tx| && tx[i] == EQUALS
    ensures Print(tx[..i], tx[i + 1..]) == tx
  {
  }

  /** Printing then parsing gives the pair back exactly when neither part holds an '='. */
  lemma PrintThenParse(key: Bytes, value: Bytes)
    ensures EQUALS !in key && EQUALS !in value <==>
            IsValid(Print(key, value)) == 0 && KeyOf(Print(key, value)) == key && ValueOf(Print(key, value)) == value
  {
    var tx := Print(key, value);
    ParseThenPrint(tx);
    CountFromIndex(tx);
    var i := Index(tx);
    assert tx[|key|] == EQUALS;
    if EQUALS !in key {
      assert forall j :: 0 <= j < |key| ==> tx[j] == key[j] && key[j] in key;
      assert forall j :: 0 <= j < i ==> tx[j] == tx[..i][j] && tx[..i][j] in tx[..i];
      assert tx[..i] == key && tx[i + 1..] == value;
      CountZero(value);
      if EQUALS !in value {
        assert SplitN(tx, 2) == [key, value];
      }
    }
  }

  function KeyOf(tx: Bytes): Bytes { SplitN(tx, 2)[0] }

  function ValueOf(tx: Bytes): Bytes {
    if |SplitN(tx, 2)| == 2 then SplitN(tx, 2)[1] else []
  }

  type Store = map<Bytes, Bytes>

  /** A badger read-write transaction. */
  datatype Txn = Txn(writes: Store, discarded: bool)

  /** What the database engine may answer: whether Set, Get and Commit succeed. */
  datatype Badger = Badger(setOk: (Bytes, Bytes) -> bool, getOk: Bytes -> bool, commitOk: Txn -> bool)

  datatype KvState = KvState(db: Store, onGoingBlock: Option<Txn>)

  /** The transaction loop of FinalizeBlock: the writes made, the results filled in, and whether
      every Set succeeded. The first failing Set panics and ends the loop. */
  datatype Progress = Progress(writes: Store, results: seq<Option<ExecTxResult>>, ok: bool)

  function Scan(badger: Badger, txs: seq<Bytes>): Progress {
    if |txs| == 0 then Progress(map[], [], true)
    else
      var p := Scan(badger, txs[..|txs| - 1]);
      var tx := txs[|txs| - 1];
      if !p.ok then p
      else if IsValid(tx) != 0 then p.(results := p.results + [Some(ExecTxResult(IsValid(tx), []))])
      else if !badger.setOk(KeyOf(tx), ValueOf(tx)) then p.(ok := false)
      else Progress(p.writes[KeyOf(tx) := ValueOf(tx)], p.results + [Some(ExecTxResult(0, []))], true)
  }

  function KvFinalizeBlock(badger: Badger, st: KvState, req: RequestBlock): (KvState, Reply<ResponseFinalizeBlock>) {
    var p := Scan(badger, req.txs);
    (st.(onGoingBlock := Some(Txn(p.writes, false))),
     if p.ok then Ok(ResponseFinalizeBlock(p.results, [], [], [], None)) else Err(DatabaseError))
  }

  function KvCommit(badger: Badger, st: KvState): (KvState, Reply<ResponseCommit>) {
    match st.onGoingBlock
    case None => (st, Err(NoOngoingBlock))
    case Some(txn) =>
      var over := Some(txn.(discarded := true));
      if !badger.commitOk(txn) then (st.(onGoingBlock := over), Err(DatabaseError))
      else (KvState(if txn.discarded then st.db else st.db + txn.writes, over), Ok(ResponseCommit(0)))
  }

  function KvQuery(badger: Badger, st: KvState, req: RequestQuery): Reply<ResponseQuery> {
    if !badger.getOk(req.data) then Err(DatabaseError)
    else if req.data in st.db then Ok(ResponseQuery(req.data, st.db[req.data], "exists"))
    else Ok(ResponseQuery(req.data, [], "key does not exist"))
  }

  class KVStoreApplication {
    const badger: Badger
    var db: Store
    var onGoingBlock: Option<Txn>

    function State(): KvState
      reads this
    {
      KvState(db, onGoingBlock)
    }

    constructor (badger: Badger, db: Store)
      ensures this.badger == badger
      ensures State() == KvState(db, None)
    {
      this.badger := badger;
      this.db := db;
      this.onGoingBlock := None;
    }

    method FinalizeBlock(req: RequestBlock) returns (r: Reply<ResponseFinalizeBlock>)
      modifies this`onGoingBlock
      ensures (State(), r) == KvFinalizeBlock(badger, old(State()), req)
      ensures db == old(db) && onGoingBlock.Some? && !onGoingBlock.value.discarded
    {
      var txs := new Option<ExecTxResult>[|req.txs|](_ => None);
      onGoingBlock := Some(Txn(map[], false));
      for i := 0 to |req.txs|
        invariant db == old(db)
        invariant onGoingBlock.Some? && !onGoingBlock.value.discarded
        invariant Scan(badger, req.txs[..i]) == Progress(onGoingBlock.value.writes, txs[..i], true)
      {
        var tx := req.txs[i];
        assert req.txs[..i + 1][..i] == req.txs[..i];
        var code := IsValid(tx);
        if code != 0 {
          txs[i] := Some(ExecTxResult(code, []));
        } else {
          ParseThenPrint(tx);
          var parts := SplitN(tx, 2);
          var key, value := parts[0], parts[1];
          if !badger.setOk(key, value) {
            ScanStopped(badger, req.txs, i + 1);
            return Err(DatabaseError);
          }
          onGoingBlock := Some(Txn(onGoingBlock.value.writes[key := value], false));
          txs[i] := Some(ExecTxResult(0, []));
        }
        assert txs[..i + 1] == txs[..i] + [txs[i]];
      }
      assert req.txs[..|req.txs|] == req.txs;
      assert txs[..|req.txs|] == txs[..];
      r := Ok(ResponseFinalizeBlock(txs[..], [], [], [], None));
    }

    method Commit() returns (r: Reply<ResponseCommit>)
      modifies this
      ensures (State(), r) == KvCommit(badger, old(State()))
      ensures r == Err(NoOngoingBlock) <==> old(onGoingBlock).None?
      ensures r.Err? && old(onGoingBlock).Some? ==> r == Err(DatabaseError)
      ensures r.Ok? ==> r.value.retainHeight == 0
      ensures db == if r.Ok? && !old(onGoingBlock).value.discarded then old(db) + old(onGoingBlock).value.writes
                    else old(db)
    {
      if onGoingBlock.None? {
        return Err(NoOngoingBlock);
      }
      var txn := onGoingBlock.value;
      onGoingBlock := Some(txn.(discarded := true));
      if !badger.commitOk(txn) {
        return Err(DatabaseError);
      }
      if !txn.discarded {
        db := db + txn.writes;
      }
      r := Ok(ResponseCommit(0));
    }

    method Query(req: RequestQuery) returns (r: Reply<ResponseQuery>)
      ensures r == KvQuery(badger, State(), req)
      ensures r.Ok? <==> badger.getOk(req.data)
      ensures r.Err? ==> r == Err(DatabaseError)
      ensures r.Ok? && req.data in db ==> r.value == ResponseQuery(req.data, db[req.data], "exists")
      ensures r.Ok? && req.data !in db ==> r.value == ResponseQuery(req.data, [], "key does not exist")
    {
      if !badger.getOk(req.data) {
        return Err(DatabaseError);
      }
      if req.data in db {
        r := Ok(ResponseQuery(req.data, db[req.data], "exists"));
      } else {
        r := Ok(ResponseQuery(req.data, [], "key does not exist"));
      }
    }

    method InitChain(chain: RequestInitChain) returns (r: Reply<ResponseInitChain>)
      ensures r == Ok(ResponseInitChain(None, [], []))
    {
      r := Ok(ResponseInitChain(None, [], []));
    }

    /** Every proposal is accepted. */
    method ProcessProposal(proposal: RequestBlock) returns (r: Reply<ProposalStatus>)
      ensures r == Ok(1)
    {
      r := Ok(ACCEPT);
    }

    method CheckTx(tx: Bytes) returns (r: Reply<ResponseCheckTx>)
      ensures r.Ok?
      ensures r.value.code == if Count(tx) == 1 then 0 else 1
    {
      ParseThenPrint(tx);
      r := Ok(ResponseCheckTx(IsValid(tx)));
    }
  }

  /** Once a Set has panicked, the rest of the block is not looked at. */
  lemma {:induction false} ScanStopped(badger: Badger, txs: seq<Bytes>, i: nat)
    requires i <= |txs|
    requires !Scan(badger, txs[..i]).ok
    ensures Scan(badger, txs) == Scan(badger, txs[..i])
    decreases |txs|
  {
    if i == |txs| {
      assert txs[..i] == txs;
    } else {
      var front := txs[..|txs| - 1];
      assert front[..i] == txs[..i];
      ScanStopped(badger, front, i);
    }
  }
}
