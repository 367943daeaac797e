/** What a committed block means for the key-value store. */
module KvTheorems {
  import opened Abci
  import opened KvStore

  /** The store one transaction leaves behind when it is applied on its own. */
  function ApplyTx(db: Store, tx: Bytes): Store {
    if IsValid(tx) == 0 then db[KeyOf(tx) := ValueOf(tx)] else db
  }

  function ApplyAll(db: Store, txs: seq<Bytes>): Store {
    if |txs| == 0 then db else ApplyTx(ApplyAll(db, txs[..|txs| - 1]), txs[|txs| - 1])
  }

  function Codes(txs: seq<Bytes>): seq<Option<ExecTxResult>> {
    seq(|txs|, i requires 0 <= i < |txs| => Some(ExecTxResult(IsValid(txs[i]), [])))
  }

  ghost predicate Writes(tx: Bytes, key: Bytes) {
    IsValid(tx) == 0 && KeyOf(tx) == key
  }

  /** The loop of FinalizeBlock survives exactly when the database takes every valid transaction; it then
      collects the writes and codes of applying the transactions one by one. */
  lemma {:induction false} ScanMeaning(badger: Badger, txs: seq<Bytes>, db: Store)
    ensures Scan(badger, txs).ok <==>
            forall i :: 0 <= i < |txs| && IsValid(txs[i]) == 0 ==> badger.setOk(KeyOf(txs[i]), ValueOf(txs[i]))
    ensures Scan(badger, txs).ok ==>
              db + Scan(badger, txs).writes == ApplyAll(db, txs) && Scan(badger, txs).results == Codes(txs)
  {
    if |txs| == 0 {
      assert db + map[] == db;
    } else {
      var front, tx := txs[..|txs| - 1], txs[|txs| - 1];
      ScanMeaning(badger, front, db);
      assert forall i :: 0 <= i < |front| ==> front[i] == txs[i];
      assert Codes(txs) == Codes(front) + [Some(ExecTxResult(IsValid(tx), []))];
    }
  }

  /** The last valid transaction on a key decides; keys no valid transaction names keep their old value. */
  lemma {:induction false} LastWriteWins(db: Store, txs: seq<Bytes>, key: Bytes)
    ensures key in ApplyAll(db, txs) <==> key in db || exists i :: 0 <= i < |txs| && Writes(txs[i], key)
    ensures forall i :: 0 <= i < |txs| && Writes(txs[i], key)
                        && (forall j :: i < j < |txs| ==> !Writes(txs[j], key)) ==>
                          key in ApplyAll(db, txs) && ApplyAll(db, txs)[key] == ValueOf(txs[i])
    ensures (forall i :: 0 <= i < |txs| ==> !Writes(txs[i], key)) && key in db ==>
              key in ApplyAll(db, txs) && ApplyAll(db, txs)[key] == db[key]
  {
    if |txs| != 0 {
      var front, tx := txs[..|txs| - 1], txs[|txs| - 1];
      LastWriteWins(db, front, key);
      assert forall i :: 0 <= i < |front| ==> front[i] == txs[i];
      assert Writes(tx, key) || !Writes(tx, key);
    }
  }

  lemma {:induction false} ApplyConcat(db: Store, a: seq<Bytes>, b: seq<Bytes>)
    ensures ApplyAll(db, a + b) == ApplyAll(ApplyAll(db, a), b)
  {
    if b == [] {
      assert a + b == a;
    } else {
      assert (a + b)[..|a + b| - 1] == a + b[..|b| - 1];
      ApplyConcat(db, a, b[..|b| - 1]);
    }
  }

  function Flatten(blocks: seq<RequestBlock>): seq<Bytes> {
    if |blocks| == 0 then [] else Flatten(blocks[..|blocks| - 1]) + blocks[|blocks| - 1].txs
  }

  datatype KvRun = KvRun(st: KvState, results: seq<Option<ExecTxResult>>)

  /** FinalizeBlock then Commit for each block in turn; None as soon as one of them fails. */
  function RunBlocks(badger: Badger, st: KvState, blocks: seq<RequestBlock>): Option<KvRun> {
    if |blocks| == 0 then Some(KvRun(st, []))
    else
      match RunBlocks(badger, st, blocks[..|blocks| - 1])
      case None => None
      case Some(run) =>
        var (finalized, response) := KvFinalizeBlock(badger, run.st, blocks[|blocks| - 1]);
        var (committed, done) := KvCommit(badger, finalized);
        if response.Ok? && done.Ok? then Some(KvRun(committed, run.results + response.value.txResults)) else None
  }

  /** A block that is finalized and committed leaves the old store with the block's transactions applied one by one. */
  lemma BlockMeaning(badger: Badger, st: KvState, req: RequestBlock)
    requires KvFinalizeBlock(badger, st, req).1.Ok?
    requires KvCommit(badger, KvFinalizeBlock(badger, st, req).0).1.Ok?
    ensures KvCommit(badger, KvFinalizeBlock(badger, st, req).0).0.db == ApplyAll(st.db, req.txs)
    ensures KvFinalizeBlock(badger, st, req).1.value.txResults == Codes(req.txs)
  {
    ScanMeaning(badger, req.txs, st.db);
  }

  /** What a client reads of a block. Until it is committed, and when Commit fails, every query is answered as before
      the block. Then the value of a key is that of the block's last valid transaction on it, and keys that none
      names are answered as before. Committing the block once more shows in no answer. */
  lemma CommitThenQuery(badger: Badger, st: KvState, req: RequestBlock, key: Bytes, chain: Bytes)
    ensures var (finalized, response) := KvFinalizeBlock(badger, st, req);
            var (committed, done) := KvCommit(badger, finalized);
            var q := RequestQuery(chain, key);
            && KvQuery(badger, finalized, q) == KvQuery(badger, st, q)
            && (done.Err? ==> KvQuery(badger, committed, q) == KvQuery(badger, st, q))
            && KvQuery(badger, KvCommit(badger, committed).0, q) == KvQuery(badger, committed, q)
            && (response.Ok? && done.Ok? ==>
                  && (forall i :: 0 <= i < |req.txs| && Writes(req.txs[i], key)
                                  && (forall j :: i < j < |req.txs| ==> !Writes(req.txs[j], key)) ==>
                        KvQuery(badger, committed, q)
                        == if badger.getOk(key) then Ok(ResponseQuery(key, ValueOf(req.txs[i]), "exists"))
                           else Err(DatabaseError))
                  && ((forall i :: 0 <= i < |req.txs| ==> !Writes(req.txs[i], key)) ==>
                        KvQuery(badger, committed, q) == KvQuery(badger, st, q)))
  {
    ScanMeaning(badger, req.txs, st.db);
    LastWriteWins(st.db, req.txs, key);
    hide Writes, Scan, ApplyAll, ValueOf;
  }

  lemma {:induction false} RunMeaning(badger: Badger, st: KvState, blocks: seq<RequestBlock>)
    requires RunBlocks(badger, st, blocks).Some?
    ensures RunBlocks(badger, st, blocks).value.st.db == ApplyAll(st.db, Flatten(blocks))
    ensures RunBlocks(badger, st, blocks).value.results == Codes(Flatten(blocks))
  {
    hide KvFinalizeBlock, KvCommit;
    if |blocks| != 0 {
      var front, last := blocks[..|blocks| - 1], blocks[|blocks| - 1];
      hide Codes, ApplyAll;
      RunMeaning(badger, st, front);
      var run := RunBlocks(badger, st, front).value;
      BlockMeaning(badger, run.st, last);
      ApplyConcat(st.db, Flatten(front), last.txs);
      CodesAppend(Flatten(front), last.txs);
    }
  }

  lemma CodesAppend(a: seq<Bytes>, b: seq<Bytes>)
    ensures Codes(a + b) == Codes(a) + Codes(b)
  {
    hide IsValid;
  }

  /** Where the blocks are cut does not matter: two ways of batching one transaction sequence end in
      the same store with the same results. */
  lemma BatchSplitInvariance(badger: Badger, st: KvState, a: seq<RequestBlock>, b: seq<RequestBlock>)
    requires Flatten(a) == Flatten(b)
    requires RunBlocks(badger, st, a).Some? && RunBlocks(badger, st, b).Some?
    ensures RunBlocks(badger, st, a).value.st.db == RunBlocks(badger, st, b).value.st.db
    ensures RunBlocks(badger, st, a).value.results == RunBlocks(badger, st, b).value.results
  {
    RunMeaning(badger, st, a);
    RunMeaning(badger, st, b);
  }
}
