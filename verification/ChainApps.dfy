/** The chain applications at the far end of the handlers' connections. */
module ChainApps {
  import opened Abci
  import opened KvStore

  /** A KV store with its state, or any other app with a state of its own. */
  datatype App<T> = Kv(kv: KvState) | Other(other: T)

  /** Everything outside these files: the database engine, and how apps other than the KV store
      answer a call and move on. */
  datatype Env<!T> = Env(
    badger: Badger,
    finalizeBlock: (T, RequestBlock) -> (T, AppReply<ResponseFinalizeBlock>),
    commit: T -> (T, AppReply<ResponseCommit>),
    processProposal: (T, RequestBlock) -> (T, AppReply<ProposalStatus>),
    initChain: (T, RequestInitChain) -> (T, AppReply<ResponseInitChain>),
    checkTx: (T, Bytes) -> (T, AppReply<ResponseCheckTx>),
    query: (T, RequestQuery) -> AppReply<ResponseQuery>)

  /** What an app becomes and what it answers. */
  datatype Call<T, R> = Call(app: App<T>, reply: AppReply<R>)

  function FinalizeBlock<T>(env: Env<T>, app: App<T>, req: RequestBlock): Call<T, ResponseFinalizeBlock> {
    match app
    case Kv(kv) => var (st, r) := KvFinalizeBlock(env.badger, kv, req); Call(Kv(st), r)
    case Other(o) => var (st, r) := env.finalizeBlock(o, req); Call(Other(st), r)
  }

  function Commit<T>(env: Env<T>, app: App<T>): Call<T, ResponseCommit> {
    match app
    case Kv(kv) => var (st, r) := KvCommit(env.badger, kv); Call(Kv(st), r)
    case Other(o) => var (st, r) := env.commit(o); Call(Other(st), r)
  }

  /** The KV store accepts every proposal. */
  function ProcessProposal<T>(env: Env<T>, app: App<T>, req: RequestBlock): Call<T, ProposalStatus> {
    match app
    case Kv(_) => Call(app, Ok(ACCEPT))
    case Other(o) => var (st, r) := env.processProposal(o, req); Call(Other(st), r)
  }

  function InitChain<T>(env: Env<T>, app: App<T>, req: RequestInitChain): Call<T, ResponseInitChain> {
    match app
    case Kv(_) => Call(app, Ok(ResponseInitChain(None, [], [])))
    case Other(o) => var (st, r) := env.initChain(o, req); Call(Other(st), r)
  }

  function CheckTx<T>(env: Env<T>, app: App<T>, tx: Bytes): Call<T, ResponseCheckTx> {
    match app
    case Kv(_) => Call(app, Ok(ResponseCheckTx(IsValid(tx))))
    case Other(o) => var (st, r) := env.checkTx(o, tx); Call(Other(st), r)
  }

  function Query<T>(env: Env<T>, app: App<T>, req: RequestQuery): AppReply<ResponseQuery> {
    match app
    case Kv(kv) => KvQuery(env.badger, kv, req)
    case Other(o) => env.query(o, req)
  }
}
