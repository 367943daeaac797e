/** The part of the ABCI++ vocabulary that the multiplexer and the KV store exchange. */
module Abci {

  type byte = x: int | 0 <= x < 256
  type Bytes = seq<byte>

  /** A Go pointer or interface value that may be nil. */
  datatype Option<+T> = None | Some(value: T)

  /** The (response, error) pair of an ABCI call. */
  datatype Reply<+T> = Ok(value: T) | Err(error: Error)

  datatype Error =
    | InvalidHeaderLength
    | InvalidMagic
    | InvalidChainReference
    | NoHandlerFound
    | NoHandlerForChainId
    | CheckTxFailed(cause: Error)
    | QueryFailed(cause: Error)
    | NoOngoingBlock
    | DatabaseError
    | AppError(reason: string)

  /** What comes back from an app. Its errors are its own: none is one of the multiplexer's. */
  type AppReply<+T> = r: Reply<T> | r.Err? ==> r.error.NoOngoingBlock? || r.error.DatabaseError? || r.error.AppError?
    witness Err(NoOngoingBlock)

  datatype ExecTxResult = ExecTxResult(code: nat, data: Bytes)
  datatype ValidatorUpdate = ValidatorUpdate(pubKey: Bytes, power: int)
  datatype Event = Event(kind: string, attributes: seq<(string, string)>)
  datatype ConsensusParams = ConsensusParams(maxBytes: int, maxGas: int)

  /** Every field of a block request except its transactions; it is copied to each app as it is. */
  datatype BlockInfo = BlockInfo(height: int, hash: Bytes, proposer: Bytes)

  datatype RequestBlock = RequestBlock(txs: seq<Bytes>, info: BlockInfo)

  datatype ResponseFinalizeBlock = ResponseFinalizeBlock(
    txResults: seq<Option<ExecTxResult>>,
    appHash: Bytes,
    validatorUpdates: seq<ValidatorUpdate>,
    events: seq<Event>,
    consensusParamUpdates: Option<ConsensusParams>)

  /** The protobuf enumeration of proposal statuses is an open int32. */
  type ProposalStatus = int
  const UNKNOWN: ProposalStatus := 0
  const ACCEPT: ProposalStatus := 1
  const REJECT: ProposalStatus := 2

  datatype RequestInitChain = RequestInitChain(
    chainId: Bytes,
    appStateBytes: Bytes,
    consensusParams: Option<ConsensusParams>,
    validators: seq<ValidatorUpdate>)

  datatype ResponseInitChain = ResponseInitChain(
    consensusParams: Option<ConsensusParams>,
    validators: seq<ValidatorUpdate>,
    appHash: Bytes)

  datatype ResponseCommit = ResponseCommit(retainHeight: int)
  datatype ResponseCheckTx = ResponseCheckTx(code: nat)
  datatype RequestQuery = RequestQuery(chainId: Bytes, data: Bytes)
  datatype ResponseQuery = ResponseQuery(key: Bytes, value: Bytes, log: string)
}
