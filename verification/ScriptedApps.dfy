/** A simple kind of app for concrete inputs: it fails as many calls as it is told to and then answers what it is told
    to. */
module ScriptedApps {
  import opened Abci
  import opened KvStore
  import opened ChainApps

  datatype Script = Script(failures: nat, reason: string, appHash: Bytes, retainHeight: int)

  /** An app that never fails and answers FinalizeBlock with this hash. */
  function Hashing(appHash: Bytes): Script {
    Script(0, "", appHash, 0)
  }

  /** An app that fails its next call with this reason and none after it. */
  function FailingOnce(reason: string): Script {
    Script(1, reason, [], 0)
  }

  function Answered<R>(s: Script, value: R): (Script, AppReply<R>) {
    if s.failures > 0 then (s.(failures := s.failures - 1), Err(AppError(s.reason))) else (s, Ok(value))
  }

  function FinalizeScript(s: Script, req: RequestBlock): (Script, AppReply<ResponseFinalizeBlock>) {
    Answered(s, ResponseFinalizeBlock([], s.appHash, [], [], None))
  }

  function CommitScript(s: Script): (Script, AppReply<ResponseCommit>) {
    Answered(s, ResponseCommit(s.retainHeight))
  }

  function ProcessScript(s: Script, req: RequestBlock): (Script, AppReply<ProposalStatus>) {
    Answered(s, ACCEPT)
  }

  function InitScript(s: Script, req: RequestInitChain): (Script, AppReply<ResponseInitChain>) {
    Answered(s, ResponseInitChain(None, [], s.appHash))
  }

  function CheckScript(s: Script, tx: Bytes): (Script, AppReply<ResponseCheckTx>) {
    Answered(s, ResponseCheckTx(0))
  }

  function QueryScript(s: Script, req: RequestQuery): AppReply<ResponseQuery> {
    Answered(s, ResponseQuery(req.data, [], "")).1
  }

  /** Scripted apps beside KV stores whose database never refuses anything. */
  function Scripted(): Env<Script> {
    Env(Badger((key, value) => true, key => true, txn => true),
        FinalizeScript, CommitScript, ProcessScript, InitScript, CheckScript, QueryScript)
  }
}
