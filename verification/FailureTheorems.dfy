/** Calls on which some app fails: which error the multiplexer returns. */
module FailureTheorems {
  import opened Abci
  import opened ChainAppIds
  import opened MuxSpec

  /** The apps that fail all give the same error. */
  ghost predicate OneError<T, R>(calls: Calls<T, R>) {
    forall a, b :: a in calls && b in calls && calls[a].reply.Err? && calls[b].reply.Err? ==>
                     calls[a].reply == calls[b].reply
  }

  lemma FailuresAgree<T, R>(apps: Apps<T>, calls: Calls<T, R>, apps1: Apps<T>, e1: Error, apps2: Apps<T>, e2: Error)
    requires OneError(calls) && Failed(apps, calls, apps1, e1) && Failed(apps, calls, apps2, e2)
    ensures e1 == e2
  {
    hide After;
  }

  lemma NoFailure<T(!new), R>(apps: Apps<T>, calls: Calls<T, R>)
    requires AllOk(calls)
    ensures forall apps': Apps<T>, e :: !Failed(apps, calls, apps', e)
  {
    hide After;
  }

  /** Any failing app may be the one whose error is returned. */
  lemma MayFailWith<T, R>(apps: Apps<T>, calls: Calls<T, R>, id: ChainAppIdentifier)
    requires id in calls && calls[id].reply.Err?
    ensures Failed(apps, calls, After(apps, calls, {id}), calls[id].reply.error)
  {
    hide After;
    assert FailedAt(apps, calls, After(apps, calls, {id}), calls[id].reply.error, {id});
  }

  lemma TwoErrors<T, R>(calls: Calls<T, R>) returns (a: ChainAppIdentifier, b: ChainAppIdentifier)
    requires !OneError(calls)
    ensures a in calls && b in calls && calls[a].reply.Err? && calls[b].reply.Err?
    ensures calls[a].reply.error != calls[b].reply.error
  {
    a, b :| a in calls && b in calls && calls[a].reply.Err? && calls[b].reply.Err? && calls[a].reply != calls[b].reply;
  }

  lemma SomeFails<T, R>(calls: Calls<T, R>)
    ensures AllOk(calls) <==> !exists id :: id in calls && calls[id].reply.Err?
    ensures AllOk(calls) ==> Values(calls).Keys == calls.Keys
  {
  }
}
