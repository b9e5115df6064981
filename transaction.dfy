/**
 * `udns_transaction`: start a provider-side transaction, hand its id to
 * the caller's block, commit when the block completes, and roll back and
 * re-raise when the block or the commit raises.  The `with` statement's
 * entry is the client's StartTransaction; its exit is Finish.
 */
module Transaction {
  import opened Remote
  import opened Faults
  import opened Client

  /** How the caller's block (or the whole with statement) ends. */
  datatype Completion = Normal | Threw(exn: Exn)

  /**
   * The calls made on leaving the block, and how the with statement ends,
   * for a transaction id and the way the block ended; h is the trace before.
   */
  function FinishSpec(oracle: Oracle, h: seq<Call>, id: Value, body: Completion): (seq<Call>, Completion)
  {
    match body
    case Normal =>
      var commit := CommitTransaction(id);
      (match Translate(UdnsErrors, oracle(h, commit))
       case Returned(_) => ([commit], Normal)
       case Raised(e) => RollbackThen(oracle, h + [commit], id, e, [commit]))
    case Threw(e) => RollbackThen(oracle, h, id, e, [])
  }

  /** `rollback_transaction(id)` then `raise`: a failing rollback's own exception leaves instead of e. */
  function RollbackThen(oracle: Oracle, h: seq<Call>, id: Value, e: Exn, before: seq<Call>): (seq<Call>, Completion)
  {
    var rollback := RollbackTransaction(id);
    match Translate(UdnsErrors, oracle(h, rollback))
    case Returned(_) => (before + [rollback], Threw(e))
    case Raised(e2) => (before + [rollback], Threw(e2))
  }

  /** The whole with statement for a block that makes no remote calls of its own. */
  function TransactionSpec(oracle: Oracle, h: seq<Call>, body: Value -> Completion): (seq<Call>, Completion)
  {
    match Translate(UdnsErrors, oracle(h, StartTransaction))
    case Raised(e) => ([StartTransaction], Threw(e))
    case Returned(id) =>
      var (calls, out) := FinishSpec(oracle, h + [StartTransaction], id, body(id));
      ([StartTransaction] + calls, out)
  }

  /** Leaving the block: commit after normal completion; otherwise roll back and re-raise. */
  method Finish(client: UltraDNSClient, id: Value, body: Completion) returns (out: Completion)
    modifies client
    ensures var (calls, o) := FinishSpec(client.oracle, old(client.trace), id, body);
            client.trace == old(client.trace) + calls && out == o
  {
    var failure: Exn;
    if body.Normal? {
      var committed := client.CommitTransaction(id);
      if committed.Returned? {
        return Normal;
      }
      failure := committed.exn;
    } else {
      failure := body.exn;
    }
    var rolledBack := client.RollbackTransaction(id);
    if rolledBack.Raised? {
      return Threw(rolledBack.exn);
    }
    out := Threw(failure);
  }

  /** `with udns_transaction(client) as id: body(id)`. */
  method WithTransaction(client: UltraDNSClient, body: Value -> Completion) returns (out: Completion)
    modifies client
    ensures var (calls, o) := TransactionSpec(client.oracle, old(client.trace), body);
            client.trace == old(client.trace) + calls && out == o
  {
    var started := client.StartTransaction();
    if started.Raised? {
      return Threw(started.exn);
    }
    var id := started.value;
    out := Finish(client, id, body(id));
  }

  /** The calls Finish makes all carry the transaction's own id. */
  predicate OnlyFor(calls: seq<Call>, id: Value)
  {
    forall i :: 0 <= i < |calls| ==> calls[i] == CommitTransaction(id) || calls[i] == RollbackTransaction(id)
  }

  /**
   * A block that completes is committed with the started id; rollback
   * follows only when that commit raises.
   */
  lemma CommitAfterNormalBody(oracle: Oracle, h: seq<Call>, id: Value)
    ensures var (calls, out) := FinishSpec(oracle, h, id, Normal);
      && OnlyFor(calls, id)
      && calls[0] == CommitTransaction(id)
      && (Translate(UdnsErrors, oracle(h, CommitTransaction(id))).Returned? <==> calls == [CommitTransaction(id)])
      && (out == Normal <==> Translate(UdnsErrors, oracle(h, CommitTransaction(id))).Returned?)
  {
  }

  /**
   * A block that raises is never committed: rollback is called exactly
   * once, with the same id, and the block's exception is re-raised unless
   * the rollback itself raised.
   */
  lemma RollbackAfterFailedBody(oracle: Oracle, h: seq<Call>, id: Value, e: Exn)
    ensures var (calls, out) := FinishSpec(oracle, h, id, Threw(e));
      && calls == [RollbackTransaction(id)]
      && (Translate(UdnsErrors, oracle(h, RollbackTransaction(id))).Returned? ==> out == Threw(e))
      && (Translate(UdnsErrors, oracle(h, RollbackTransaction(id))).Raised? ==>
            out == Threw(Translate(UdnsErrors, oracle(h, RollbackTransaction(id))).exn))
  {
  }

  /**
   * A commit that raises is followed by a rollback with the same id; the
   * commit's exception is re-raised when the rollback returns, and the
   * rollback's own exception replaces it when the rollback raises.
   */
  lemma RollbackAfterFailedCommit(oracle: Oracle, h: seq<Call>, id: Value, e: Exn)
    requires Translate(UdnsErrors, oracle(h, CommitTransaction(id))) == Raised(e)
    ensures var (calls, out) := FinishSpec(oracle, h, id, Normal);
      var rb := Translate(UdnsErrors, oracle(h + [CommitTransaction(id)], RollbackTransaction(id)));
      && calls == [CommitTransaction(id), RollbackTransaction(id)]
      && (rb.Returned? ==> out == Threw(e))
      && (rb.Raised? ==> out == Threw(rb.exn))
  {
    assert [CommitTransaction(id)] + [RollbackTransaction(id)] == [CommitTransaction(id), RollbackTransaction(id)];
  }

  /** Leaving the block never commits twice, never rolls back twice, and never starts anything. */
  lemma FinishAtMostOnce(oracle: Oracle, h: seq<Call>, id: Value, body: Completion)
    ensures var (calls, out) := FinishSpec(oracle, h, id, body);
      && 1 <= |calls| <= 2
      && OnlyFor(calls, id)
      && (CommitTransaction(id) in calls <==> body.Normal?)
      && (|calls| == 2 ==> calls == [CommitTransaction(id), RollbackTransaction(id)])
      && (out.Normal? <==> calls == [CommitTransaction(id)])
  {
  }

  /** When start_transaction raises, neither commit nor rollback is called and that exception leaves. */
  lemma StartFailureEndsTransaction(oracle: Oracle, h: seq<Call>, body: Value -> Completion, e: Exn)
    requires Translate(UdnsErrors, oracle(h, StartTransaction)) == Raised(e)
    ensures TransactionSpec(oracle, h, body) == ([StartTransaction], Threw(e))
  {
  }

  /**
   * start_transaction is called exactly once, first; the id it returned is
   * the one handed to the block and the only one committed or rolled back.
   */
  lemma StartOnceThenSameId(oracle: Oracle, h: seq<Call>, body: Value -> Completion)
    ensures var (calls, out) := TransactionSpec(oracle, h, body);
      && calls[0] == StartTransaction
      && StartTransaction !in calls[1..]
      && (Translate(UdnsErrors, oracle(h, StartTransaction)).Returned? ==>
            var id := Translate(UdnsErrors, oracle(h, StartTransaction)).value;
            && OnlyFor(calls[1..], id)
            && (CommitTransaction(id) in calls <==> body(id).Normal?))
  {
    match Translate(UdnsErrors, oracle(h, StartTransaction))
    case Raised(e) =>
    case Returned(id) =>
      FinishAtMostOnce(oracle, h + [StartTransaction], id, body(id));
      var (calls, out) := FinishSpec(oracle, h + [StartTransaction], id, body(id));
      assert ([StartTransaction] + calls)[1..] == calls;
  }
}
