/**
 * The dictionary-based `UltraDNSClient` (ultrasoap/ultrasoap.py).  Every
 * remote call goes to an oracle standing for the SOAP service and is
 * recorded in `trace`; every public method is wrapped in fault translation.
 */
module Client {
  import opened UltraTypes
  import opened Remote
  import opened Faults
  import opened Payloads

  /** `response['ResourceRecord']`: the record list of a listing response; other values cannot be indexed. */
  function ResourceRecordList(r: Reply): (t: Reply)
    ensures t.Returned? ==> t.value.RecordList? && t == r
    ensures r.Raised? ==> t == r
  {
    match r
    case Raised(_) => r
    case Returned(v) => if v.RecordList? then r else Raised(PyError("TypeError"))
  }

  /** Python's `all(results)`: every result is truthy (true when there are none). */
  predicate AllTruthy(results: seq<Value>)
  {
    forall i :: 0 <= i < |results| ==> Truthy(results[i])
  }

  /**
   * The loop of `delete_all_records` from record i on, given the trace h so
   * far and the results gathered: the calls trace ends with, and how the
   * loop ends (before the outer translation).
   */
  function DeleteLoop(oracle: Oracle, h: seq<Call>, records: seq<Attrs>, tx: Value, i: nat, results: seq<Value>)
    : (seq<Call>, Reply)
    requires i <= |records|
    decreases |records| - i
  {
    if i == |records| then (h, Returned(Bool(AllTruthy(results))))
    else if "_Guid" !in records[i] then (h, Raised(PyError("AttributeError")))
    else
      var c := DeleteResourceRecord(records[i]["_Guid"], tx);
      match oracle(h, c)
      case Raised(e) => (h + [c], Raised(e))
      case Returned(v) => DeleteLoop(oracle, h + [c], records, tx, i + 1, results + [v])
  }

  /** `delete_all_records` as a whole: the final trace and the translated outcome. */
  function DeleteAll(oracle: Oracle, h: seq<Call>, zoneName: string, rrType: int, tx: Value): (seq<Call>, Reply)
  {
    var g := GetResourceRecordsOfZone(zoneName, rrType);
    match Translate(UdnsErrors, ResourceRecordList(oracle(h, g)))
    case Raised(e) => (h + [g], Raised(e))
    case Returned(v) =>
      if v.RecordList? then
        var (h', r) := DeleteLoop(oracle, h + [g], v.records, tx, 0, []);
        (h', Translate(UdnsErrors, r))
      else (h + [g], Raised(PyError("TypeError")))
  }

  /** The delete call the loop issues for record k. */
  function DeleteOf(records: seq<Attrs>, k: nat, tx: Value): Call
    requires k < |records| && "_Guid" in records[k]
  {
    DeleteResourceRecord(records[k]["_Guid"], tx)
  }

  /** Records i .. i+m-1 all carry a `_Guid`. */
  ghost predicate HaveGuids(records: seq<Attrs>, i: nat, m: nat)
  {
    i + m <= |records| && forall k :: i <= k < i + m ==> "_Guid" in records[k]
  }

  /** The delete calls for records i .. i+m-1, in list order. */
  function DeleteCalls(records: seq<Attrs>, tx: Value, i: nat, m: nat): (cs: seq<Call>)
    requires HaveGuids(records, i, m)
    ensures |cs| == m
    ensures forall k :: 0 <= k < m ==> cs[k] == DeleteOf(records, i + k, tx)
    decreases m
  {
    if m == 0 then [] else [DeleteOf(records, i, tx)] + DeleteCalls(records, tx, i + 1, m - 1)
  }

  /**
   * The loop only appends delete calls, one per record and in list order;
   * when it returns, it has issued one for every remaining record.
   */
  lemma {:induction false} DeleteLoopCalls(oracle: Oracle, h: seq<Call>, records: seq<Attrs>, tx: Value, i: nat, results: seq<Value>)
    requires i <= |records|
    ensures var h' := DeleteLoop(oracle, h, records, tx, i, results).0;
      && |h| <= |h'|
      && HaveGuids(records, i, |h'| - |h|)
      && h' == h + DeleteCalls(records, tx, i, |h'| - |h|)
      && (DeleteLoop(oracle, h, records, tx, i, results).1.Returned? ==> |h'| == |h| + |records| - i)
    decreases |records| - i
  {
    if i < |records| && "_Guid" in records[i] {
      var c := DeleteOf(records, i, tx);
      if oracle(h, c).Raised? {
        assert DeleteLoop(oracle, h, records, tx, i, results) == (h + [c], oracle(h, c));
        assert DeleteCalls(records, tx, i, 1) == [c];
      } else {
        var v := oracle(h, c).value;
        DeleteLoopCalls(oracle, h + [c], records, tx, i + 1, results + [v]);
        DeleteLoopCallsStep(oracle, h, records, tx, i, results);
      }
    }
  }

  /** One issued delete, followed by what the rest of the loop issues. */
  lemma DeleteLoopCallsStep(oracle: Oracle, h: seq<Call>, records: seq<Attrs>, tx: Value, i: nat, results: seq<Value>)
    requires i < |records| && "_Guid" in records[i]
    requires oracle(h, DeleteOf(records, i, tx)).Returned?
    requires var c := DeleteOf(records, i, tx);
      var v := oracle(h, c).value;
      var h' := DeleteLoop(oracle, h + [c], records, tx, i + 1, results + [v]).0;
      && |h + [c]| <= |h'|
      && HaveGuids(records, i + 1, |h'| - |h + [c]|)
      && h' == h + [c] + DeleteCalls(records, tx, i + 1, |h'| - |h + [c]|)
      && (DeleteLoop(oracle, h + [c], records, tx, i + 1, results + [v]).1.Returned? ==> |h'| == |h + [c]| + |records| - (i + 1))
    ensures var h' := DeleteLoop(oracle, h, records, tx, i, results).0;
      && |h| <= |h'|
      && HaveGuids(records, i, |h'| - |h|)
      && h' == h + DeleteCalls(records, tx, i, |h'| - |h|)
      && (DeleteLoop(oracle, h, records, tx, i, results).1.Returned? ==> |h'| == |h| + |records| - i)
  {
    var c := DeleteOf(records, i, tx);
    var v := oracle(h, c).value;
    assert DeleteLoop(oracle, h, records, tx, i, results) == DeleteLoop(oracle, h + [c], records, tx, i + 1, results + [v]);
    var h' := DeleteLoop(oracle, h + [c], records, tx, i + 1, results + [v]).0;
    var m := |h'| - |h + [c]|;
    DeleteCallsCons(records, tx, i, m);
    assert h' == h + ([c] + DeleteCalls(records, tx, i + 1, m));
  }

  /** The delete calls from record i are its own followed by those from record i+1. */
  lemma DeleteCallsCons(records: seq<Attrs>, tx: Value, i: nat, m: nat)
    requires i < |records| && "_Guid" in records[i] && HaveGuids(records, i + 1, m)
    ensures HaveGuids(records, i, m + 1)
    ensures DeleteCalls(records, tx, i, m + 1) == [DeleteOf(records, i, tx)] + DeleteCalls(records, tx, i + 1, m)
  {
  }

  /**
   * When the loop returns, its result is true exactly when the results
   * gathered before and every reply to its own delete calls are truthy.
   */
  lemma {:induction false} DeleteLoopResult(oracle: Oracle, h: seq<Call>, records: seq<Attrs>, tx: Value, i: nat, results: seq<Value>)
    requires i <= |records|
    ensures var (h', r) := DeleteLoop(oracle, h, records, tx, i, results);
      r.Returned? ==> |h| <= |h'| && r.value == Bool(AllTruthy(results) && RepliesTruthy(oracle, h', |h|))
    decreases |records| - i
  {
    if i < |records| && "_Guid" in records[i] {
      var c := DeleteOf(records, i, tx);
      match oracle(h, c)
      case Raised(e) =>
      case Returned(v) =>
        var h1 := h + [c];
        DeleteLoopResult(oracle, h1, records, tx, i + 1, results + [v]);
        DeleteLoopCalls(oracle, h1, records, tx, i + 1, results + [v]);
        var (h', r) := DeleteLoop(oracle, h1, records, tx, i + 1, results + [v]);
        if r.Returned? {
          assert h'[..|h|] == h && h'[|h|] == c;
          assert AllTruthy(results + [v]) <==> AllTruthy(results) && Truthy(v) by {
            assert forall k :: 0 <= k < |results| ==> (results + [v])[k] == results[k];
            assert (results + [v])[|results|] == v;
          }
          RepliesTruthyStep(oracle, h', |h|);
        }
    }
  }

  /** Every reply to the calls of h' from position `from` on returned a truthy value. */
  ghost predicate RepliesTruthy(oracle: Oracle, h': seq<Call>, from: nat)
  {
    forall j :: from <= j < |h'| ==> oracle(h'[..j], h'[j]).Returned? && Truthy(oracle(h'[..j], h'[j]).value)
  }

  lemma RepliesTruthyStep(oracle: Oracle, h': seq<Call>, from: nat)
    requires from < |h'|
    ensures RepliesTruthy(oracle, h', from)
        <==> (oracle(h'[..from], h'[from]).Returned? && Truthy(oracle(h'[..from], h'[from]).value)
              && RepliesTruthy(oracle, h', from + 1))
  {
  }

  /** Records i .. i+k-1 carry a `_Guid`, and the loop's delete call for each of them returned. */
  ghost predicate DeletesReturn(oracle: Oracle, h: seq<Call>, records: seq<Attrs>, tx: Value, i: nat, k: nat)
  {
    && HaveGuids(records, i, k)
    && forall j :: 0 <= j < k ==> oracle(h + DeleteCalls(records, tx, i, j), DeleteOf(records, i + j, tx)).Returned?
  }

  /** The first of k+1 returning deletes returned, and so did the k after it. */
  lemma DeletesReturnStep(oracle: Oracle, h: seq<Call>, records: seq<Attrs>, tx: Value, i: nat, k: nat)
    requires DeletesReturn(oracle, h, records, tx, i, k + 1)
    ensures oracle(h, DeleteOf(records, i, tx)).Returned?
    ensures DeletesReturn(oracle, h + [DeleteOf(records, i, tx)], records, tx, i + 1, k)
  {
    var c := DeleteOf(records, i, tx);
    assert h + DeleteCalls(records, tx, i, 0) == h;
    var h2, i2 := h + [c], i + 1;
    forall j | 0 <= j < k
      ensures oracle(h2 + DeleteCalls(records, tx, i2, j), DeleteOf(records, i2 + j, tx)).Returned?
    {
      DeleteCallsCons(records, tx, i, j);
      assert h + DeleteCalls(records, tx, i, j + 1) == h2 + DeleteCalls(records, tx, i2, j);
    }
  }

  /**
   * How the loop ends, once the deletes for records i .. i+k-1 have
   * returned: a record k without a `_Guid` ends it with AttributeError
   * after those deletes; a delete for record k that raises ends it right
   * after that call with the exception; and when no record is left, the
   * loop returns.
   */
  lemma {:induction false} DeleteLoopStops(oracle: Oracle, h: seq<Call>, records: seq<Attrs>, tx: Value, i: nat,
                                           results: seq<Value>, k: nat)
    requires DeletesReturn(oracle, h, records, tx, i, k)
    ensures var h1 := h + DeleteCalls(records, tx, i, k);
      && (i + k < |records| && "_Guid" !in records[i + k] ==>
            DeleteLoop(oracle, h, records, tx, i, results) == (h1, Raised(PyError("AttributeError"))))
      && (i + k < |records| && "_Guid" in records[i + k] && oracle(h1, DeleteOf(records, i + k, tx)).Raised? ==>
            DeleteLoop(oracle, h, records, tx, i, results)
            == (h1 + [DeleteOf(records, i + k, tx)], oracle(h1, DeleteOf(records, i + k, tx))))
      && (i + k == |records| ==> DeleteLoop(oracle, h, records, tx, i, results).1.Returned?)
    decreases k
  {
    if k == 0 {
      assert h + DeleteCalls(records, tx, i, 0) == h;
    } else {
      var c := DeleteOf(records, i, tx);
      DeletesReturnStep(oracle, h, records, tx, i, k - 1);
      var v := oracle(h, c).value;
      DeleteLoopStops(oracle, h + [c], records, tx, i + 1, results + [v], k - 1);
      DeleteCallsCons(records, tx, i, k - 1);
      assert h + DeleteCalls(records, tx, i, k) == h + [c] + DeleteCalls(records, tx, i + 1, k - 1);
      assert DeleteLoop(oracle, h, records, tx, i, results) == DeleteLoop(oracle, h + [c], records, tx, i + 1, results + [v]);
    }
  }

  /** The UltraDNS client: an account, the remote service, and the calls made so far. */
  class UltraDNSClient {
    const accountId: string
    const oracle: Oracle
    var trace: seq<Call>

    constructor (accountId: string, oracle: Oracle)
      ensures this.accountId == accountId && this.oracle == oracle && trace == []
    {
      this.accountId := accountId;
      this.oracle := oracle;
      trace := [];
    }

    /** `self.service.<operation>(...)`: one remote call, recorded in the trace. */
    method Invoke(c: Call) returns (r: Reply)
      modifies this
      ensures trace == old(trace) + [c]
      ensures r == oracle(old(trace), c)
    {
      r := oracle(trace, c);
      trace := trace + [c];
    }

    /** A translated call: one remote call, its reply through translate_exceptions. */
    method Call1(c: Call) returns (r: Reply)
      modifies this
      ensures trace == old(trace) + [c]
      ensures r == Translate(UdnsErrors, oracle(old(trace), c))
    {
      r := Invoke(c);
      r := Translate(UdnsErrors, r);
    }

    method StartTransaction() returns (r: Reply)
      modifies this
      ensures trace == old(trace) + [Call.StartTransaction]
      ensures r == Translate(UdnsErrors, oracle(old(trace), Call.StartTransaction))
    {
      r := Call1(Call.StartTransaction);
    }

    method CommitTransaction(transaction: Value) returns (r: Reply)
      modifies this
      ensures trace == old(trace) + [Call.CommitTransaction(transaction)]
      ensures r == Translate(UdnsErrors, oracle(old(trace), Call.CommitTransaction(transaction)))
    {
      r := Call1(Call.CommitTransaction(transaction));
    }

    method RollbackTransaction(transaction: Value) returns (r: Reply)
      modifies this
      ensures trace == old(trace) + [Call.RollbackTransaction(transaction)]
      ensures r == Translate(UdnsErrors, oracle(old(trace), Call.RollbackTransaction(transaction)))
    {
      r := Call1(Call.RollbackTransaction(transaction));
    }

    /** Creates a primary zone under the client's account, always with forceImport. */
    method CreatePrimaryZone(zoneName: string, transactionId: Value) returns (r: Reply)
      modifies this
      ensures trace == old(trace) + [Call.CreatePrimaryZone(transactionId, accountId, zoneName, true)]
      ensures r == Translate(UdnsErrors, oracle(old(trace), Call.CreatePrimaryZone(transactionId, accountId, zoneName, true)))
    {
      r := Call1(Call.CreatePrimaryZone(transactionId, accountId, zoneName, true));
    }

    method DeleteZone(zoneName: string, transactionId: Value) returns (r: Reply)
      modifies this
      ensures trace == old(trace) + [Call.DeleteZone(zoneName, transactionId)]
      ensures r == Translate(UdnsErrors, oracle(old(trace), Call.DeleteZone(zoneName, transactionId)))
    {
      r := Call1(Call.DeleteZone(zoneName, transactionId));
    }

    /** Lists the records of a zone (of one type, or all with ALL) and takes the record list out of the response. */
    method GetResourceRecordsOfZone(zoneName: string, rrType: int) returns (r: Reply)
      modifies this
      ensures trace == old(trace) + [Call.GetResourceRecordsOfZone(zoneName, rrType)]
      ensures r == Translate(UdnsErrors, ResourceRecordList(oracle(old(trace), Call.GetResourceRecordsOfZone(zoneName, rrType))))
      ensures r.Returned? ==> r.value.RecordList?
    {
      r := Invoke(Call.GetResourceRecordsOfZone(zoneName, rrType));
      r := ResourceRecordList(r);
      r := Translate(UdnsErrors, r);
    }

    method CreateMxRecord(zoneName: string, hostName: string, priorityValue: string, mailServer: string,
                          transactionId: Value) returns (r: Reply)
      modifies this
      ensures var c := Call.CreateResourceRecord(MxPayload(zoneName, hostName, priorityValue, mailServer), transactionId);
              trace == old(trace) + [c] && r == Translate(UdnsErrors, oracle(old(trace), c))
    {
      r := Call1(Call.CreateResourceRecord(MxPayload(zoneName, hostName, priorityValue, mailServer), transactionId));
    }

    method CreateARecord(zoneName: string, hostName: string, ipAddressV4: string, transactionId: Value)
      returns (r: Reply)
      modifies this
      ensures var c := Call.CreateResourceRecord(APayload(zoneName, hostName, ipAddressV4), transactionId);
              trace == old(trace) + [c] && r == Translate(UdnsErrors, oracle(old(trace), c))
    {
      r := Call1(Call.CreateResourceRecord(APayload(zoneName, hostName, ipAddressV4), transactionId));
    }

    method CreateTxtRecord(zoneName: string, hostName: string, charStr: string, transactionId: Value)
      returns (r: Reply)
      modifies this
      ensures var c := Call.CreateResourceRecord(TxtPayload(zoneName, hostName, charStr), transactionId);
              trace == old(trace) + [c] && r == Translate(UdnsErrors, oracle(old(trace), c))
    {
      r := Call1(Call.CreateResourceRecord(TxtPayload(zoneName, hostName, charStr), transactionId));
    }

    method CreateNsRecord(zoneName: string, nameServer: string, hostName: string, preferenceValue: string,
                          transactionId: Value) returns (r: Reply)
      modifies this
      ensures var c := Call.CreateResourceRecord(NsPayload(zoneName, nameServer, hostName, preferenceValue), transactionId);
              trace == old(trace) + [c] && r == Translate(UdnsErrors, oracle(old(trace), c))
    {
      r := Call1(Call.CreateResourceRecord(NsPayload(zoneName, nameServer, hostName, preferenceValue), transactionId));
    }

    method CreateSoaRecord(zoneName: string, hostName: string, contactName: string, serialNumber: string,
                           refreshDuration: string, retryDuration: string, expireLimit: string, minTtl: string,
                           transactionId: Value) returns (r: Reply)
      modifies this
      ensures var c := Call.CreateResourceRecord(SoaPayload(zoneName, hostName, contactName, serialNumber,
                         refreshDuration, retryDuration, expireLimit, minTtl), transactionId);
              trace == old(trace) + [c] && r == Translate(UdnsErrors, oracle(old(trace), c))
    {
      var payload := SoaPayload(zoneName, hostName, contactName, serialNumber,
                                refreshDuration, retryDuration, expireLimit, minTtl);
      r := Call1(Call.CreateResourceRecord(payload, transactionId));
    }

    /**
     * Lists the matching records, then deletes them one by one in list
     * order; the first exception ends the loop.  Returns whether every
     * delete result was truthy.
     */
    method DeleteAllRecords(zoneName: string, rrType: int, transactionId: Value) returns (r: Reply)
      modifies this
      ensures (trace, r) == DeleteAll(oracle, old(trace), zoneName, rrType, transactionId)
    {
      ghost var h0 := trace;
      var listed := GetResourceRecordsOfZone(zoneName, rrType);
      if listed.Raised? {
        r := Translate(UdnsErrors, listed);
        return;
      }
      ghost var h1 := trace;
      var existing := listed.value.records;
      var results: seq<Value> := [];
      var i := 0;
      while i < |existing|
        invariant i <= |existing|
        invariant DeleteLoop(oracle, h1, existing, transactionId, 0, []) == DeleteLoop(oracle, trace, existing, transactionId, i, results)
      {
        if "_Guid" !in existing[i] {
          r := Translate(UdnsErrors, Raised(PyError("AttributeError")));
          return;
        }
        var guId := existing[i]["_Guid"];
        var reply := Invoke(Call.DeleteResourceRecord(guId, transactionId));
        if reply.Raised? {
          r := Translate(UdnsErrors, reply);
          return;
        }
        results := results + [reply.value];
        i := i + 1;
      }
      r := Translate(UdnsErrors, Returned(Bool(AllTruthy(results))));
    }

    method DeleteRecord(guId: string, transactionId: Value) returns (r: Reply)
      modifies this
      ensures trace == old(trace) + [Call.DeleteResourceRecord(guId, transactionId)]
      ensures r == Translate(UdnsErrors, oracle(old(trace), Call.DeleteResourceRecord(guId, transactionId)))
    {
      r := Call1(Call.DeleteResourceRecord(guId, transactionId));
    }

    /** Sends the update payload: the header from the arguments and the caller's slots overlaid. */
    method UpdateRecord(zoneName: string, guId: string, rrType: TypeArg, hostName: string, ttl: string,
                        infoValues: map<string, string>, transactionId: Value) returns (r: Reply)
      modifies this
      ensures var c := Call.UpdateResourceRecord(UpdatePayload(guId, rrType, hostName, ttl, infoValues), transactionId);
              trace == old(trace) + [c] && r == Translate(UdnsErrors, oracle(old(trace), c))
    {
      var payload := UpdateRecordPayload(zoneName, guId, rrType, hostName, ttl, infoValues);
      r := Call1(Call.UpdateResourceRecord(payload, transactionId));
    }
  }

  /**
   * What delete_all_records promises: after a successful listing, one
   * delete per listed record in list order, and a true result exactly
   * when every delete returned a truthy value.
   */
  lemma {:induction false} DeleteAllResult(oracle: Oracle, h: seq<Call>, zoneName: string, rrType: int, tx: Value, records: seq<Attrs>)
    requires oracle(h, GetResourceRecordsOfZone(zoneName, rrType)) == Returned(RecordList(records))
    ensures var (h', r) := DeleteAll(oracle, h, zoneName, rrType, tx);
      var g := GetResourceRecordsOfZone(zoneName, rrType);
      && |h| + 1 <= |h'|
      && HaveGuids(records, 0, |h'| - |h| - 1)
      && h' == h + [g] + DeleteCalls(records, tx, 0, |h'| - |h| - 1)
      && (r.Returned? ==>
            && |h'| == |h| + 1 + |records|
            && r.value == Bool(RepliesTruthy(oracle, h', |h| + 1)))
  {
    var g := GetResourceRecordsOfZone(zoneName, rrType);
    TranslatePassesResults(UdnsErrors, RecordList(records));
    DeleteLoopCalls(oracle, h + [g], records, tx, 0, []);
    DeleteLoopResult(oracle, h + [g], records, tx, 0, []);
    assert AllTruthy([]);
  }

  /** An empty zone (nothing listed) is deleted successfully without any delete call. */
  lemma DeleteAllEmptyZone(oracle: Oracle, h: seq<Call>, zoneName: string, rrType: int, tx: Value)
    requires oracle(h, GetResourceRecordsOfZone(zoneName, rrType)) == Returned(RecordList([]))
    ensures DeleteAll(oracle, h, zoneName, rrType, tx) == (h + [GetResourceRecordsOfZone(zoneName, rrType)], Returned(Bool(true)))
  {
  }

  /** A listing that fails ends delete_all_records with that error, translated, and no delete is issued. */
  lemma DeleteAllListingFails(oracle: Oracle, h: seq<Call>, zoneName: string, rrType: int, tx: Value, e: Exn)
    requires oracle(h, GetResourceRecordsOfZone(zoneName, rrType)) == Raised(e)
    ensures DeleteAll(oracle, h, zoneName, rrType, tx)
         == (h + [GetResourceRecordsOfZone(zoneName, rrType)], Translate(UdnsErrors, Raised(e)))
  {
  }

  /**
   * The error paths of delete_all_records, after a successful listing and
   * k deletes that returned: a record without `_Guid` at position k raises
   * AttributeError and no further call is made; a delete at position k
   * that raises ends the call right after it, with its exception
   * translated; and when all records were deleted, the call returns.
   */
  lemma DeleteAllStops(oracle: Oracle, h: seq<Call>, zoneName: string, rrType: int, tx: Value,
                       records: seq<Attrs>, k: nat)
    requires oracle(h, GetResourceRecordsOfZone(zoneName, rrType)) == Returned(RecordList(records))
    requires DeletesReturn(oracle, h + [GetResourceRecordsOfZone(zoneName, rrType)], records, tx, 0, k)
    ensures var h1 := h + [GetResourceRecordsOfZone(zoneName, rrType)] + DeleteCalls(records, tx, 0, k);
      && (k < |records| && "_Guid" !in records[k] ==>
            DeleteAll(oracle, h, zoneName, rrType, tx) == (h1, Raised(PyError("AttributeError"))))
      && (k < |records| && "_Guid" in records[k] && oracle(h1, DeleteOf(records, k, tx)).Raised? ==>
            DeleteAll(oracle, h, zoneName, rrType, tx)
            == (h1 + [DeleteOf(records, k, tx)], Translate(UdnsErrors, oracle(h1, DeleteOf(records, k, tx)))))
      && (k == |records| ==> DeleteAll(oracle, h, zoneName, rrType, tx).1.Returned?)
  {
    var g := GetResourceRecordsOfZone(zoneName, rrType);
    TranslatePassesResults(UdnsErrors, RecordList(records));
    DeleteLoopStops(oracle, h + [g], records, tx, 0, [], k);
  }
}
