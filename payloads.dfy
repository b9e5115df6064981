/**
 * Request payloads of the dictionary-based client (ultrasoap/ultrasoap.py):
 * the base record every create call starts from, the info-value slots each
 * record type fills, and the overlay update_record applies.
 */
module Payloads {
  import opened Wrappers
  import opened UltraTypes
  import opened Remote
  import opened Slots

  /** The default time-to-live, one day, as the text the source passes. */
  const DefaultTTL: string := "86400"

  /** `create_base_record`: header fields from the arguments, the type resolved, no slots yet. */
  function CreateBaseRecord(zoneName: string, hostName: string, rrType: TypeArg, ttl: string)
    : (r: Result<ResourceRecord, Exn>)
    ensures r.Ok? <==> (rrType.Code? || rrType.name in Types)
    ensures r.Err? ==> r.error == PyError("KeyError")
    ensures r.Ok? ==> r.value.dName == hostName && r.value.ttl == ttl && r.value.zoneName == Some(zoneName)
    ensures r.Ok? && rrType.Code? ==> r.value.rrType == rrType
    ensures r.Ok? && rrType.Name? ==> r.value.rrType == Code(Types[rrType.name])
    ensures r.Ok? ==> r.value.guid == None && r.value.infoValues == map[]
  {
    match Resolve(rrType)
    case None => Err(PyError("KeyError"))
    case Some(code) => Ok(ResourceRecord(hostName, ttl, Some(zoneName), Code(code), None, map[]))
  }

  /** The base record of a registry type with the default TTL. */
  function BaseOf(zoneName: string, hostName: string, name: string): (rr: ResourceRecord)
    requires name in Types
    ensures rr == CreateBaseRecord(zoneName, hostName, Name(name), DefaultTTL).value
  {
    ResourceRecord(hostName, DefaultTTL, Some(zoneName), Code(Types[name]), None, map[])
  }

  /** Filling one more slot extends the slot map by exactly that slot. */
  lemma FillSlotsSnoc(vals: seq<string>, v: string)
    requires |vals| < 9
    ensures FillSlots(vals + [v]) == FillSlots(vals)[InfoKey(|vals| + 1) := v]
  {
    assert (vals + [v])[..|vals|] == vals;
  }

  /** The payload of a `create_*_record` that sends one value: the base record of the type, with v in slot 1. */
  function OneSlotPayload(zoneName: string, hostName: string, name: string, v: string): (rr: ResourceRecord)
    requires name in Types
    ensures rr == BaseOf(zoneName, hostName, name).(infoValues := FillSlots([v]))
  {
    var rr := BaseOf(zoneName, hostName, name);
    FillSlotsSnoc([], v);
    rr.(infoValues := rr.infoValues[InfoKey(1) := v])
  }

  /** `create_a_record`'s payload: the address in slot 1. */
  function APayload(zoneName: string, hostName: string, ipAddressV4: string): (rr: ResourceRecord)
    ensures rr == BaseOf(zoneName, hostName, "A").(infoValues := FillSlots([ipAddressV4]))
  {
    OneSlotPayload(zoneName, hostName, "A", ipAddressV4)
  }

  /** `create_txt_record`'s payload: the character string in slot 1. */
  function TxtPayload(zoneName: string, hostName: string, charStr: string): (rr: ResourceRecord)
    ensures rr == BaseOf(zoneName, hostName, "TXT").(infoValues := FillSlots([charStr]))
  {
    OneSlotPayload(zoneName, hostName, "TXT", charStr)
  }

  /** `create_ns_record`'s payload: the name server in slot 1; the preference value is not sent. */
  function NsPayload(zoneName: string, nameServer: string, hostName: string, preferenceValue: string)
    : (rr: ResourceRecord)
    ensures rr == BaseOf(zoneName, hostName, "NS").(infoValues := FillSlots([nameServer]))
  {
    OneSlotPayload(zoneName, hostName, "NS", nameServer)
  }

  /** `create_mx_record`'s payload as written: the mail server in slot 1, the priority dropped. */
  function MxPayloadAsWritten(zoneName: string, hostName: string, priorityValue: string, mailServer: string)
    : (rr: ResourceRecord)
    ensures rr == BaseOf(zoneName, hostName, "MX").(infoValues := FillSlots([mailServer]))
  {
    OneSlotPayload(zoneName, hostName, "MX", mailServer)
  }

  /** As written, the MX priority never reaches the payload. */
  lemma MxPriorityDropped(zoneName: string, hostName: string, p: string, q: string, mailServer: string)
    ensures MxPayloadAsWritten(zoneName, hostName, p, mailServer) == MxPayloadAsWritten(zoneName, hostName, q, mailServer)
    ensures forall k :: k in MxPayloadAsWritten(zoneName, hostName, p, mailServer).infoValues ==> k == InfoKey(1)
  {
  }

  /**
   * The MX payload with the layout of section 3.3.9 of RFC 1035 that the
   * record classes use: the preference (priority) in slot 1, the exchange
   * (mail server) in slot 2.
   */
  function MxPayload(zoneName: string, hostName: string, priorityValue: string, mailServer: string)
    : (rr: ResourceRecord)
    ensures rr == BaseOf(zoneName, hostName, "MX").(infoValues := FillSlots([priorityValue, mailServer]))
  {
    var rr := BaseOf(zoneName, hostName, "MX");
    FillSlotsSnoc([], priorityValue);
    FillSlotsSnoc([priorityValue], mailServer);
    rr.(infoValues := rr.infoValues[InfoKey(1) := priorityValue][InfoKey(2) := mailServer])
  }

  /** The corrected MX payload carries both the priority and the mail server, in that order. */
  lemma MxPayloadKeepsPriority(zoneName: string, hostName: string, priorityValue: string, mailServer: string)
    ensures SlotValues(MxPayload(zoneName, hostName, priorityValue, mailServer).infoValues, 2) == [priorityValue, mailServer]
  {
    SlotsRoundTrip([priorityValue, mailServer]);
  }

  /**
   * `create_soa_record`'s payload: slots 1 to 7 hold the RDATA fields of
   * section 3.3.13 of RFC 1035 in order (MNAME, RNAME, SERIAL, REFRESH,
   * RETRY, EXPIRE, MINIMUM); the host name doubles as slot 1.
   */
  function SoaPayload(zoneName: string, hostName: string, contactName: string, serialNumber: string,
                      refreshDuration: string, retryDuration: string, expireLimit: string, minTtl: string)
    : (rr: ResourceRecord)
    ensures rr == BaseOf(zoneName, hostName, "SOA").(infoValues := FillSlots(
      [hostName, contactName, serialNumber, refreshDuration, retryDuration, expireLimit, minTtl]))
  {
    var rr := BaseOf(zoneName, hostName, "SOA");
    var iv := rr.infoValues
      [InfoKey(1) := hostName]
      [InfoKey(2) := contactName]
      [InfoKey(3) := serialNumber]
      [InfoKey(4) := refreshDuration]
      [InfoKey(5) := retryDuration]
      [InfoKey(6) := expireLimit]
      [InfoKey(7) := minTtl];
    SoaSlotsFilled(hostName, contactName, serialNumber, refreshDuration, retryDuration, expireLimit, minTtl);
    rr.(infoValues := iv)
  }

  lemma SoaSlotsFilled(s1: string, s2: string, s3: string, s4: string, s5: string, s6: string, s7: string)
    ensures FillSlots([s1, s2, s3, s4, s5, s6, s7])
         == map[][InfoKey(1) := s1][InfoKey(2) := s2][InfoKey(3) := s3][InfoKey(4) := s4]
                 [InfoKey(5) := s5][InfoKey(6) := s6][InfoKey(7) := s7]
  {
    var head := [s1, s2, s3, s4];
    FirstFourSlots(s1, s2, s3, s4);
    FillSlotsSnoc(head, s5);
    FillSlotsSnoc(head + [s5], s6);
    FillSlotsSnoc(head + [s5] + [s6], s7);
    assert head + [s5] + [s6] + [s7] == [s1, s2, s3, s4, s5, s6, s7];
  }

  lemma FirstFourSlots(s1: string, s2: string, s3: string, s4: string)
    ensures FillSlots([s1, s2, s3, s4]) == map[][InfoKey(1) := s1][InfoKey(2) := s2][InfoKey(3) := s3][InfoKey(4) := s4]
  {
    FillSlotsSnoc([], s1);
    FillSlotsSnoc([s1], s2);
    FillSlotsSnoc([s1, s2], s3);
    FillSlotsSnoc([s1, s2, s3], s4);
    assert [] + [s1] == [s1];
    assert [s1] + [s2] == [s1, s2];
    assert [s1, s2] + [s3] == [s1, s2, s3];
    assert [s1, s2, s3] + [s4] == [s1, s2, s3, s4];
  }

  /** The SOA payload reads back as its seven RDATA fields, in order. */
  lemma SoaSlotOrder(zoneName: string, hostName: string, contactName: string, serialNumber: string,
                     refreshDuration: string, retryDuration: string, expireLimit: string, minTtl: string)
    ensures var rr := SoaPayload(zoneName, hostName, contactName, serialNumber, refreshDuration, retryDuration, expireLimit, minTtl);
            rr.rrType == Code(6) &&
            SlotValues(rr.infoValues, 7)
              == [hostName, contactName, serialNumber, refreshDuration, retryDuration, expireLimit, minTtl]
  {
    var vals := [hostName, contactName, serialNumber, refreshDuration, retryDuration, expireLimit, minTtl];
    var rr := SoaPayload(zoneName, hostName, contactName, serialNumber, refreshDuration, retryDuration, expireLimit, minTtl);
    assert rr.infoValues == FillSlots(vals);
    SlotsRoundTrip(vals);
  }

  /** The slots update_record writes: key k of the caller's mapping goes to slot `_k`. */
  function InfoOverlay(infoValues: map<string, string>): (m: map<string, string>)
  {
    UnderscoreInjective();
    map k | k in infoValues :: "_" + k := infoValues[k]
  }

  /** Prefixing an underscore keeps different keys different. */
  lemma UnderscoreInjective()
    ensures forall a: string, b: string :: "_" + a == "_" + b ==> a == b
  {
    forall a: string, b: string | "_" + a == "_" + b ensures a == b {
      assert ("_" + a)[1..] == a && ("_" + b)[1..] == b;
    }
  }

  /** Each given key k sets slot `_k` to its value, and no other slot is set. */
  lemma {:induction false} OverlaySetsOnlyGivenSlots(infoValues: map<string, string>)
    ensures forall k :: k in infoValues ==> "_" + k in InfoOverlay(infoValues) && InfoOverlay(infoValues)["_" + k] == infoValues[k]
    ensures forall s :: s in InfoOverlay(infoValues) ==> |s| > 0 && s[0] == '_' && s[1..] in infoValues
  {
    var m := InfoOverlay(infoValues);
    forall k | k in infoValues ensures "_" + k in m && m["_" + k] == infoValues[k] {
      assert ("_" + k)[1..] == k;
    }
    forall s | s in m ensures |s| > 0 && s[0] == '_' && s[1..] in infoValues {
      var k :| k in infoValues && s == "_" + k;
      assert s[1..] == k;
    }
  }

  /** The update payload: header from the arguments (the type unresolved), slots from the overlay. */
  function UpdatePayload(guid: string, rrType: TypeArg, hostName: string, ttl: string, infoValues: map<string, string>)
    : ResourceRecord
  {
    ResourceRecord(hostName, ttl, None, rrType, Some(guid), InfoOverlay(infoValues))
  }

  /**
   * `update_record`'s payload construction: the header, then one slot
   * assignment per key of the caller's mapping, in whatever order the
   * mapping yields its keys.
   */
  method UpdateRecordPayload(zoneName: string, guid: string, rrType: TypeArg, hostName: string, ttl: string,
                             infoValues: map<string, string>)
    returns (rr: ResourceRecord)
    ensures rr.dName == hostName && rr.guid == Some(guid) && rr.rrType == rrType && rr.ttl == ttl
    ensures rr.zoneName == None
    ensures forall k :: k in infoValues ==> "_" + k in rr.infoValues && rr.infoValues["_" + k] == infoValues[k]
    ensures forall s :: s in rr.infoValues ==> |s| > 0 && s[0] == '_' && s[1..] in infoValues
    ensures rr == UpdatePayload(guid, rrType, hostName, ttl, infoValues)
  {
    rr := ResourceRecord(hostName, "", None, TypeArg.Code(0), None, map[]);
    rr := rr.(guid := Some(guid), rrType := rrType, ttl := ttl);
    var pending := infoValues.Keys;
    while pending != {}
      invariant pending <= infoValues.Keys
      invariant rr == UpdatePayload(guid, rrType, hostName, ttl, infoValues - pending)
      decreases pending
    {
      var k :| k in pending;
      OverlayInsert(infoValues - pending, k, infoValues[k]);
      RestoreKey(infoValues, pending, k);
      rr := rr.(infoValues := rr.infoValues["_" + k := infoValues[k]]);
      pending := pending - {k};
    }
    assert infoValues - pending == infoValues;
    OverlaySetsOnlyGivenSlots(infoValues);
  }

  /** Taking one key off the pending set puts its entry back. */
  lemma RestoreKey(m: map<string, string>, pending: set<string>, k: string)
    requires k in pending && k in m
    ensures (m - pending)[k := m[k]] == m - (pending - {k})
  {
    var lhs, rhs := (m - pending)[k := m[k]], m - (pending - {k});
    assert lhs.Keys == rhs.Keys;
    forall j | j in lhs ensures lhs[j] == rhs[j] {
    }
  }

  /** Adding one key to the mapping adds exactly its slot to the overlay. */
  lemma OverlayInsert(done: map<string, string>, k: string, v: string)
    requires k !in done
    ensures InfoOverlay(done[k := v]) == InfoOverlay(done)["_" + k := v]
  {
    var lhs, rhs := InfoOverlay(done[k := v]), InfoOverlay(done)["_" + k := v];
    OverlayInsertCovers(done, k, v);
    OverlayInsertAgrees(done, k, v, lhs, rhs);
  }

  lemma OverlayInsertCovers(done: map<string, string>, k: string, v: string)
    requires k !in done
    ensures InfoOverlay(done)["_" + k := v].Keys <= InfoOverlay(done[k := v]).Keys
  {
    var lhs, rhs := InfoOverlay(done[k := v]), InfoOverlay(done)["_" + k := v];
    forall s | s in rhs ensures s in lhs {
      if s != "_" + k {
        var j :| j in done && s == "_" + j;
        assert j in done[k := v];
      }
    }
  }

  lemma OverlayInsertAgrees(done: map<string, string>, k: string, v: string,
                            lhs: map<string, string>, rhs: map<string, string>)
    requires k !in done
    requires lhs == InfoOverlay(done[k := v]) && rhs == InfoOverlay(done)["_" + k := v]
    ensures forall s :: s in lhs ==> s in rhs && lhs[s] == rhs[s]
  {
    UnderscoreInjective();
    forall s | s in lhs ensures s in rhs && lhs[s] == rhs[s] {
      var j :| j in done[k := v] && s == "_" + j;
      if j != k {
        assert s != "_" + k;
        assert j in done;
      }
    }
  }

  lemma InfoKeyOne()
    ensures InfoKey(1) == "_" + "Info1Value"
  {
    assert Slots.Digit(1) == '1';
    assert "_Info" + ['1'] + "Value" == "_Info1Value";
    assert "_" + "Info1Value" == "_Info1Value";
  }

  /** Naming slot 1 without its underscore (`Info1Value`) updates exactly slot 1. */
  lemma UpdateFirstSlot(v: string)
    ensures InfoOverlay(map["Info1Value" := v]) == FillSlots([v])
  {
    var none: map<string, string> := map[];
    OverlayInsert(none, "Info1Value", v);
    assert InfoOverlay(none) == map[];
    assert none["Info1Value" := v] == map["Info1Value" := v];
    FillSlotsSnoc([], v);
    assert [] + [v] == [v];
    InfoKeyOne();
  }
}
