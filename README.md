# ultrasoap in Dafny

A model of `ultrasoap`, a thin Python client for the UltraDNS SOAP API,
and of the small DNS-management driver built on it. The SOAP service is an
oracle: a function from the calls made so far and the next call to a
reply, which is either a returned value or a raised exception. Each client
object keeps the trace of the calls it has made, so every contract states
which remote calls happen, in which order, with which arguments, and what
the caller gets back.

Modules, one per part of the system:

- `Wrappers`: `Option` and `Result`.
- `UltraTypes` (ultratypes.py): the record-type registry. It maps names to
  type codes. A, NS, CNAME, SOA, PTR, HINFO, MX and TXT carry their TYPE
  values from section 3.2.2 of RFC 1035. ANY is the QTYPE `*` from section
  3.2.3 of RFC 1035, and AAAA comes from section 2.1 of RFC 3596. RP
  (section 2.2 of RFC 1183), SRV (RFC 2782), NAPTR (RFC 2915, now RFC 3403)
  and SPF (RFC 4408) come from later RFCs. `ALL` is the provider's own
  "every type" sentinel. The module also has the reverse lookup.
- `Slots`: the numbered info-value slots `_Info1Value`, `_Info2Value`, …
  that hold a record's type-specific data.
- `Remote`: what is exchanged with the service: values, faults, exceptions,
  calls and resource-record payloads.
- `Faults`: the `UDNS_ERRORS` registry filled by `error_id`, and
  `translate_exceptions`. The package version is modelled, and so is the
  faultcode variant in ultrasoap.py.
- `Payloads`: `create_base_record`, the slot layouts of the `create_*_record`
  payloads, and the `update_record` overlay.
- `Client`: the dictionary-based `UltraDNSClient` of ultrasoap/ultrasoap.py,
  as a class over the oracle with a `trace` field. It includes the
  `delete_all_records` loop.
- `Transaction`: `udns_transaction`, which starts a transaction, runs the
  block, and then commits or rolls back and re-raises.
  `udns_transaction` is the same text in ultrasoap/ultrasoap.py:12-24 and
  ultrasoap.py:12-24.
- `Records`: the `DNSRecord` hierarchy of ultrasoap.py. One class stands
  for all of it, and the subclass a record was built as is its `kind`. The
  module covers type resolution, `__cmp__`, `get_type`, `interesting`,
  `as_dict`, the slot layouts and `parse_record_data`.
- `Driver` (driver.py): `_strip_dot`/`_ensure_dot`, the error mapping of
  `_get_zone_records`, the zone calls, and the sort and filter in
  `get_entries`.

Three behaviours of the code that the model keeps:

- In `udns_transaction`, a commit that raises is followed by a rollback,
  because the commit is inside the `try`.
- A rollback that raises replaces the block's exception.
- `update_record` writes key `k` to slot `"_" + k`. A caller therefore names
  slot 1 `Info1Value`, not `1Value`.

Several lines fail at run time as written, and the model follows their
evident intent:

- The ultrasoap.py record classes call
  `super(DNSRecord, self).__init__(self, ...)` and assign attributes on a
  plain dictionary (ultrasoap.py:111, 127, 140, 153, 166). In the model, a
  subclass runs the base initialiser with its registry name and then fills
  its slots.
- Every subclass `as_dict` starts from `super(DNSRecord, self).as_dict()`
  (ultrasoap.py:120, 134, 147, 160, 185). That skips `DNSRecord` and
  reaches `object`, which has no `as_dict`, so it raises AttributeError.
  In the model, `AsDict` extends the base class's dictionary (`BaseAsDict`).
- The default `rr_type=types.ALL` of `_get_zone_records` (driver.py:18)
  reads an attribute of the `types` dictionary. That raises AttributeError
  when the `def` is evaluated, so driver.py does not import. In the model,
  the type code is a parameter, and ALL is `Types["ALL"] == 0`.
- driver.py raises `exceptions.ZoneNotFound` and
  `exceptions.DomainServiceError` (driver.py:7, 24, 26). The repository has
  no `exceptions` module of its own, so in Python 2 the import gives the
  built-in module, which has neither name. In the model, these are the
  driver's own exceptions `DriverZoneNotFound` and `DomainServiceError`,
  each carrying the original exception.

## Model

| member | source | states |
|---|---|---|
| UltraTypes.Resolve | ultrasoap/ultrasoap.py:108-111 | an int type is kept as is; a name resolves exactly when it is in the registry, to its registered code |
| UltraTypes.NamesAreTheRegistry | ultratypes.py:1-17 | the table lists 15 names, each once, and exactly the registry's keys |
| UltraTypes.CodesMatchTable | ultratypes.py:1-17 | each listed name maps to the code listed with it |
| UltraTypes.TypesInjective | ultratypes.py:1-17 | no two registry names share a code |
| UltraTypes.NameOfInverts | ultrasoap.py:95-98 | the reverse lookup finds exactly the name mapped to a code, and nothing when no name maps to it |
| UltraTypes.AllIsSentinel | ultratypes.py:2 | ALL is 0 and no other name maps to 0 |
| UltraTypes.StandardTypeCodes | ultratypes.py:3-16 | A=1, NS=2, CNAME=5, SOA=6, PTR=12, HINFO=13, MX=15, TXT=16 (RFC 1035 section 3.2.2), AAAA=28 (RFC 3596 section 2.1), ANY=255 (RFC 1035 section 3.2.3) |
| UltraTypes.RegistryClosed | ultratypes.py:1-17 | the registry has exactly 15 names and every code lies in 0..255 |
| Slots.InfoKeyInjective | ultrasoap/ultrasoap.py:151-157 | different slot numbers give different `_Info<i>Value` keys |
| Slots.FillSlots | ultrasoap/ultrasoap.py:151-157 | filling n values sets exactly slots 1..n, and slot i holds the i-th value |
| Slots.SlotsRoundTrip | ultrasoap/ultrasoap.py:151-157 | reading slots 1..n back gives the values that filled them |
| Slots.FillSlotsInjective | ultrasoap/ultrasoap.py:151-157 | different value lists give different slot maps |
| Faults.ErrorRegistry.constructor | ultrasoap/ultrasoap.py:27 | the registry starts empty |
| Faults.ErrorRegistry.ErrorId | ultrasoap/ultrasoap.py:30-35 | registering sets the class for the id, leaves every other id alone, and hands the class back unchanged |
| Faults.LoadRegistry | ultrasoap/ultrasoap.py:27-44 | after loading, the registry is exactly {1801: ZoneNotFound} |
| Faults.ClassFor | ultrasoap/ultrasoap.py:56 | the class is ZoneNotFound exactly when an int code is registered to it; otherwise the default UDNSException |
| Faults.ParseInt | ultrasoap/ultrasoap.py:54 | `int()` succeeds exactly on an optionally signed run of decimal digits |
| Faults.ParseDecimal | ultrasoap/ultrasoap.py:54 | `int()` of a number's decimal text is that number |
| Faults.TranslateFault | ultrasoap/ultrasoap.py:53-57 | a fault without the provider's detail element gives AttributeError; with it, the fault becomes a UDNS exception exactly when its errorCode is an integer literal, and a ValueError otherwise |
| Faults.Translate | ultrasoap/ultrasoap.py:47-58 | no WebFault escapes, and the call succeeds exactly when the wrapped call did |
| Faults.TranslatePassesResults | ultrasoap/ultrasoap.py:50-52 | a successful result passes through unchanged |
| Faults.TranslateLeavesOtherErrors | ultrasoap/ultrasoap.py:51-53 | only WebFault is caught; every other exception propagates unchanged |
| Faults.FaultCarriesCodeAndDescription | ultrasoap/ultrasoap.py:54-57 | the raised exception is the registry's class for the code (default UDNSException) carrying exactly (int(errorCode), errorDescription) |
| Faults.ZoneNotFoundFor1801 | ultrasoap/ultrasoap.py:42-44 | error code 1801 always yields ZoneNotFound |
| Faults.GenericForOtherCodes | ultrasoap/ultrasoap.py:56 | every other code yields UDNSException |
| Faults.TranslateIdempotent | ultrasoap/ultrasoap.py:47-58 | translating an already translated reply changes nothing |
| Faults.TranslateFaultByFaultcode | ultrasoap.py:53-57 | as written, the exception carries the envelope's faultcode text and faultstring |
| Faults.FaultcodeVariantMissesZoneNotFound | ultrasoap.py:54-56 | as written, a fault with error code 1801 yields UDNSException, where the package version yields ZoneNotFound |
| Payloads.CreateBaseRecord | ultrasoap/ultrasoap.py:107-118 | a name type resolves through the registry (KeyError when unknown), an int type is kept; host, TTL and zone come from the arguments; no slots |
| Payloads.BaseOf | ultrasoap/ultrasoap.py:10 | with a registry name, the base record uses the default TTL '86400' and is never an error |
| Payloads.OneSlotPayload | ultrasoap/ultrasoap.py:120-146 | a one-value payload is the base record of the named type with the value in slot 1 and no other slot |
| Payloads.APayload | ultrasoap/ultrasoap.py:127-132 | the A payload is the base record with the address in slot 1 and no other slot |
| Payloads.TxtPayload | ultrasoap/ultrasoap.py:134-139 | the TXT payload holds the text in slot 1 only |
| Payloads.NsPayload | ultrasoap/ultrasoap.py:141-146 | the NS payload holds the name server in slot 1 only; the preference value is not sent |
| Payloads.MxPayloadAsWritten | ultrasoap/ultrasoap.py:120-125 | as written, the MX payload holds the mail server in slot 1 and no other slot |
| Payloads.MxPriorityDropped | ultrasoap/ultrasoap.py:121-123 | as written, the MX payload does not depend on the priority at all |
| Payloads.MxPayload | ultrasoap.py:109-113 | the corrected MX payload holds the priority in slot 1 and the mail server in slot 2 |
| Payloads.MxPayloadKeepsPriority | ultrasoap.py:112-113 | the corrected MX payload reads back as [priority, mail server] |
| Payloads.SoaPayload | ultrasoap/ultrasoap.py:148-159 | the SOA payload fills slots 1-7 with host, contact, serial, refresh, retry, expire and minimum TTL |
| Payloads.SoaSlotOrder | ultrasoap/ultrasoap.py:150-157 | the SOA payload has type code 6 and its seven slots read back in RDATA order (RFC 1035 section 3.3.13) |
| Payloads.OverlaySetsOnlyGivenSlots | ultrasoap/ultrasoap.py:191-192 | each given key k sets slot `_k` to its value, and every slot set comes from a given key |
| Payloads.UpdateRecordPayload | ultrasoap/ultrasoap.py:178-192 | host, guid and TTL equal the inputs and the type is passed unresolved, with no zone; key k goes to slot `_k`; no other slot is set, whatever the order of the keys |
| Payloads.UpdateFirstSlot | ultrasoap/ultrasoap.py:187-192 | the key `Info1Value` updates exactly slot 1 |
| Client.ResourceRecordList | ultrasoap/ultrasoap.py:104-105 | a listing succeeds only with a record list; errors pass unchanged |
| Client.UltraDNSClient.constructor | ultrasoap/ultrasoap.py:61-63 | a new client has its account id and has made no call |
| Client.UltraDNSClient.StartTransaction | ultrasoap/ultrasoap.py:78-80 | one startTransaction call is made; the reply is translated |
| Client.UltraDNSClient.CommitTransaction | ultrasoap/ultrasoap.py:82-84 | one commit call is made with the given id |
| Client.UltraDNSClient.RollbackTransaction | ultrasoap/ultrasoap.py:86-88 | one rollback call is made with the given id |
| Client.UltraDNSClient.CreatePrimaryZone | ultrasoap/ultrasoap.py:90-95 | one createPrimaryZone call is made with the transaction, the client's account, the zone and forceImport true |
| Client.UltraDNSClient.DeleteZone | ultrasoap/ultrasoap.py:97-100 | one deleteZone call is made with the zone and the transaction |
| Client.UltraDNSClient.GetResourceRecordsOfZone | ultrasoap/ultrasoap.py:102-105 | one listing call is made; a successful result is a record list |
| Client.UltraDNSClient.CreateMxRecord | ultrasoap/ultrasoap.py:120-125 | one create call is made with the corrected MX payload |
| Client.UltraDNSClient.CreateARecord | ultrasoap/ultrasoap.py:127-132 | one create call is made with the A payload |
| Client.UltraDNSClient.CreateTxtRecord | ultrasoap/ultrasoap.py:134-139 | one create call is made with the TXT payload |
| Client.UltraDNSClient.CreateNsRecord | ultrasoap/ultrasoap.py:141-146 | one create call is made with the NS payload |
| Client.UltraDNSClient.CreateSoaRecord | ultrasoap/ultrasoap.py:148-159 | one create call is made with the SOA payload |
| Client.UltraDNSClient.DeleteAllRecords | ultrasoap/ultrasoap.py:161-169 | the trace and the result are those of the specification `DeleteAll` |
| Client.UltraDNSClient.DeleteRecord | ultrasoap/ultrasoap.py:171-174 | one delete call is made with the guid and the transaction |
| Client.UltraDNSClient.UpdateRecord | ultrasoap/ultrasoap.py:176-197 | one update call is made with the overlay payload |
| Client.DeleteLoopCalls | ultrasoap/ultrasoap.py:165-168 | the loop issues deletes for consecutive records in list order, and one for every remaining record when it returns |
| Client.DeleteLoopResult | ultrasoap/ultrasoap.py:167-169 | a finished loop returns true exactly when all earlier results and every reply to its deletes are truthy |
| Client.DeleteAllResult | ultrasoap/ultrasoap.py:161-169 | one listing, then one delete per listed record in list order; the result is true exactly when every delete's reply is truthy |
| Client.DeleteAllEmptyZone | ultrasoap/ultrasoap.py:169 | an empty zone gives true and no delete call |
| Client.DeleteAllListingFails | ultrasoap/ultrasoap.py:163 | a failing listing ends the call with its translated error and no delete |
| Client.DeleteLoopStops | ultrasoap/ultrasoap.py:165-169 | after k returning deletes, a record without `_Guid` at position k ends the loop with AttributeError and no further call; a raising delete at position k ends it right after that call with its exception; with no record left, the loop returns |
| Client.DeleteAllStops | ultrasoap/ultrasoap.py:161-169 | after the listing and k returning deletes: a missing `_Guid` at position k gives AttributeError with no further call, a raising delete at position k ends the call after it with the translated exception, and when every record was deleted the call returns |
| Transaction.Finish | ultrasoap/ultrasoap.py:20-24 | leaving the block makes the calls of `FinishSpec` and ends as it says |
| Transaction.WithTransaction | ultrasoap/ultrasoap.py:12-24 | the whole with statement makes the calls of `TransactionSpec` and ends as it says |
| Transaction.CommitAfterNormalBody | ultrasoap/ultrasoap.py:18-21 | a block that completes is committed with the started id; it ends normally exactly when the commit succeeds |
| Transaction.RollbackAfterFailedBody | ultrasoap/ultrasoap.py:19-24 | a block that raises is never committed; rollback is called once with the same id; the block's exception is re-raised unless rollback raised |
| Transaction.RollbackAfterFailedCommit | ultrasoap/ultrasoap.py:21-24 | a commit that raises is followed by a rollback with the same id; the commit's exception is re-raised when the rollback returns, and the rollback's exception replaces it when the rollback raises |
| Transaction.FinishAtMostOnce | ultrasoap/ultrasoap.py:19-24 | leaving the block makes one or two calls, all for the same id; commit exactly when the block completed; normal end exactly when only the commit was made |
| Transaction.StartFailureEndsTransaction | ultrasoap/ultrasoap.py:18 | when start_transaction raises, neither commit nor rollback is called |
| Transaction.StartOnceThenSameId | ultrasoap/ultrasoap.py:18-21 | start_transaction is called once, first; every later call uses the id it returned; commit happens exactly when the block completes |
| Records.Lower | ultrasoap.py:117 | lower-casing keeps the length and lower-cases each character |
| Records.LowerIsLowerCase | ultrasoap.py:117 | no upper-case letter is left, and other characters are kept |
| Records.LowerIdempotent | ultrasoap.py:131 | lower-casing twice is lower-casing once |
| Records.DNSRecord.constructor | ultrasoap.py:61-70 | an int type code is kept; the TTL is '86400'; the slots start empty |
| Records.DNSRecord.New | ultrasoap.py:61-70 | a name type resolves through the registry (KeyError when unknown), an int type is kept |
| Records.DNSRecord.MXRecord | ultrasoap.py:109-113 | type MX, priority in slot 1, mail server in slot 2 |
| Records.DNSRecord.ARecord | ultrasoap.py:125-128 | type A, the address in slot 1 |
| Records.DNSRecord.TXTRecord | ultrasoap.py:138-141 | type TXT, the text in slot 1 |
| Records.DNSRecord.NSRecord | ultrasoap.py:151-154 | type NS, the name server in slot 1 |
| Records.DNSRecord.SOARecord | ultrasoap.py:164-173 | type SOA, slots 1-7 hold host, contact, serial, refresh, retry, expire and minimum TTL |
| Records.DNSRecord.Cmp | ultrasoap.py:89-90 | `cmp` of the type codes: -1, 0 or 1, and 0 exactly for equal codes |
| Records.CmpIsTypeOrder | ultrasoap.py:89-90 | the comparison is antisymmetric and transitive, and records with equal codes compare alike |
| Records.DNSRecord.GetType | ultrasoap.py:95-98 | the name found maps to the record's code; None exactly when no name does; with the injective registry it is the constructor's name |
| Records.DNSRecord.Interesting | ultrasoap.py:92-93 | true for every kind except SOA: the base class answers True, and only SOARecord overrides it to False (ultrasoap.py:196-197) |
| Records.DNSRecord.BaseAsDict | ultrasoap.py:100-107 | exactly the keys HostName, TTL, RecordType, ZoneName and Interesting, with RecordType = get_type() and Interesting = interesting() |
| Records.DNSRecord.AsDict | ultrasoap.py:119-194 | the base keys plus the subclass's display names; every slot shows under its name; an SOA record shows slot 1 as HostName |
| Records.DNSRecord.ParseRecordData | ultrasoap.py:80-182 | the base class raises NotImplementedError; a subclass copies the remote attributes into slots in its order and stops with AttributeError at the first missing one; a record whose slots were all filled stays so |
| Records.ParseSlots | ultrasoap.py:115-182 | attributes are copied in the subclass's order up to the first missing one: the count is the number present in a row, and the slots are the start map overlaid with exactly those converted values |
| Records.ParseKeepsValid | ultrasoap.py:175-182 | parsing keeps every slot of the record's kind filled |
| Records.SoaParseMatchesConstructor | ultrasoap.py:175-182 | a complete SOA remote record fills slots 1-7 in the constructor's order |
| Records.MxAndAParseLowerCase | ultrasoap.py:115-117 | MX keeps the priority and lower-cases the mail server; A lower-cases the address |
| Driver.StripDot | driver.py:10-11 | the result is a prefix of the name, never ends in '.', and only dots were removed |
| Driver.EnsureDot | driver.py:14-15 | the result ends in exactly one '.', after a prefix of the name, and every character of the name past that prefix is a dot |
| Driver.StripDotIdempotent | driver.py:10-11 | stripping twice is stripping once |
| Driver.StripDotTrailing | driver.py:10-11 | an extra trailing dot does not change the stripped name |
| Driver.EnsureDotTrailing | driver.py:14-15 | `_ensure_dot(x + '.') == _ensure_dot(x)` |
| Driver.EnsureDotIdempotent | driver.py:14-15 | `_ensure_dot` is idempotent |
| Driver.EnsureDotCanonical | driver.py:14-15 | two names have the same canonical form exactly when they strip to the same name |
| Driver.MapZoneError | driver.py:21-26 | ZoneNotFound is checked first and becomes the driver's ZoneNotFound; any other UDNSException becomes DomainServiceError; both keep the original; no UDNS exception escapes; other errors pass unchanged |
| Driver.ZoneFaultReachesDriver | driver.py:22-26 | a fault with code 1801 reaches the caller as the driver's ZoneNotFound, and any other numeric code as DomainServiceError; a fault without detail or with a non-numeric code passes through as AttributeError or ValueError |
| Driver.GetZoneRecords | driver.py:18-27 | one listing call with the dot-terminated name; errors mapped as above |
| Driver.CreateZone | driver.py:49-52 | one createPrimaryZone call with the dot-terminated name, outside any transaction |
| Driver.DeleteZone | driver.py:55-58 | one deleteZone call with the dot-terminated name, outside any transaction |
| Driver.DriverNamesAreCanonical | driver.py:19 | every zone name the driver sends ends in exactly one dot and is its own canonical form |
| Driver.SortByType | driver.py:64 | the array after sorting is the specification `SortSpec` of the array before |
| Driver.InsertNext | driver.py:64 | one sort step inserts the next record after the sorted records whose code is not above its own |
| Driver.ShiftUp | driver.py:64 | the inner shift of a sort step moves the sorted records whose code is above the new record's one place up and stops at the first position where the record belongs |
| Driver.SortSpecSorted | driver.py:64 | the sorted list is ordered by type code |
| Driver.SortSpecPermutes | driver.py:64 | the sorted list holds the same records, each as often as before |
| Driver.SortSpecStable | driver.py:64 | the records of each type code keep their relative order |
| Driver.GetEntries | driver.py:64-65 | the records are sorted in place, and the entries are the interesting records of the sorted list |
| Driver.InterestingOfMembers | driver.py:65 | the filter keeps exactly the records that are not SOA records |
| Driver.InterestingOfSorted | driver.py:65 | filtering keeps the order by type code |
| Driver.GetEntriesResult | driver.py:64-65 | the entries are exactly the non-SOA records, ordered by type code, and records with equal codes are in their original order |

## Left out

- SOAP and WSDL plumbing: the suds client, WS-Security credentials, and the
  `factory` and `service` properties. The service is an oracle over the
  call history. What it does with a request is not modelled, including the
  misspelled `trasactionID` keyword and `forceImport`.
- `DNSRecord.as_instance`, `add_record` and `delete_record`. They fetch a
  WSDL from a fixed URL or only raise NotImplementedError.
- The `exec` string building of `update_record`. Only its intended effect
  is modelled: one slot assignment per key. Both the key and the value are
  pasted into string literals of the generated statement. A key or value
  holding a quote or a newline breaks that statement, or runs other code,
  and a backslash escape in either changes the key or the value stored.
  None of this is modelled.
- The client class of ultrasoap.py (lines 199-310). It repeats the package
  client, but passes the client as an extra first argument to the record
  constructors. Only the package client is modelled.
- Client.UltraDNSClient.CreateMxRecord: the call records the corrected MX
  payload (`Payloads.MxPayload`: priority in slot 1, mail server in slot
  2). As written, `create_mx_record` sends the mail server alone in slot 1
  (`Payloads.MxPayloadAsWritten`), so the model's trace differs from what
  the code sends for every MX record. See "## Findings".
- Transaction.WithTransaction: the block is a function from the transaction
  id to how it ends. Remote calls made inside the block are not part of the
  trace.
- Faults.ParseInt: ASCII digits only. Python 2's `int()` also accepts
  surrounding whitespace, and on the unicode text the SOAP layer returns
  it accepts non-ASCII decimal digits. Neither is modelled.
- Records.Lower: ASCII lower-casing only. Python's Unicode case mapping is
  not modelled.
- Records.DNSRecord.ParseRecordData: remote attributes are text. Any other
  attribute type is not modelled.
- The `get_neustar` credentials import, the `get_nameservers` settings
  cache, `main` in driver.py, `change_record` (an empty stub), rollback.py
  and setup.py. They are configuration, I/O and command-line glue.
- `_get_zone_records` gets its client from `get_neustar`. The model passes
  the client in.
- `get_entries` sorts the raw listing. Its conversion to `DNSRecord`
  objects is commented out, and `record_dict` is not a record attribute.
  The model sorts and filters an array of `DNSRecord` objects and returns
  the records themselves.
- Timeouts and transport errors: they are network behaviour, and the
  oracle can return any exception.

## Findings

| source | as written | input that shows it | evidently intended | confidence | as-written member | corrected member |
|---|---|---|---|---|---|---|
| ultrasoap.py:54-56 | the registry is keyed by ints but looked up with the envelope's faultcode text | a fault whose detail errorCode is "1801" | look up `int(errorCode)` from the fault detail, as ultrasoap/ultrasoap.py:54-56 does, so 1801 raises ZoneNotFound | high, not executed | Faults.FaultcodeVariantMissesZoneNotFound | Faults.ZoneNotFoundFor1801 |
| ultrasoap/ultrasoap.py:121-123 | `create_mx_record` puts the mail server in slot 1 and drops the priority | `create_mx_record(z, h, "10", "mx.example.")` | priority in slot 1 and mail server in slot 2, as `MXRecord` does (ultrasoap.py:112-113) and as the preference/exchange layout of RFC 1035 section 3.3.9 orders them | medium, not executed | Payloads.MxPriorityDropped | Payloads.MxPayloadKeepsPriority |
