/**
 * The record classes of the single-module client: `DNSRecord` and its
 * subclasses MXRecord, ARecord, TXTRecord, NSRecord and SOARecord.  One
 * class stands for the hierarchy; the subclass an object was built as is
 * its `kind`, fixed at construction like the record's header fields.  The
 * info-value slots are the only state a record changes after construction
 * (by `parse_record_data`).
 */
module Records {
  import opened Wrappers
  import opened UltraTypes
  import opened Remote
  import opened Slots
  import Payloads

  /** The class a record was constructed as. */
  datatype Kind = Base | MX | A | TXT | NS | SOA

  /** The attributes of a remote record that `parse_record_data` reads, slot by slot. */
  function AttrNames(kind: Kind): seq<string>
  {
    match kind
    case Base => []
    case MX => ["priority", "mailserver"]
    case A => ["address"]
    case TXT => ["char_str"]
    case NS => ["name_server"]
    case SOA => ["host_name", "contact_name", "serial_number", "refresh_duration",
                 "retry_duration", "expire_limit", "min_ttl"]
  }

  /** The keys under which `as_dict` shows slots 1, 2, ... of each subclass. */
  function DisplayNames(kind: Kind): seq<string>
  {
    match kind
    case Base => []
    case MX => ["PriorityValue", "MailServer"]
    case A => ["IPAddress"]
    case TXT => ["CharStr"]
    case NS => ["NameServer"]
    case SOA => ["HostName", "ContactName", "SerialNumber", "RefreshDuration",
                 "RetryDuration", "ExpireLimit", "MinTTL"]
  }

  /** The number of info-value slots a subclass fills. */
  function SlotCount(kind: Kind): (n: nat)
    ensures n <= 7
    ensures n == |AttrNames(kind)| == |DisplayNames(kind)|
  {
    |AttrNames(kind)|
  }

  /** The keys of the base `as_dict`. */
  const BaseKeys: set<string> := {"HostName", "TTL", "RecordType", "ZoneName", "Interesting"}

  /** A value shown by `as_dict`: a string, the `interesting()` flag, or `None`. */
  datatype DictValue = Text(text: string) | Flag(flag: bool) | Nothing

  /** A name or `None`, as `as_dict` shows it. */
  function AsValue(name: Option<string>): DictValue
  {
    if name.Some? then Text(name.value) else Nothing
  }

  /** No name is listed twice. */
  predicate Distinct(names: seq<string>)
  {
    forall i, j :: 0 <= i < j < |names| ==> names[i] != names[j]
  }

  /** The subclass's display names are distinct, and only SOA's HostName is also a base key. */
  lemma DisplayNamesDistinct(kind: Kind)
    ensures Distinct(DisplayNames(kind))
    ensures "TTL" !in DisplayNames(kind) && "ZoneName" !in DisplayNames(kind)
    ensures "RecordType" !in DisplayNames(kind) && "Interesting" !in DisplayNames(kind)
    ensures "HostName" in DisplayNames(kind) <==> kind == SOA
  {
    if kind == SOA {
      SoaDisplayNames();
    } else if kind == MX {
      MxDisplayNames();
    }
  }

  lemma SoaDisplayNames()
    ensures Distinct(DisplayNames(SOA))
    ensures "TTL" !in DisplayNames(SOA) && "ZoneName" !in DisplayNames(SOA)
    ensures "RecordType" !in DisplayNames(SOA) && "Interesting" !in DisplayNames(SOA)
    ensures "HostName" in DisplayNames(SOA)
  {
    assert DisplayNames(SOA)[0] == "HostName";
  }

  lemma MxDisplayNames()
    ensures Distinct(DisplayNames(MX))
    ensures "TTL" !in DisplayNames(MX) && "ZoneName" !in DisplayNames(MX)
    ensures "RecordType" !in DisplayNames(MX) && "Interesting" !in DisplayNames(MX)
    ensures "HostName" !in DisplayNames(MX)
  {
  }

  /** The subclass's `base[...] = InfoValues._Info<i>Value` assignments, as one map. */
  function Shown(names: seq<string>, iv: map<string, string>): (m: map<string, DictValue>)
    requires |names| <= 9 && SlotKeys(|names|) <= iv.Keys
    requires Distinct(names)
    ensures m.Keys == set n | n in names
    ensures forall i :: 1 <= i <= |names| ==> m[names[i - 1]] == Text(iv[InfoKey(i)])
  {
    if names == [] then map[]
    else
      var n := |names|;
      var m := Shown(names[..n - 1], iv)[names[n - 1] := Text(iv[InfoKey(n)])];
      m
  }

  /** The subclass's display names replace only SOA's HostName among the base keys. */
  lemma ShownOverBase(base: map<string, DictValue>, kind: Kind, iv: map<string, string>)
    requires base.Keys == BaseKeys && SlotKeys(SlotCount(kind)) <= iv.Keys
    requires Distinct(DisplayNames(kind))
    ensures var d := base + Shown(DisplayNames(kind), iv);
      && d.Keys == BaseKeys + set n | n in DisplayNames(kind)
      && d["TTL"] == base["TTL"] && d["ZoneName"] == base["ZoneName"]
      && d["Interesting"] == base["Interesting"] && d["RecordType"] == base["RecordType"]
      && (kind != SOA ==> d["HostName"] == base["HostName"])
  {
    DisplayNamesDistinct(kind);
    ShownOver(base, DisplayNames(kind), iv);
  }

  /** Shown names leave the base entries they do not name untouched. */
  lemma ShownOver(base: map<string, DictValue>, names: seq<string>, iv: map<string, string>)
    requires base.Keys == BaseKeys && |names| <= 9 && SlotKeys(|names|) <= iv.Keys && Distinct(names)
    requires "TTL" !in names && "ZoneName" !in names && "RecordType" !in names && "Interesting" !in names
    ensures var d := base + Shown(names, iv);
      && d.Keys == BaseKeys + set n | n in names
      && d["TTL"] == base["TTL"] && d["ZoneName"] == base["ZoneName"]
      && d["Interesting"] == base["Interesting"] && d["RecordType"] == base["RecordType"]
      && ("HostName" !in names ==> d["HostName"] == base["HostName"])
  {
    var shown := Shown(names, iv);
    assert "TTL" !in shown && "ZoneName" !in shown && "Interesting" !in shown && "RecordType" !in shown;
  }

  /** Every slot of the subclass shows under its display name. */
  lemma ShownSlots(base: map<string, DictValue>, kind: Kind, iv: map<string, string>)
    requires SlotKeys(SlotCount(kind)) <= iv.Keys
    requires Distinct(DisplayNames(kind))
    ensures forall i :: 1 <= i <= SlotCount(kind) ==>
        (base + Shown(DisplayNames(kind), iv))[DisplayNames(kind)[i - 1]] == Text(iv[InfoKey(i)])
  {
    DisplayNamesDistinct(kind);
  }

  /** ASCII lower-casing of one character. */
  function LowerChar(c: char): char
  {
    if 'A' <= c <= 'Z' then (c as int - 'A' as int + 'a' as int) as char else c
  }

  /** `str.lower()` on ASCII text. */
  function Lower(s: string): (r: string)
    ensures |r| == |s|
    ensures forall i :: 0 <= i < |s| ==> r[i] == LowerChar(s[i])
  {
    if s == [] then [] else [LowerChar(s[0])] + Lower(s[1..])
  }

  /** Lower-casing leaves no upper-case letter behind and touches nothing else. */
  lemma LowerIsLowerCase(s: string)
    ensures forall i :: 0 <= i < |s| ==> !('A' <= Lower(s)[i] <= 'Z')
    ensures forall i :: 0 <= i < |s| && !('A' <= s[i] <= 'Z') ==> Lower(s)[i] == s[i]
  {
  }

  /** Lower-casing twice is lower-casing once. */
  lemma LowerIdempotent(s: string)
    ensures Lower(Lower(s)) == Lower(s)
  {
  }

  /** How `parse_record_data` stores attribute i: MX's mail server and A's address are lower-cased. */
  function Converted(kind: Kind, i: nat, v: string): string
  {
    if (kind == MX && i == 1) || (kind == A && i == 0) then Lower(v) else v
  }

  /** How many of the kind's attributes, from the first, a remote record has. */
  function Present(kind: Kind, rr: Attrs): (n: nat)
    ensures n <= |AttrNames(kind)|
    ensures forall i :: 0 <= i < n ==> AttrNames(kind)[i] in rr
    ensures n < |AttrNames(kind)| ==> AttrNames(kind)[n] !in rr
  {
    PresentFrom(AttrNames(kind), rr, 0)
  }

  function PresentFrom(names: seq<string>, rr: Attrs, i: nat): (n: nat)
    requires i <= |names|
    requires forall j :: 0 <= j < i ==> names[j] in rr
    ensures i <= n <= |names|
    ensures forall j :: 0 <= j < n ==> names[j] in rr
    ensures n < |names| ==> names[n] !in rr
    decreases |names| - i
  {
    if i == |names| || names[i] !in rr then i else PresentFrom(names, rr, i + 1)
  }

  /** The slot values parsed from the first n attributes of a remote record. */
  function Parsed(kind: Kind, rr: Attrs, n: nat): (vals: seq<string>)
    requires n <= |AttrNames(kind)|
    requires forall i :: 0 <= i < n ==> AttrNames(kind)[i] in rr
    ensures |vals| == n
    ensures forall i :: 0 <= i < n ==> vals[i] == Converted(kind, i, rr[AttrNames(kind)[i]])
  {
    if n == 0 then [] else Parsed(kind, rr, n - 1) + [Converted(kind, n - 1, rr[AttrNames(kind)[n - 1]])]
  }

  /** Parsing one more attribute fills one more slot. */
  lemma ParsedSnoc(kind: Kind, rr: Attrs, i: nat)
    requires i < |AttrNames(kind)|
    requires forall j :: 0 <= j <= i ==> AttrNames(kind)[j] in rr
    ensures FillSlots(Parsed(kind, rr, i + 1))
         == FillSlots(Parsed(kind, rr, i))[InfoKey(i + 1) := Converted(kind, i, rr[AttrNames(kind)[i]])]
  {
    Payloads.FillSlotsSnoc(Parsed(kind, rr, i), Converted(kind, i, rr[AttrNames(kind)[i]]));
  }

  /** One more parsed attribute, written over the slots parsed so far. */
  lemma ParseStep(before: map<string, string>, kind: Kind, rr: Attrs, i: nat)
    requires i < |AttrNames(kind)|
    requires forall j :: 0 <= j <= i ==> AttrNames(kind)[j] in rr
    ensures (before + FillSlots(Parsed(kind, rr, i)))[InfoKey(i + 1) := Converted(kind, i, rr[AttrNames(kind)[i]])]
         == before + FillSlots(Parsed(kind, rr, i + 1))
  {
    ParsedSnoc(kind, rr, i);
    UnionUpdate(before, FillSlots(Parsed(kind, rr, i)), InfoKey(i + 1), Converted(kind, i, rr[AttrNames(kind)[i]]));
  }

  /** Present stops at the first missing attribute. */
  lemma PresentAt(kind: Kind, rr: Attrs, i: nat)
    requires i <= |AttrNames(kind)|
    requires forall j :: 0 <= j < i ==> AttrNames(kind)[j] in rr
    requires i < |AttrNames(kind)| ==> AttrNames(kind)[i] !in rr
    ensures Present(kind, rr) == i
  {
  }

  /**
   * The assignments of a subclass's parse_record_data, in order, up to the
   * first attribute the remote record lacks: n counts the slots written,
   * and slots is the slot map afterwards.
   */
  method ParseSlots(kind: Kind, rr: Attrs, start: map<string, string>) returns (n: nat, slots: map<string, string>)
    ensures n == Present(kind, rr)
    ensures slots == start + FillSlots(Parsed(kind, rr, n))
  {
    var names := AttrNames(kind);
    slots := start;
    n := 0;
    ParsedNone(kind, rr, start);
    while n < |names| && names[n] in rr
      invariant names == AttrNames(kind) && ParsedSoFar(kind, rr, start, n, slots)
    {
      ParsedMore(kind, rr, start, n, slots);
      slots := slots[InfoKey(n + 1) := Converted(kind, n, rr[names[n]])];
      n := n + 1;
    }
    ParsedAll(kind, rr, start, n, slots);
  }

  /** Loop state of parse_record_data: the first n attributes copied over `start`. */
  ghost predicate ParsedSoFar(kind: Kind, rr: Attrs, start: map<string, string>, n: nat, slots: map<string, string>)
  {
    && n <= |AttrNames(kind)|
    && (forall j :: 0 <= j < n ==> AttrNames(kind)[j] in rr)
    && slots == start + FillSlots(Parsed(kind, rr, n))
  }

  lemma ParsedNone(kind: Kind, rr: Attrs, start: map<string, string>)
    ensures ParsedSoFar(kind, rr, start, 0, start)
  {
    assert start + map[] == start;
  }

  lemma ParsedMore(kind: Kind, rr: Attrs, start: map<string, string>, n: nat, slots: map<string, string>)
    requires ParsedSoFar(kind, rr, start, n, slots)
    requires n < |AttrNames(kind)| && AttrNames(kind)[n] in rr
    ensures ParsedSoFar(kind, rr, start, n + 1, slots[InfoKey(n + 1) := Converted(kind, n, rr[AttrNames(kind)[n]])])
  {
    ParseStep(start, kind, rr, n);
  }

  lemma ParsedAll(kind: Kind, rr: Attrs, start: map<string, string>, n: nat, slots: map<string, string>)
    requires ParsedSoFar(kind, rr, start, n, slots)
    requires n < |AttrNames(kind)| ==> AttrNames(kind)[n] !in rr
    ensures n == Present(kind, rr)
    ensures slots == start + FillSlots(Parsed(kind, rr, n))
  {
    PresentAt(kind, rr, n);
  }

  /** Overwriting one key of a right-biased union overwrites it in the right operand. */
  lemma UnionUpdate(m: map<string, string>, f: map<string, string>, k: string, v: string)
    ensures (m + f)[k := v] == m + f[k := v]
  {
  }

  class DNSRecord {
    const kind: Kind
    const dName: string
    const ttl: string
    const rrType: int
    const zoneName: string
    var infoValues: map<string, string>

    /** Every slot of the record's kind holds a value. */
    ghost predicate Valid()
      reads this
    {
      SlotKeys(SlotCount(kind)) <= infoValues.Keys
    }

    /** The header `__init__` sets: host name, default TTL, type code and zone. */
    ghost predicate HasHeader(zoneName: string, hostName: string, code: int)
    {
      dName == hostName && ttl == Payloads.DefaultTTL && rrType == code && this.zoneName == zoneName
    }

    /** `DNSRecord(zone_name, host_name, record_type)` with an integer type code, kept as is. */
    constructor (zoneName: string, hostName: string, recordType: int)
      ensures kind == Base && HasHeader(zoneName, hostName, recordType)
      ensures infoValues == map[] && Valid()
    {
      kind := Base;
      dName := hostName;
      ttl := Payloads.DefaultTTL;
      rrType := recordType;
      this.zoneName := zoneName;
      infoValues := map[];
    }

    /**
     * `DNSRecord(zone_name, host_name, record_type)` for either form of the
     * type: a name goes through the registry (an unknown one raises
     * KeyError before anything is built), a code is kept.
     */
    static method New(zoneName: string, hostName: string, recordType: TypeArg) returns (r: Result<DNSRecord, Exn>)
      ensures r.Err? <==> Resolve(recordType).None?
      ensures r.Err? ==> r.error == PyError("KeyError")
      ensures r.Ok? ==> fresh(r.value) && r.value.kind == Base && r.value.infoValues == map[]
      ensures r.Ok? ==> r.value.HasHeader(zoneName, hostName, Resolve(recordType).value)
    {
      var code: int;
      if recordType.Code? {
        code := recordType.code;
      } else if recordType.name in Types {
        code := Types[recordType.name];
      } else {
        return Err(PyError("KeyError"));
      }
      var record := new DNSRecord(zoneName, hostName, code);
      r := Ok(record);
    }

    /** `MXRecord(zone_name, host_name, priority_value, mail_server)`: priority in slot 1, mail server in slot 2. */
    constructor MXRecord(zoneName: string, hostName: string, priorityValue: string, mailServer: string)
      ensures kind == MX && HasHeader(zoneName, hostName, Types["MX"])
      ensures infoValues == FillSlots([priorityValue, mailServer]) && Valid()
    {
      kind := MX;
      dName := hostName;
      ttl := Payloads.DefaultTTL;
      rrType := Types["MX"];
      this.zoneName := zoneName;
      new;
      infoValues := map[];
      infoValues := infoValues[InfoKey(1) := priorityValue];
      infoValues := infoValues[InfoKey(2) := mailServer];
      Payloads.FillSlotsSnoc([], priorityValue);
      Payloads.FillSlotsSnoc([priorityValue], mailServer);
      assert [] + [priorityValue] == [priorityValue];
      assert [priorityValue] + [mailServer] == [priorityValue, mailServer];
    }

    /** `ARecord(zone_name, host_name, ip_address_v4)`: the address in slot 1. */
    constructor ARecord(zoneName: string, hostName: string, ipAddressV4: string)
      ensures kind == A && HasHeader(zoneName, hostName, Types["A"])
      ensures infoValues == FillSlots([ipAddressV4]) && Valid()
    {
      kind := A;
      dName := hostName;
      ttl := Payloads.DefaultTTL;
      rrType := Types["A"];
      this.zoneName := zoneName;
      new;
      infoValues := map[];
      infoValues := infoValues[InfoKey(1) := ipAddressV4];
      Payloads.FillSlotsSnoc([], ipAddressV4);
      assert [] + [ipAddressV4] == [ipAddressV4];
    }

    /** `TXTRecord(zone_name, host_name, char_str)`: the text in slot 1. */
    constructor TXTRecord(zoneName: string, hostName: string, charStr: string)
      ensures kind == TXT && HasHeader(zoneName, hostName, Types["TXT"])
      ensures infoValues == FillSlots([charStr]) && Valid()
    {
      kind := TXT;
      dName := hostName;
      ttl := Payloads.DefaultTTL;
      rrType := Types["TXT"];
      this.zoneName := zoneName;
      new;
      infoValues := map[];
      infoValues := infoValues[InfoKey(1) := charStr];
      Payloads.FillSlotsSnoc([], charStr);
      assert [] + [charStr] == [charStr];
    }

    /** `NSRecord(zone_name, host_name, name_server)`: the name server in slot 1. */
    constructor NSRecord(zoneName: string, hostName: string, nameServer: string)
      ensures kind == NS && HasHeader(zoneName, hostName, Types["NS"])
      ensures infoValues == FillSlots([nameServer]) && Valid()
    {
      kind := NS;
      dName := hostName;
      ttl := Payloads.DefaultTTL;
      rrType := Types["NS"];
      this.zoneName := zoneName;
      new;
      infoValues := map[];
      infoValues := infoValues[InfoKey(1) := nameServer];
      Payloads.FillSlotsSnoc([], nameServer);
      assert [] + [nameServer] == [nameServer];
    }

    /** `SOARecord(...)`: slots 1 to 7 hold host, contact, serial, refresh, retry, expire and minimum TTL. */
    constructor SOARecord(zoneName: string, hostName: string, contactName: string, serialNumber: string,
                          refreshDuration: string, retryDuration: string, expireLimit: string, minTtl: string)
      ensures kind == SOA && HasHeader(zoneName, hostName, Types["SOA"])
      ensures infoValues == FillSlots([hostName, contactName, serialNumber, refreshDuration,
                                       retryDuration, expireLimit, minTtl])
      ensures Valid()
    {
      kind := SOA;
      dName := hostName;
      ttl := Payloads.DefaultTTL;
      rrType := Types["SOA"];
      this.zoneName := zoneName;
      new;
      infoValues := map[];
      infoValues := infoValues[InfoKey(1) := hostName];
      infoValues := infoValues[InfoKey(2) := contactName];
      infoValues := infoValues[InfoKey(3) := serialNumber];
      infoValues := infoValues[InfoKey(4) := refreshDuration];
      infoValues := infoValues[InfoKey(5) := retryDuration];
      infoValues := infoValues[InfoKey(6) := expireLimit];
      infoValues := infoValues[InfoKey(7) := minTtl];
      Payloads.SoaSlotsFilled(hostName, contactName, serialNumber, refreshDuration, retryDuration, expireLimit, minTtl);
    }


    /**
     * `interesting()`: the base class answers True for every record, and
     * only the SOA subclass overrides it to answer False.
     */
    predicate Interesting(): (r: bool)
      ensures kind != SOA ==> r
      ensures kind == SOA ==> !r
    {
      kind != SOA
    }

    /** `__cmp__`: Python's `cmp` of the two type codes. */
    function Cmp(other: DNSRecord): (c: int)
      ensures c == -1 || c == 0 || c == 1
      ensures c < 0 <==> rrType < other.rrType
      ensures c == 0 <==> rrType == other.rrType
    {
      if rrType < other.rrType then -1 else if rrType > other.rrType then 1 else 0
    }

    /**
     * `get_type`: walk the registry (in no particular order) for the name
     * whose code is the record's type; `None` when no name has it.
     */
    method GetType() returns (name: Option<string>)
      ensures name.Some? ==> name.value in Types && Types[name.value] == rrType
      ensures name.None? <==> rrType !in Types.Values
      ensures forall n :: n in Types && Types[n] == rrType ==> name == Some(n)
      ensures name == NameOf(rrType)
    {
      var remaining := Types.Keys;
      while remaining != {}
        invariant remaining <= Types.Keys
        invariant forall n :: n in Types && n !in remaining ==> Types[n] != rrType
        decreases |remaining|
      {
        var n :| n in remaining;
        if Types[n] == rrType {
          TypesInjective();
          NameOfInverts(rrType);
          return Some(n);
        }
        remaining := remaining - {n};
      }
      NameOfInverts(rrType);
      name := None;
    }

    /** `get_type()` as `as_dict` shows it. */
    method ShownType() returns (v: DictValue)
      ensures v == AsValue(NameOf(rrType))
    {
      var recordType := GetType();
      v := AsValue(recordType);
    }

    /** The base class's `as_dict`: header fields, the type's registry name and the `interesting()` flag. */
    method BaseAsDict() returns (d: map<string, DictValue>)
      ensures d.Keys == BaseKeys
      ensures d["HostName"] == Text(dName) && d["TTL"] == Text(ttl) && d["ZoneName"] == Text(zoneName)
      ensures d["RecordType"] == AsValue(NameOf(rrType))
      ensures d["Interesting"] == Flag(kind != SOA)
    {
      var recordType := ShownType();
      d := map[
        "HostName" := Text(dName),
        "TTL" := Text(ttl),
        "RecordType" := recordType,
        "ZoneName" := Text(zoneName),
        "Interesting" := Flag(Interesting())];
    }

    /**
     * A subclass's `as_dict`: the base dictionary with the subclass's slots
     * added under their display names; an SOA record shows slot 1 as its
     * HostName.
     */
    method AsDict() returns (d: map<string, DictValue>)
      requires Valid()
      ensures d.Keys == BaseKeys + set n | n in DisplayNames(kind)
      ensures d["TTL"] == Text(ttl) && d["ZoneName"] == Text(zoneName)
      ensures d["Interesting"] == Flag(kind != SOA)
      ensures d["RecordType"] == AsValue(NameOf(rrType))
      ensures kind != SOA ==> d["HostName"] == Text(dName)
      ensures forall i :: 1 <= i <= SlotCount(kind) ==> d[DisplayNames(kind)[i - 1]] == Text(infoValues[InfoKey(i)])
    {
      var base := BaseAsDict();
      DisplayNamesDistinct(kind);
      d := base + Shown(DisplayNames(kind), infoValues);
      ShownOverBase(base, kind, infoValues);
      ShownSlots(base, kind, infoValues);
    }

    /**
     * `parse_record_data(rr)`: copy the remote record's attributes into the
     * slots, in the subclass's order.  The base class raises
     * NotImplementedError; a missing attribute raises AttributeError and
     * leaves the slots already copied in place.
     */
    method ParseRecordData(rr: Attrs) returns (err: Option<Exn>)
      modifies this
      ensures kind == Base ==> err == Some(PyError("NotImplementedError")) && infoValues == old(infoValues)
      ensures kind != Base ==>
        && infoValues == old(infoValues) + FillSlots(Parsed(kind, rr, Present(kind, rr)))
        && (err.None? <==> Present(kind, rr) == SlotCount(kind))
        && (err.Some? ==> err == Some(PyError("AttributeError")))
      ensures old(Valid()) ==> Valid()
    {
      if kind == Base {
        err := Some(PyError("NotImplementedError"));
      } else {
        ghost var before := infoValues;
        var n;
        n, infoValues := ParseSlots(kind, rr, infoValues);
        ParseKeepsValid(before, kind, rr, infoValues);
        err := if n < SlotCount(kind) then Some(PyError("AttributeError")) else None;
      }
    }

  }

  /** Parsing keeps every slot of the record's kind filled. */
  lemma ParseKeepsValid(before: map<string, string>, kind: Kind, rr: Attrs, after: map<string, string>)
    requires after == before + FillSlots(Parsed(kind, rr, Present(kind, rr)))
    ensures SlotKeys(SlotCount(kind)) <= before.Keys ==> SlotKeys(SlotCount(kind)) <= after.Keys
  {
  }

  /** `cmp` on records is antisymmetric and transitive, and equal type codes compare equal. */
  lemma CmpIsTypeOrder(a: DNSRecord, b: DNSRecord, c: DNSRecord)
    ensures a.Cmp(b) == -b.Cmp(a)
    ensures a.Cmp(b) <= 0 && b.Cmp(c) <= 0 ==> a.Cmp(c) <= 0
    ensures a.rrType == b.rrType ==> a.Cmp(c) == b.Cmp(c)
  {
  }

  /**
   * A complete SOA remote record fills slots 1 to 7 in the same order the
   * SOA constructor does.
   */
  lemma SoaParseMatchesConstructor(rr: Attrs)
    requires forall a :: a in AttrNames(SOA) ==> a in rr
    ensures Present(SOA, rr) == 7
    ensures Parsed(SOA, rr, 7) == [rr["host_name"], rr["contact_name"], rr["serial_number"],
                                   rr["refresh_duration"], rr["retry_duration"], rr["expire_limit"], rr["min_ttl"]]
  {
    var names := AttrNames(SOA);
    forall j | 0 <= j < 7 ensures names[j] in rr {
      assert names[j] in names;
    }
    PresentAt(SOA, rr, 7);
    var p := Parsed(SOA, rr, 7);
    assert p[0] == rr["host_name"] && p[1] == rr["contact_name"] && p[2] == rr["serial_number"];
    assert p[3] == rr["refresh_duration"] && p[4] == rr["retry_duration"];
    assert p[5] == rr["expire_limit"] && p[6] == rr["min_ttl"];
  }

  /** MX keeps the priority as given and lower-cases the mail server; A lower-cases the address. */
  lemma MxAndAParseLowerCase(rr: Attrs)
    ensures "priority" in rr && "mailserver" in rr ==>
      Present(MX, rr) == 2 && Parsed(MX, rr, 2) == [rr["priority"], Lower(rr["mailserver"])]
    ensures "address" in rr ==> Present(A, rr) == 1 && Parsed(A, rr, 1) == [Lower(rr["address"])]
  {
  }
}
