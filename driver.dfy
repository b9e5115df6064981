/**
 * The DNS-management driver built on the client (driver.py): domain-name
 * canonicalisation, the mapping of client errors to the driver's own
 * exceptions, the zone calls, and `get_entries`' sort-and-filter of
 * records.  The client the driver obtains from its credentials is passed
 * in explicitly.
 */
module Driver {
  import opened Wrappers
  import opened Remote
  import opened Faults
  import opened Client
  import opened Records

  /** `_strip_dot`: `rstrip('.')`, every trailing dot removed. */
  function StripDot(name: string): (r: string)
    ensures r <= name
    ensures r == [] || r[|r| - 1] != '.'
    ensures forall i :: |r| <= i < |name| ==> name[i] == '.'
  {
    if name != [] && name[|name| - 1] == '.' then StripDot(name[..|name| - 1]) else name
  }

  /** `_ensure_dot`: the name with its trailing dots replaced by exactly one. */
  function EnsureDot(name: string): (r: string)
    ensures |r| >= 1 && r[|r| - 1] == '.'
    ensures |r| == 1 || r[|r| - 2] != '.'
    ensures r[..|r| - 1] <= name
    ensures forall i :: |r| - 1 <= i < |name| ==> name[i] == '.'
  {
    StripDot(name) + "."
  }

  /** A name without a trailing dot is left alone. */
  lemma StripDotFixes(name: string)
    requires name == [] || name[|name| - 1] != '.'
    ensures StripDot(name) == name
  {
  }

  /** Stripping twice is stripping once. */
  lemma StripDotIdempotent(name: string)
    ensures StripDot(StripDot(name)) == StripDot(name)
  {
    StripDotFixes(StripDot(name));
  }

  /** One more trailing dot makes no difference to the stripped name. */
  lemma StripDotTrailing(name: string)
    ensures StripDot(name + ".") == StripDot(name)
  {
    assert (name + ".")[..|name|] == name;
  }

  /** A trailing separator never changes the canonical name. */
  lemma EnsureDotTrailing(name: string)
    ensures EnsureDot(name + ".") == EnsureDot(name)
  {
    StripDotTrailing(name);
  }

  /** `_ensure_dot` is idempotent. */
  lemma EnsureDotIdempotent(name: string)
    ensures EnsureDot(EnsureDot(name)) == EnsureDot(name)
  {
    StripDotTrailing(StripDot(name));
    StripDotIdempotent(name);
  }

  /** Two names have the same canonical form exactly when they differ only in trailing dots. */
  lemma EnsureDotCanonical(a: string, b: string)
    ensures EnsureDot(a) == EnsureDot(b) <==> StripDot(a) == StripDot(b)
  {
    if EnsureDot(a) == EnsureDot(b) {
      assert StripDot(a) == EnsureDot(a)[..|EnsureDot(a)| - 1];
      assert StripDot(b) == EnsureDot(b)[..|EnsureDot(b)| - 1];
    }
  }

  /**
   * `_get_zone_records`' handlers: ZoneNotFound (checked first) becomes the
   * driver's ZoneNotFound, any other UDNSException a DomainServiceError,
   * each keeping the original; everything else passes unchanged.
   */
  function MapZoneError(e: Exn): (m: Exn)
    ensures !m.UDNS?
    ensures e.UDNS? ==> (m.DriverZoneNotFound? <==> e.cls == ZoneNotFound)
    ensures e.UDNS? ==> (m.DomainServiceError? <==> e.cls != ZoneNotFound)
    ensures e.UDNS? ==> m.orig == e
    ensures !e.UDNS? ==> m == e
  {
    if e.UDNS? && e.cls == ZoneNotFound then DriverZoneNotFound(e)
    else if e.UDNS? then DomainServiceError(e)
    else e
  }

  /** A reply with its error, if any, mapped by `_get_zone_records`' handlers. */
  function MapZoneReply(r: Reply): Reply
  {
    if r.Raised? then Raised(MapZoneError(r.exn)) else r
  }

  /**
   * A fault with the provider's code 1801 reaches the driver's caller as
   * the driver's ZoneNotFound; any other numeric code as a DomainServiceError.
   * A fault without the provider's detail, or with a non-numeric code, ends
   * in the AttributeError or ValueError of the translation, which the
   * driver's handlers let through.
   */
  lemma ZoneFaultReachesDriver(f: Fault)
    ensures var m := MapZoneReply(Translate(UdnsErrors, Raised(WebFault(f)))).exn;
      && (f.detail.None? ==> m == PyError("AttributeError"))
      && (f.detail.Some? ==> var code := ParseInt(f.detail.value.errorCode);
           && (code.None? ==> m == PyError("ValueError"))
           && (code == Some(1801) ==> m.DriverZoneNotFound?)
           && (code.Some? && code != Some(1801) ==> m.DomainServiceError?))
  {
  }

  /** `_get_zone_records(record_api, domain_name, rr_type)`: list the zone under its canonical name. */
  method GetZoneRecords(client: UltraDNSClient, domainName: string, rrType: int) returns (r: Reply)
    modifies client
    ensures var c := Call.GetResourceRecordsOfZone(EnsureDot(domainName), rrType);
      && client.trace == old(client.trace) + [c]
      && r == MapZoneReply(Translate(UdnsErrors, ResourceRecordList(client.oracle(old(client.trace), c))))
  {
    r := client.GetResourceRecordsOfZone(EnsureDot(domainName), rrType);
    if r.Raised? {
      r := Raised(MapZoneError(r.exn));
    }
  }

  /** `create_zone(domain_name)`: create the primary zone under its canonical name, outside any transaction. */
  method CreateZone(client: UltraDNSClient, domainName: string) returns (r: Reply)
    modifies client
    ensures var c := Call.CreatePrimaryZone(NoTransaction, client.accountId, EnsureDot(domainName), true);
      && client.trace == old(client.trace) + [c]
      && r == Translate(UdnsErrors, client.oracle(old(client.trace), c))
  {
    r := client.CreatePrimaryZone(EnsureDot(domainName), NoTransaction);
  }

  /** `delete_zone(domain_name)`: delete the zone under its canonical name, outside any transaction. */
  method DeleteZone(client: UltraDNSClient, domainName: string) returns (r: Reply)
    modifies client
    ensures var c := Call.DeleteZone(EnsureDot(domainName), NoTransaction);
      && client.trace == old(client.trace) + [c]
      && r == Translate(UdnsErrors, client.oracle(old(client.trace), c))
  {
    r := client.DeleteZone(EnsureDot(domainName), NoTransaction);
  }

  /** Every zone name the driver sends ends in exactly one dot, whatever the caller wrote. */
  lemma DriverNamesAreCanonical(domainName: string)
    ensures var z := EnsureDot(domainName);
      && z[|z| - 1] == '.' && (|z| == 1 || z[|z| - 2] != '.')
      && EnsureDot(z) == z
      && EnsureDot(domainName + ".") == z
  {
    EnsureDotIdempotent(domainName);
    EnsureDotTrailing(domainName);
  }

  // ----- `records.sort()`: a stable sort by type code -----

  predicate SortedByType(s: seq<DNSRecord>)
  {
    forall i, j :: 0 <= i < j < |s| ==> s[i].rrType <= s[j].rrType
  }

  /** Where a stable insertion puts x in t: after the last record whose code is not above x's. */
  function InsertPos(t: seq<DNSRecord>, x: DNSRecord): (k: nat)
    ensures k <= |t|
    ensures k == 0 || t[k - 1].rrType <= x.rrType
  {
    if t == [] || t[|t| - 1].rrType <= x.rrType then |t| else InsertPos(t[..|t| - 1], x)
  }

  function Insert(t: seq<DNSRecord>, x: DNSRecord): seq<DNSRecord>
  {
    var k := InsertPos(t, x);
    t[..k] + [x] + t[k..]
  }

  /** The list `list.sort()` leaves, with `__cmp__` comparing type codes. */
  function SortSpec(s: seq<DNSRecord>): seq<DNSRecord>
  {
    if s == [] then [] else Insert(SortSpec(s[..|s| - 1]), s[|s| - 1])
  }

  /** The records of s with type code c, in their order in s. */
  function WithType(s: seq<DNSRecord>, c: int): seq<DNSRecord>
  {
    if s == [] then [] else WithType(s[..|s| - 1], c) + (if s[|s| - 1].rrType == c then [s[|s| - 1]] else [])
  }

  /** In a sorted list, the insertion point splits codes not above x's from codes above it. */
  lemma {:induction false} InsertPosSplits(t: seq<DNSRecord>, x: DNSRecord)
    requires SortedByType(t)
    ensures forall i :: 0 <= i < InsertPos(t, x) ==> t[i].rrType <= x.rrType
    ensures forall i :: InsertPos(t, x) <= i < |t| ==> t[i].rrType > x.rrType
    decreases |t|
  {
    if t != [] && t[|t| - 1].rrType > x.rrType {
      InsertPosSplits(t[..|t| - 1], x);
    }
  }

  lemma InsertSorted(t: seq<DNSRecord>, x: DNSRecord)
    requires SortedByType(t)
    ensures SortedByType(Insert(t, x))
  {
    InsertPosSplits(t, x);
  }

  /** The sort's result is ordered by type code. */
  lemma {:induction false} SortSpecSorted(s: seq<DNSRecord>)
    ensures SortedByType(SortSpec(s))
    decreases |s|
  {
    if s != [] {
      SortSpecSorted(s[..|s| - 1]);
      InsertSorted(SortSpec(s[..|s| - 1]), s[|s| - 1]);
    }
  }

  /** The sort's result holds the same records, as often as before. */
  lemma {:induction false} SortSpecPermutes(s: seq<DNSRecord>)
    ensures multiset(SortSpec(s)) == multiset(s)
    decreases |s|
  {
    if s != [] {
      var t := SortSpec(s[..|s| - 1]);
      var k := InsertPos(t, s[|s| - 1]);
      SortSpecPermutes(s[..|s| - 1]);
      assert t == t[..k] + t[k..];
      assert s == s[..|s| - 1] + [s[|s| - 1]];
    }
  }

  lemma {:induction false} WithTypeAppend(a: seq<DNSRecord>, b: seq<DNSRecord>, c: int)
    ensures WithType(a + b, c) == WithType(a, c) + WithType(b, c)
    decreases |b|
  {
    if b == [] {
      assert a + b == a;
    } else {
      assert (a + b)[..|a + b| - 1] == a + b[..|b| - 1];
      WithTypeAppend(a, b[..|b| - 1], c);
    }
  }

  lemma {:induction false} WithTypeNone(t: seq<DNSRecord>, c: int)
    requires forall i :: 0 <= i < |t| ==> t[i].rrType != c
    ensures WithType(t, c) == []
    decreases |t|
  {
    if t != [] {
      WithTypeNone(t[..|t| - 1], c);
    }
  }

  /** Inserting x adds it after every record of its own code. */
  lemma InsertWithType(t: seq<DNSRecord>, x: DNSRecord, c: int)
    requires SortedByType(t)
    ensures WithType(Insert(t, x), c) == WithType(t, c) + (if x.rrType == c then [x] else [])
  {
    var k := InsertPos(t, x);
    var lo, hi := WithType(t[..k], c), WithType(t[k..], c);
    WithTypeAround(t[..k], x, t[k..], c);
    WithTypeAppend(t[..k], t[k..], c);
    assert t[..k] + t[k..] == t;
    assert WithType(t, c) == lo + hi;
    if x.rrType == c {
      NoneOfTypeAfter(t, x);
      assert WithType(Insert(t, x), c) == lo + [x] + [];
      assert lo + hi == lo;
    } else {
      assert WithType(Insert(t, x), c) == lo + [] + hi;
      assert lo + [] + hi == (lo + hi) + [];
    }
  }

  lemma WithTypeAround(a: seq<DNSRecord>, x: DNSRecord, b: seq<DNSRecord>, c: int)
    ensures WithType(a + [x] + b, c) == WithType(a, c) + (if x.rrType == c then [x] else []) + WithType(b, c)
  {
    WithTypeAppend(a + [x], b, c);
    WithTypeAppend(a, [x], c);
    assert [x][..0] == [];
  }

  /** After the insertion point of x no record has x's code. */
  lemma NoneOfTypeAfter(t: seq<DNSRecord>, x: DNSRecord)
    requires SortedByType(t)
    ensures WithType(t[InsertPos(t, x)..], x.rrType) == []
  {
    var k := InsertPos(t, x);
    InsertPosSplits(t, x);
    forall i | 0 <= i < |t[k..]| ensures t[k..][i].rrType != x.rrType {
      assert t[k..][i] == t[k + i];
    }
    WithTypeNone(t[k..], x.rrType);
  }

  /** The sort is stable: the records of each code keep their relative order. */
  lemma {:induction false} SortSpecStable(s: seq<DNSRecord>, c: int)
    ensures WithType(SortSpec(s), c) == WithType(s, c)
    decreases |s|
  {
    if s != [] {
      SortSpecSorted(s[..|s| - 1]);
      SortSpecStable(s[..|s| - 1], c);
      InsertWithType(SortSpec(s[..|s| - 1]), s[|s| - 1], c);
    }
  }

  /** `records.sort()`: insertion sort in place, equal codes keeping their order. */
  method SortByType(a: array<DNSRecord>)
    modifies a
    ensures a[..] == SortSpec(old(a[..]))
  {
    ghost var s := a[..];
    var i := 0;
    while i < a.Length
      invariant 0 <= i <= a.Length
      invariant a[..i] == SortSpec(s[..i])
      invariant a[i..] == s[i..]
    {
      InsertNext(a, i);
      SortedPrefixGrows(s, i);
      i := i + 1;
    }
    assert s[..a.Length] == s;
  }

  /** Sorting one more element of s inserts it into the sorted shorter prefix. */
  lemma SortedPrefixGrows(s: seq<DNSRecord>, i: nat)
    requires i < |s|
    ensures SortSpec(s[..i + 1]) == Insert(SortSpec(s[..i]), s[i])
  {
    assert s[..i + 1][..i] == s[..i];
  }

  /** One step of the sort: move a[i] back past the records of higher code before it. */
  method InsertNext(a: array<DNSRecord>, i: nat)
    requires i < a.Length
    modifies a
    ensures a[..i + 1] == Insert(old(a[..i]), old(a[i]))
    ensures a[i + 1..] == old(a[i + 1..])
  {
    var x := a[i];
    ghost var t := a[..i];
    ghost var rest := a[i + 1..];
    var j := ShiftUp(a, i, x);
    ghost var prev := a[..];
    Place(prev, t, rest, j, x);
    a[j] := x;
    assert a[..] == prev[j := x];
    assert a[..i + 1] == Insert(t, x);
    assert a[i + 1..] == rest;
  }

  /** The inner loop of the insertion: shift the records above x's code one place up. */
  method ShiftUp(a: array<DNSRecord>, i: nat, x: DNSRecord) returns (j: nat)
    requires i < a.Length
    modifies a
    ensures Gap(a[..], old(a[..i]), old(a[i + 1..]), j)
    ensures j == InsertPos(old(a[..i]), x)
  {
    ghost var t := a[..i];
    ghost var rest := a[i + 1..];
    j := i;
    GapAtEnd(a[..], i);
    while j > 0 && a[j - 1].rrType > x.rrType
      invariant j <= i
      invariant Gap(a[..], t, rest, j)
      invariant InsertPos(t, x) == InsertPos(t[..j], x)
    {
      ghost var prev := a[..];
      ShiftRight(prev, t, rest, j);
      InsertPosStep(t, x, j);
      a[j] := a[j - 1];
      assert a[..] == prev[j := prev[j - 1]];
      j := j - 1;
    }
    GapBelow(a[..], t, rest, j);
    InsertPosFound(t, x, j);
  }

  /**
   * The state of one insertion step: s is t with a gap at position j
   * (whatever it holds), followed by rest.
   */
  ghost predicate Gap(s: seq<DNSRecord>, t: seq<DNSRecord>, rest: seq<DNSRecord>, j: nat)
  {
    && |s| == |t| + 1 + |rest| && j <= |t|
    && s[..j] == t[..j] && s[j + 1..] == t[j..] + rest
  }

  lemma GapAtEnd(s: seq<DNSRecord>, i: nat)
    requires i < |s|
    ensures Gap(s, s[..i], s[i + 1..], i)
  {
  }

  lemma GapBelow(s: seq<DNSRecord>, t: seq<DNSRecord>, rest: seq<DNSRecord>, j: nat)
    requires Gap(s, t, rest, j)
    ensures j > 0 ==> s[j - 1] == t[j - 1]
  {
    if j > 0 {
      assert s[..j][j - 1] == t[..j][j - 1];
    }
  }

  /** Shifting s[j - 1] up one place moves the gap from j to j - 1. */
  lemma ShiftRight(s: seq<DNSRecord>, t: seq<DNSRecord>, rest: seq<DNSRecord>, j: nat)
    requires 0 < j && Gap(s, t, rest, j)
    ensures s[j - 1] == t[j - 1]
    ensures Gap(s[j := s[j - 1]], t, rest, j - 1)
  {
    var u := s[j := s[j - 1]];
    assert s[..j][j - 1] == t[..j][j - 1];
    assert u[j..] == [t[j - 1]] + s[j + 1..];
    assert [t[j - 1]] + t[j..] == t[j - 1..];
    assert u[..j - 1] == s[..j][..j - 1];
  }

  lemma InsertPosStep(t: seq<DNSRecord>, x: DNSRecord, j: nat)
    requires 0 < j <= |t| && t[j - 1].rrType > x.rrType
    ensures InsertPos(t[..j], x) == InsertPos(t[..j - 1], x)
  {
    assert t[..j][..j - 1] == t[..j - 1];
  }

  lemma InsertPosFound(t: seq<DNSRecord>, x: DNSRecord, j: nat)
    requires j <= |t|
    requires j == 0 || t[j - 1].rrType <= x.rrType
    ensures InsertPos(t[..j], x) == j
  {
  }

  /** Writing x into the gap at j gives the insertion. */
  lemma Place(s: seq<DNSRecord>, t: seq<DNSRecord>, rest: seq<DNSRecord>, j: nat, x: DNSRecord)
    requires Gap(s, t, rest, j)
    ensures s[j := x][..|t| + 1] == t[..j] + [x] + t[j..]
    ensures s[j := x][|t| + 1..] == rest
  {
    var u := s[j := x];
    assert u == t[..j] + [x] + (t[j..] + rest);
  }

  // ----- `get_entries`: sort, then keep the interesting records -----

  /** `[r for r in records if r.interesting()]`. */
  function InterestingOf(s: seq<DNSRecord>): seq<DNSRecord>
  {
    if s == [] then [] else InterestingOf(s[..|s| - 1]) + (if s[|s| - 1].Interesting() then [s[|s| - 1]] else [])
  }

  /** `get_entries`' sort and filter of the zone's records. */
  method GetEntries(records: array<DNSRecord>) returns (entries: seq<DNSRecord>)
    modifies records
    ensures records[..] == SortSpec(old(records[..]))
    ensures entries == InterestingOf(records[..])
  {
    SortByType(records);
    entries := [];
    var i := 0;
    while i < records.Length
      invariant 0 <= i <= records.Length
      invariant entries == InterestingOf(records[..i])
    {
      assert records[..i + 1][..i] == records[..i];
      if records[i].Interesting() {
        entries := entries + [records[i]];
      }
      i := i + 1;
    }
    assert records[..records.Length] == records[..];
  }

  /** The filter keeps exactly the interesting records: no SOA record, and every other one. */
  lemma {:induction false} InterestingOfMembers(s: seq<DNSRecord>, r: DNSRecord)
    ensures r in InterestingOf(s) <==> r in s && r.kind != SOA
    decreases |s|
  {
    if s != [] {
      InterestingOfMembers(s[..|s| - 1], r);
      assert s == s[..|s| - 1] + [s[|s| - 1]];
    }
  }

  /** The filter keeps the order of what it keeps. */
  lemma {:induction false} InterestingOfSorted(s: seq<DNSRecord>)
    requires SortedByType(s)
    ensures SortedByType(InterestingOf(s))
    decreases |s|
  {
    if s != [] {
      var p := s[..|s| - 1];
      InterestingOfSorted(p);
      forall r | r in InterestingOf(p)
        ensures r.rrType <= s[|s| - 1].rrType
      {
        InterestingOfMembers(p, r);
      }
    }
  }

  lemma {:induction false} InterestingOfWithType(s: seq<DNSRecord>, c: int)
    ensures WithType(InterestingOf(s), c) == InterestingOf(WithType(s, c))
    decreases |s|
  {
    if s != [] {
      var p, x := s[..|s| - 1], s[|s| - 1];
      InterestingOfWithType(p, c);
      var ix: seq<DNSRecord> := if x.Interesting() then [x] else [];
      assert InterestingOf(s) == InterestingOf(p) + ix;
      WithTypeAppend(InterestingOf(p), ix, c);
      assert [x][..0] == [];
      var w := WithType(p, c);
      if x.rrType == c {
        assert WithType(ix, c) == ix;
        assert WithType(s, c) == w + [x];
        assert (w + [x])[..|w + [x]| - 1] == w;
        assert InterestingOf(w + [x]) == InterestingOf(w) + ix;
      } else {
        assert WithType(ix, c) == [];
        assert WithType(s, c) == w + [];
        assert w + [] == w;
      }
    }
  }

  /**
   * `get_entries` returns only interesting records (never an SOA record),
   * every interesting record once per occurrence, ordered by type code,
   * with records of equal code in their original order.
   */
  lemma GetEntriesResult(s: seq<DNSRecord>)
    ensures var e := InterestingOf(SortSpec(s));
      && (forall r :: r in e <==> r in s && r.kind != SOA)
      && SortedByType(e)
      && (forall c :: WithType(e, c) == InterestingOf(WithType(s, c)))
  {
    var e := InterestingOf(SortSpec(s));
    SortSpecSorted(s);
    InterestingOfSorted(SortSpec(s));
    SortSpecPermutes(s);
    forall r
      ensures r in e <==> r in s && r.kind != SOA
    {
      InterestingOfMembers(SortSpec(s), r);
      assert r in SortSpec(s) <==> r in multiset(SortSpec(s));
    }
    forall c
      ensures WithType(e, c) == InterestingOf(WithType(s, c))
    {
      InterestingOfWithType(SortSpec(s), c);
      SortSpecStable(s, c);
    }
  }
}
