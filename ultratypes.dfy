/**
 * The provider's record-type registry (ultratypes.py): a closed table from
 * symbolic DNS record-type names to numeric type codes.  A, NS, CNAME, SOA,
 * PTR, HINFO, MX and TXT carry their TYPE values of section 3.2.2 of
 * RFC 1035, ANY is the QTYPE `*` of section 3.2.3 of RFC 1035, and AAAA is
 * the type of section 2.1 of RFC 3596.  RP (section 2.2 of RFC 1183), SRV
 * (RFC 2782), NAPTR (RFC 2915, now RFC 3403) and SPF (RFC 4408) come from
 * later RFCs.  ALL is the provider's own "every type" sentinel.
 */
module UltraTypes {
  import opened Wrappers

  const Types: map<string, int> := map[
    "ALL" := 0,
    "A" := 1,
    "NS" := 2,
    "CNAME" := 5,
    "SOA" := 6,
    "PTR" := 12,
    "HINFO" := 13,
    "MX" := 15,
    "TXT" := 16,
    "RP" := 17,
    "AAAA" := 28,
    "SRV" := 33,
    "NAPTR" := 35,
    "SPF" := 99,
    "ANY" := 255
  ]

  /** The names of the registry, in the order the table lists them. */
  const Names: seq<string> := [
    "ALL", "A", "NS", "CNAME", "SOA", "PTR", "HINFO", "MX",
    "TXT", "RP", "AAAA", "SRV", "NAPTR", "SPF", "ANY"
  ]

  /** A record type as callers pass it: a registry name or a raw numeric code. */
  datatype TypeArg = Name(name: string) | Code(code: int)

  /**
   * Turns a record-type argument into a numeric code the way the payload
   * builders do: an int is kept as it is, a name is looked up in the
   * registry, and an unknown name fails (a KeyError in the source).
   */
  function Resolve(t: TypeArg): (r: Option<int>)
    ensures r.Some? <==> (t.Code? || t.name in Types)
    ensures t.Code? ==> r == Some(t.code)
    ensures t.Name? && r.Some? ==> r.value == Types[t.name]
  {
    match t
    case Code(c) => Some(c)
    case Name(n) => if n in Types then Some(Types[n]) else None
  }

  /** No two names of the registry share a code. */
  ghost predicate Injective(m: map<string, int>)
  {
    forall a, b :: a in m && b in m && m[a] == m[b] ==> a == b
  }

  /** The table lists every name once, and exactly the names of the registry. */
  lemma NamesAreTheRegistry()
    ensures |Names| == 15
    ensures forall i, j :: 0 <= i < j < |Names| ==> Names[i] != Names[j]
    ensures forall n :: n in Types <==> n in Names
  {
  }

  /** Position of a registry name in the table. */
  function IndexOf(n: string): (i: nat)
    requires n in Names
    ensures i < |Names| && Names[i] == n
  {
    IndexFrom(Names, n, 0)
  }

  /** First position at or after k where `names` holds n. */
  function IndexFrom(names: seq<string>, n: string, k: nat): (i: nat)
    requires k <= |names| && n in names[k..]
    ensures k <= i < |names| && names[i] == n
    decreases |names| - k
  {
    if names[k] == n then k
    else
      assert names[k..] == [names[k]] + names[k + 1..];
      IndexFrom(names, n, k + 1)
  }

  /** The codes in table order. */
  const Codes: seq<int> := [0, 1, 2, 5, 6, 12, 13, 15, 16, 17, 28, 33, 35, 99, 255]

  /** Reading the map at a name gives the code at the same position of the table. */
  lemma CodesMatchTable()
    ensures |Codes| == |Names|
    ensures forall i :: 0 <= i < |Names| ==> Names[i] in Types && Types[Names[i]] == Codes[i]
  {
  }

  /** Reverse lookup: the name listed with `code`, searching the table in order. */
  function NameOf(code: int): Option<string>
  {
    NameFrom(code, 0)
  }

  function NameFrom(code: int, k: nat): Option<string>
    requires k <= |Codes|
    decreases |Codes| - k
  {
    if k == |Codes| then None
    else if Codes[k] == code then Some(Names[k])
    else NameFrom(code, k + 1)
  }

  /** The search from k finds the name at any later position holding the code. */
  lemma {:induction false} NameFromAt(code: int, k: nat, i: nat)
    requires k <= i < |Codes| && Codes[i] == code
    ensures NameFrom(code, k) == Some(Names[i])
    decreases i - k
  {
    if k < i {
      CodesDistinct(k, i);
      NameFromAt(code, k + 1, i);
    }
  }

  /** What the search from k finds is listed with the code at some later position. */
  lemma {:induction false} NameFromFound(code: int, k: nat)
    requires k <= |Codes|
    ensures NameFrom(code, k).Some? ==>
      exists i :: k <= i < |Codes| && Codes[i] == code && NameFrom(code, k).value == Names[i]
    decreases |Codes| - k
  {
    if k < |Codes| && Codes[k] != code {
      NameFromFound(code, k + 1);
    }
  }

  /**
   * Reverse lookup inverts the registry: it finds exactly the name mapped
   * to the code, and nothing when no name maps to it.
   */
  lemma NameOfInverts(code: int)
    ensures forall n :: n in Types && Types[n] == code ==> NameOf(code) == Some(n)
    ensures NameOf(code).None? <==> code !in Types.Values
  {
    NamesAreTheRegistry();
    CodesMatchTable();
    forall n | n in Types && Types[n] == code
      ensures NameOf(code) == Some(n)
    {
      NameFromAt(code, 0, IndexOf(n));
    }
    NameFromFound(code, 0);
  }

  /** The registry is injective: every name maps to a distinct code. */
  lemma {:induction false} TypesInjective()
    ensures Injective(Types)
  {
    NamesAreTheRegistry();
    CodesMatchTable();
    forall a, b | a in Types && b in Types && Types[a] == Types[b]
      ensures a == b
    {
      var i, j := IndexOf(a), IndexOf(b);
      CodesDistinct(i, j);
    }
  }

  /** The table lists the codes in strictly increasing order. */
  lemma CodesIncreasing(i: nat, j: nat)
    requires i < j < |Codes|
    ensures Codes[i] < Codes[j]
  {
  }

  /** Two positions of the table with the same code are the same position. */
  lemma CodesDistinct(i: nat, j: nat)
    requires i < |Codes| && j < |Codes|
    ensures Codes[i] == Codes[j] ==> i == j
  {
    if i < j {
      CodesIncreasing(i, j);
    } else if j < i {
      CodesIncreasing(j, i);
    }
  }

  /** ALL is 0, and no real record type uses 0. */
  lemma AllIsSentinel()
    ensures Types["ALL"] == 0
    ensures forall n :: n in Types && n != "ALL" ==> Types[n] != 0
  {
    TypesInjective();
  }

  /** The standard TYPE values of section 3.2.2 of RFC 1035. */
  lemma StandardTypeCodes()
    ensures Types["A"] == 1 && Types["NS"] == 2 && Types["CNAME"] == 5 && Types["SOA"] == 6
    ensures Types["PTR"] == 12 && Types["HINFO"] == 13 && Types["MX"] == 15 && Types["TXT"] == 16
    ensures Types["ANY"] == 255 && Types["AAAA"] == 28
  {
  }

  /** The registry is closed: fifteen names, every code fits one octet. */
  lemma {:induction false} RegistryClosed()
    ensures |Types| == 15
    ensures forall n :: n in Types ==> 0 <= Types[n] <= 255
  {
    KeysAreNames();
    NamesAreTheRegistry();
    DistinctCard(Names);
    assert |Types| == |Types.Keys|;
    forall n | n in Types ensures 0 <= Types[n] <= 255 {
      CodesMatchTable();
      CodeFitsOctet(IndexOf(n));
    }
  }

  lemma CodeFitsOctet(i: nat)
    requires i < |Codes|
    ensures 0 <= Codes[i] <= 255
  {
  }

  lemma KeysAreNames()
    ensures Types.Keys == set n | n in Names
  {
    NamesAreTheRegistry();
  }

  /** A sequence without repetitions has as many distinct elements as positions. */
  lemma {:induction false} DistinctCard(s: seq<string>)
    requires forall i, j :: 0 <= i < j < |s| ==> s[i] != s[j]
    ensures |set n | n in s| == |s|
  {
    if s != [] {
      var t := s[..|s| - 1];
      DistinctCard(t);
      assert (set n | n in s) == (set n | n in t) + {s[|s| - 1]};
      assert s[|s| - 1] !in t;
    }
  }
}
