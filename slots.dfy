/**
 * Info-value slots of a resource record.  The provider's record schema
 * keeps the type-specific data of a record in numbered slots named
 * `_Info1Value`, `_Info2Value`, ...; which slot holds what is fixed by the
 * record type.  Both client variants fill slots through these keys.
 */
module Slots {
  /** The key of the i-th info-value slot, `_Info<i>Value`. */
  function InfoKey(i: nat): (k: string)
    requires 1 <= i <= 9
    ensures |k| == 11 && k[0] == '_' && k[5] == Digit(i)
  {
    "_Info" + [Digit(i)] + "Value"
  }

  function Digit(i: nat): char
    requires i <= 9
  {
    (('0' as int) + i) as char
  }

  /** Different slot numbers give different keys. */
  lemma InfoKeyInjective(i: nat, j: nat)
    requires 1 <= i <= 9 && 1 <= j <= 9
    ensures InfoKey(i) == InfoKey(j) <==> i == j
  {
    if InfoKey(i) == InfoKey(j) {
      assert InfoKey(i)[5] == InfoKey(j)[5];
    }
  }

  /** The slot map that holds `vals[0]` in slot 1, `vals[1]` in slot 2, and so on. */
  function FillSlots(vals: seq<string>): (m: map<string, string>)
    requires |vals| <= 9
    ensures m.Keys == SlotKeys(|vals|)
    ensures forall i :: 1 <= i <= |vals| ==> m[InfoKey(i)] == vals[i - 1]
  {
    if vals == [] then map[]
    else
      var n := |vals|;
      var m0 := FillSlots(vals[..n - 1]);
      var m := m0[InfoKey(n) := vals[n - 1]];
      assert forall i :: 1 <= i <= n ==> m[InfoKey(i)] == vals[i - 1] by {
        forall i | 1 <= i <= n ensures m[InfoKey(i)] == vals[i - 1] {
          InfoKeyInjective(i, n);
        }
      }
      m
  }

  /** The keys of slots 1..n. */
  function SlotKeys(n: nat): (ks: set<string>)
    requires n <= 9
    ensures forall i :: 1 <= i <= n ==> InfoKey(i) in ks
  {
    if n == 0 then {} else SlotKeys(n - 1) + {InfoKey(n)}
  }

  /** Slot j's key is among the keys of slots 1..n exactly when j <= n. */
  lemma {:induction false} SlotKeysBelow(n: nat, j: nat)
    requires n <= 9 && 1 <= j <= 9
    ensures InfoKey(j) in SlotKeys(n) <==> j <= n
  {
    if n > 0 {
      SlotKeysBelow(n - 1, j);
      InfoKeyInjective(n, j);
    }
  }

  /** Slots 1..n are n distinct keys. */
  lemma {:induction false} SlotKeysCount(n: nat)
    requires n <= 9
    ensures |SlotKeys(n)| == n
  {
    if n > 0 {
      SlotKeysCount(n - 1);
      SlotKeysBelow(n - 1, n);
    }
  }

  /** Reads slots 1..n back, in slot order. */
  function SlotValues(m: map<string, string>, n: nat): (vals: seq<string>)
    requires n <= 9
    requires forall i :: 1 <= i <= n ==> InfoKey(i) in m
    ensures |vals| == n
    ensures forall i :: 1 <= i <= n ==> vals[i - 1] == m[InfoKey(i)]
  {
    if n == 0 then [] else SlotValues(m, n - 1) + [m[InfoKey(n)]]
  }

  /** Filling the slots and reading them back gives the values in their order. */
  lemma SlotsRoundTrip(vals: seq<string>)
    requires |vals| <= 9
    ensures SlotValues(FillSlots(vals), |vals|) == vals
  {
    var m := FillSlots(vals);
    var back := SlotValues(m, |vals|);
    forall k | 0 <= k < |vals| ensures back[k] == vals[k] {
      assert back[(k + 1) - 1] == m[InfoKey(k + 1)];
    }
  }

  /** The slot layout loses nothing: different value lists give different slot maps. */
  lemma FillSlotsInjective(a: seq<string>, b: seq<string>)
    requires |a| <= 9 && |b| <= 9
    ensures FillSlots(a) == FillSlots(b) <==> a == b
  {
    if FillSlots(a) == FillSlots(b) {
      SlotKeysCount(|a|);
      SlotKeysCount(|b|);
      assert |a| == |b|;
      SlotsRoundTrip(a);
      SlotsRoundTrip(b);
    }
  }
}
