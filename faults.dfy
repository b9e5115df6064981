/**
 * Fault translation: the registry of exception classes by provider error
 * code (`UDNS_ERRORS`, filled by the `error_id` decorator) and
 * `translate_exceptions`, which turns a SOAP fault into a local exception.
 */
module Faults {
  import opened Wrappers
  import opened Remote
  import Slots

  /** The registry once the module is loaded: code 1801 is ZoneNotFound. */
  const UdnsErrors: map<int, ErrorClass> := map[1801 := ZoneNotFound]

  /** The mutable registry `UDNS_ERRORS`. */
  class ErrorRegistry {
    var classes: map<int, ErrorClass>

    /** `UDNS_ERRORS = {}` */
    constructor ()
      ensures classes == map[]
    {
      classes := map[];
    }

    /** `error_id(id)(cls)`: registers cls under id and hands cls back unchanged. */
    method ErrorId(id: int, cls: ErrorClass) returns (registered: ErrorClass)
      modifies this
      ensures registered == cls
      ensures classes == old(classes)[id := cls]
    {
      classes := classes[id := cls];
      registered := cls;
    }
  }

  /** Loading the module: an empty registry, then `@error_id(1801)` on ZoneNotFound. */
  method LoadRegistry() returns (registry: ErrorRegistry)
    ensures fresh(registry)
    ensures registry.classes == UdnsErrors
  {
    registry := new ErrorRegistry();
    var _ := registry.ErrorId(1801, ZoneNotFound);
  }

  /** `UDNS_ERRORS.get(code, UDNSException)`: an int code finds its class; anything else gets the default. */
  function ClassFor(registry: map<int, ErrorClass>, code: FaultCode): (c: ErrorClass)
    ensures c == ZoneNotFound <==> code.IntCode? && code.n in registry && registry[code.n] == ZoneNotFound
  {
    match code
    case IntCode(n) => if n in registry then registry[n] else UDNSException
    case TextCode(_) => UDNSException
  }

  predicate IsDigit(c: char)
  {
    '0' <= c <= '9'
  }

  predicate AllDigits(s: string)
  {
    forall i :: 0 <= i < |s| ==> IsDigit(s[i])
  }

  /** The number a string of decimal digits denotes. */
  function DigitsValue(s: string): nat
    requires AllDigits(s)
  {
    if s == [] then 0 else DigitsValue(s[..|s| - 1]) * 10 + (s[|s| - 1] as int - '0' as int)
  }

  /** The text `int(s)` accepts: an optional sign and at least one decimal digit. */
  predicate IsIntLiteral(s: string)
  {
    if |s| > 0 && (s[0] == '-' || s[0] == '+') then |s| > 1 && AllDigits(s[1..])
    else |s| > 0 && AllDigits(s)
  }

  /** Python's `int(s)` on a string; None stands for the ValueError it raises on other text. */
  function ParseInt(s: string): (r: Option<int>)
    ensures r.Some? <==> IsIntLiteral(s)
  {
    if |s| > 0 && (s[0] == '-' || s[0] == '+') then
      if |s| > 1 && AllDigits(s[1..]) then
        Some(if s[0] == '-' then 0 - DigitsValue(s[1..]) as int else DigitsValue(s[1..]))
      else None
    else if |s| > 0 && AllDigits(s) then Some(DigitsValue(s))
    else None
  }

  /** The decimal text of a natural number, as the service writes an error code. */
  function Decimal(n: nat): (s: string)
    ensures |s| > 0 && AllDigits(s) && s[0] != '-' && s[0] != '+'
  {
    if n < 10 then [Slots.Digit(n)] else Decimal(n / 10) + [Slots.Digit(n % 10)]
  }

  /** Reading a number's decimal text gives the number back. */
  lemma {:induction false} DecimalValue(n: nat)
    ensures DigitsValue(Decimal(n)) == n
  {
    if n >= 10 {
      DecimalValue(n / 10);
      var s := Decimal(n);
      assert s[..|s| - 1] == Decimal(n / 10);
    }
  }

  /** `int(...)` of a code the service wrote in decimal is that code. */
  lemma ParseDecimal(n: nat)
    ensures ParseInt(Decimal(n)) == Some(n)
  {
    DecimalValue(n);
  }

  /**
   * The exception a WebFault becomes (ultrasoap/ultrasoap.py): reading
   * `detail.UltraWSException` raises AttributeError when the fault has no
   * such element; otherwise the errorCode goes through `int()`, which raises
   * ValueError on non-numeric text, and the registry class for that code is
   * raised with (code, errorDescription).
   */
  function TranslateFault(registry: map<int, ErrorClass>, f: Fault): (e: Exn)
    ensures e.UDNS? || e == PyError("ValueError") || e == PyError("AttributeError")
    ensures e == PyError("AttributeError") <==> f.detail.None?
    ensures e.UDNS? <==> f.detail.Some? && IsIntLiteral(f.detail.value.errorCode)
  {
    match f.detail
    case None => PyError("AttributeError")
    case Some(d) =>
      match ParseInt(d.errorCode)
      case None => PyError("ValueError")
      case Some(code) => UDNS(ClassFor(registry, IntCode(code)), IntCode(code), d.errorDescription)
  }

  /** No WebFault is left in a translated reply. */
  predicate NoWebFault(r: Reply)
  {
    !(r.Raised? && r.exn.WebFault?)
  }

  /** `translate_exceptions` around a call that ended with r. */
  function Translate(registry: map<int, ErrorClass>, r: Reply): (t: Reply)
    ensures NoWebFault(t)
    ensures t.Returned? <==> r.Returned?
  {
    match r
    case Returned(_) => r
    case Raised(e) => if e.WebFault? then Raised(TranslateFault(registry, e.fault)) else r
  }

  /** A successful call's result passes through unchanged. */
  lemma TranslatePassesResults(registry: map<int, ErrorClass>, v: Value)
    ensures Translate(registry, Returned(v)) == Returned(v)
  {
  }

  /** Only WebFault is caught: every other exception propagates unchanged. */
  lemma TranslateLeavesOtherErrors(registry: map<int, ErrorClass>, e: Exn)
    requires !e.WebFault?
    ensures Translate(registry, Raised(e)) == Raised(e)
  {
  }

  /** A translated fault carries exactly (int(errorCode), errorDescription), and its class comes from the registry. */
  lemma FaultCarriesCodeAndDescription(registry: map<int, ErrorClass>, f: Fault, code: int)
    requires f.detail.Some? && ParseInt(f.detail.value.errorCode) == Some(code)
    ensures Translate(registry, Raised(WebFault(f)))
         == Raised(UDNS(if code in registry then registry[code] else UDNSException, IntCode(code), f.detail.value.errorDescription))
  {
  }

  /** Code 1801 yields ZoneNotFound, whatever the description says. */
  lemma ZoneNotFoundFor1801(f: Fault)
    requires f.detail.Some? && ParseInt(f.detail.value.errorCode) == Some(1801)
    ensures Translate(UdnsErrors, Raised(WebFault(f))) == Raised(UDNS(ZoneNotFound, IntCode(1801), f.detail.value.errorDescription))
  {
  }

  /** Any other code yields the generic UDNSException. */
  lemma GenericForOtherCodes(f: Fault, code: int)
    requires f.detail.Some? && ParseInt(f.detail.value.errorCode) == Some(code) && code != 1801
    ensures Translate(UdnsErrors, Raised(WebFault(f))) == Raised(UDNS(UDNSException, IntCode(code), f.detail.value.errorDescription))
  {
  }

  /** Wrapping an already wrapped call (as delete_all_records does) changes nothing. */
  lemma TranslateIdempotent(registry: map<int, ErrorClass>, r: Reply)
    ensures Translate(registry, Translate(registry, r)) == Translate(registry, r)
  {
  }

  /**
   * The variant of ultrasoap.py, as written: the class is looked up by the
   * envelope's faultcode, which is text, in a registry whose keys are ints.
   */
  function TranslateFaultByFaultcode(registry: map<int, ErrorClass>, f: Fault): (e: Exn)
    ensures e.UDNS? && e.code == TextCode(f.faultcode) && e.description == f.faultstring
  {
    UDNS(ClassFor(registry, TextCode(f.faultcode)), TextCode(f.faultcode), f.faultstring)
  }

  /** As written, the faultcode variant never raises ZoneNotFound, not even for error code 1801. */
  lemma FaultcodeVariantMissesZoneNotFound(f: Fault)
    requires f.detail.Some? && f.detail.value.errorCode == Decimal(1801)
    ensures TranslateFaultByFaultcode(UdnsErrors, f).cls == UDNSException
    ensures TranslateFault(UdnsErrors, f).cls == ZoneNotFound
  {
    ParseDecimal(1801);
  }
}
