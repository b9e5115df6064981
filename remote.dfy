/**
 * What crosses the boundary to the provider's SOAP service.  The service
 * itself is not modelled: it is an oracle that answers each call, given the
 * calls made before it, with a value or an exception.  Everything the client
 * sends and everything it can get back is a value of the types below.
 */
module Remote {
  import opened Wrappers
  import opened UltraTypes

  /** Attributes of an object the service returns (a resource record, say), by name. */
  type Attrs = map<string, string>

  /** A value returned by a remote call. */
  datatype Value =
    | Str(s: string)
    | Int(i: int)
    | Bool(b: bool)
    | NoneValue
      /** A response object holding a `ResourceRecord` list. */
    | RecordList(records: seq<Attrs>)

  /** Python truthiness of a returned value, as `all(...)` reads it. */
  predicate Truthy(v: Value)
  {
    match v
    case Str(s) => s != ""
    case Int(i) => i != 0
    case Bool(b) => b
    case NoneValue => false
    case RecordList(rs) => true
  }

  /** The provider's `UltraWSException` element of a fault's detail. */
  datatype UltraWSException = UltraWSException(errorCode: string, errorDescription: string)

  /**
   * A SOAP fault: the envelope's faultcode and faultstring, and the
   * provider's detail element, which a fault raised by the SOAP layer
   * itself does not carry.
   */
  datatype Fault = Fault(faultcode: string, faultstring: string, detail: Option<UltraWSException>)

  /** The local exception classes of the fault registry; ZoneNotFound is a subclass of UDNSException. */
  datatype ErrorClass = UDNSException | ZoneNotFound

  /** The code an exception carries: an int, or the text the fault held. */
  datatype FaultCode = IntCode(n: int) | TextCode(s: string)

  /** Exceptions that can leave a call. */
  datatype Exn =
      /** The SOAP toolkit's fault exception, before translation. */
    | WebFault(fault: Fault)
      /** A UDNSException (or a subclass) raised with (code, description). */
    | UDNS(cls: ErrorClass, code: FaultCode, description: string)
      /** Any other Python exception: transport errors, KeyError, ValueError, ... */
    | PyError(name: string)
      /** The driver's exceptions.ZoneNotFound, chaining the original. */
    | DriverZoneNotFound(orig: Exn)
      /** The driver's exceptions.DomainServiceError, chaining the original. */
    | DomainServiceError(orig: Exn)

  /** How a call ends: it returns a value or raises an exception. */
  datatype Reply = Returned(value: Value) | Raised(exn: Exn)

  /** A resource-record payload as the client sends it. */
  datatype ResourceRecord = ResourceRecord(
    dName: string,
    ttl: string,
    zoneName: Option<string>,
    rrType: TypeArg,
    guid: Option<string>,
    infoValues: map<string, string>)

  /** The operations of the remote service, with the arguments the client passes. */
  datatype Call =
    | StartTransaction
    | CommitTransaction(transactionId: Value)
    | RollbackTransaction(transactionId: Value)
    | CreatePrimaryZone(transactionId: Value, accountId: string, zoneName: string, forceImport: bool)
    | DeleteZone(zoneName: string, transactionId: Value)
    | GetResourceRecordsOfZone(zoneName: string, rrType: int)
    | CreateResourceRecord(resourceRecord: ResourceRecord, transactionId: Value)
    | UpdateResourceRecord(resourceRecord: ResourceRecord, transactionId: Value)
    | DeleteResourceRecord(guid: string, transactionId: Value)

  /** The remote service: its reply to a call, given every call made before it. */
  type Oracle = (seq<Call>, Call) -> Reply

  /** The transaction id the client methods use when none is given. */
  const NoTransaction: Value := Str("")
}
