/**
 * Vocabulary shared by every part of the driver model: optional values, the
 * failures the driver reports by exception, error codes, time points, events
 * and the records that live in the data blocks.
 */
module Common {

  datatype Option<+T> = None | Some(value: T)

  /** What the source reports by throwing an exception. */
  datatype Failure =
    | UnknownParameter(name: string)          // config::throwUnknownParameterError
    | NotAString                              // a JSON value read as a string is not one
    | NotANumber                              // a JSON value read as a number is not one
    | NumberOutOfRange                        // a JSON number that does not fit the requested type
    | UnknownDataType(keyword: string)        // createHandler: keyword outside the table
    | MissingDataType                         // load: no "dataType" member
    | MissingIoTransaction                    // load: no "ioTransaction" member
    | DifferentIoComponent                    // addInput/addOutput: point of another I/O component
    | CalledBeforeLoad(operation: string)     // std::logic_error: no handler yet
    | CalledBeforeResolve(operation: string)  // std::logic_error: I/O transaction not yet resolved

  /** A value, or the exception that replaced it. */
  datatype Result<+T> = Ok(value: T) | Err(failure: Failure)

  /** Normal completion, or the exception that ended the call. */
  datatype Outcome = Pass | Fail(failure: Failure)

  /** A time point of std::chrono::system_clock, as a count of clock ticks. */
  type TimePoint = int

  /** system_clock::time_point::min(): the clock's representation is a signed 64-bit count. */
  const MinTimePoint: TimePoint := -0x8000_0000_0000_0000

  datatype ErrorCategory = SystemCategory | GenericCategory | CustomCategory

  /** A std::error_code: a value within a category; the value 0 means "no error". */
  datatype ErrorCode = ErrorCode(value: int, category: ErrorCategory) {
    /** The conversion of std::error_code to bool. */
    predicate IsError() { value != 0 }
  }

  /** A default-constructed std::error_code. */
  const NoError := ErrorCode(0, SystemCategory)

  /** CustomError::NoData, the code used to invalidate the read state without a device round trip. */
  const NoData := ErrorCode(1, CustomCategory)

  /** std::errc::invalid_argument (EINVAL) in the generic category. */
  const InvalidArgument := ErrorCode(22, GenericCategory)

  /** A process::Event: identified by the object itself, so two events are never confused. */
  class Event {
    const direction: Direction

    constructor (direction: Direction)
      ensures this.direction == direction
    {
      this.direction := direction;
    }
  }

  /** The bytes a read command returns. */
  type Payload = seq<bv8>

  /** utils::eh::expected<payload, std::error_code>: either the read payload or the read error. */
  datatype PayloadOrError = Payload(payload: Payload) | ReadError(error: ErrorCode)

  /** payloadOrError.error(), read as "no error" when a payload is present. */
  function ErrorOf(payloadOrError: PayloadOrError): (e: ErrorCode)
    ensures payloadOrError.ReadError? ==> e == payloadOrError.error
    ensures payloadOrError.Payload? ==> !e.IsError()
  {
    match payloadOrError
    case Payload(_) => NoError
    case ReadError(e) => e
  }

  /**
   * One object in a data block: the time of its last update, the error of that
   * update and, for data points, the value it holds.
   */
  datatype Record = Record(time: TimePoint, error: ErrorCode, value: Option<Payload>)

  /** A default-constructed record: never updated, so no error and no value. */
  const DefaultRecord := Record(MinTimePoint, NoError, None)

  /** The value kinds a data point can have (the supported scalar types). */
  datatype ValueKind =
    | BoolKind
    | UInt8Kind | UInt16Kind | UInt32Kind | UInt64Kind
    | Int8Kind | Int16Kind | Int32Kind | Int64Kind
    | Float32Kind | Float64Kind
    | StringKind

  /** A value of one of the kinds; floating-point values are kept only by their bit pattern. */
  datatype Value =
    | BoolValue(b: bool)
    | UnsignedValue(bits: nat, n: nat)
    | SignedValue(bits: nat, i: int)
    | FloatValue(bits: nat, pattern: nat)
    | StringValue(s: string)

  /** The direction of a data point or an event. */
  datatype Direction = InputDirection | OutputDirection

  /** A decoded JSON value, as far as the loaders read one. */
  datatype JsonValue = JsonString(s: string) | JsonNumber(n: int) | JsonOther

  /** value.asString<std::string>() */
  function AsString(value: JsonValue): (r: Result<string>)
    ensures r.Ok? <==> value.JsonString?
    ensures r.Ok? ==> r.value == value.s
    ensures r.Err? ==> r.failure == NotAString
  {
    if value.JsonString? then Ok(value.s) else Err(NotAString)
  }

  const UInt64Limit: int := 0x1_0000_0000_0000_0000

  /** value.asNumber<std::uint64_t>() */
  function AsUInt64(value: JsonValue): (r: Result<nat>)
    ensures r.Ok? <==> value.JsonNumber? && 0 <= value.n < UInt64Limit
    ensures r.Ok? ==> r.value == value.n
    ensures !value.JsonNumber? ==> r == Err(NotANumber)
  {
    match value
    case JsonNumber(n) => if 0 <= n < UInt64Limit then Ok(n) else Err(NumberOutOfRange)
    case _ => Err(NotANumber)
  }

  function Max(a: int, b: int): (m: int)
    ensures m >= a && m >= b && (m == a || m == b)
  {
    if a >= b then a else b
  }
}
