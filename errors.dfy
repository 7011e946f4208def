/** The error values the core returns. Their enum declarations live in
    `core/errors.rs`, which is not part of this model: only the variants the
    core constructs appear here, with the text the core puts into them. */
module Errors {
  import opened DeviceMessageTypes

  /** Why a client handle refused a command (`UnhandledCommand`). The float in
      "Value must be 0 <= x <= 1, but {x} was sent" is kept as the value itself,
      because f64 `Display` rendering is not modelled. */
  datatype UnhandledReason =
    | Text(text: string)
    | ValueOutOfRange(value: real)

  datatype ButtplugMessageError =
    | InvalidMessageContents(reason: string)
    | VersionError(messageType: string, debug: string, targetType: string)
    | UnexpectedMessageType(expected: string)

  datatype ButtplugDeviceError =
    | ProtocolRequirementError(reason: string)
    | UnhandledCommand(unhandled: UnhandledReason)
    | MessageNotSupported(messageType: ButtplugDeviceMessageType)

  datatype ButtplugError =
    | DeviceError(deviceError: ButtplugDeviceError)
    | MessageError(messageError: ButtplugMessageError)

  /** Decimal rendering of an unsigned integer, as Rust's `{}` formats a `usize`. */
  function Decimal(n: nat): (s: string)
    ensures |s| >= 1
    ensures forall i :: 0 <= i < |s| ==> '0' <= s[i] <= '9'
    ensures n < 10 <==> |s| == 1
  {
    if n < 10 then [DigitChar(n)] else Decimal(n / 10) + [DigitChar(n % 10)]
  }

  function DigitChar(d: nat): (c: char)
    requires d < 10
    ensures '0' <= c <= '9'
  {
    ['0', '1', '2', '3', '4', '5', '6', '7', '8', '9'][d]
  }

  /** The value of a string of decimal digits; the partner of `Decimal`. */
  function DigitsValue(s: string): nat
    requires forall i :: 0 <= i < |s| ==> '0' <= s[i] <= '9'
  {
    if |s| == 0 then 0 else 10 * DigitsValue(s[..|s| - 1]) + (s[|s| - 1] as int - '0' as int)
  }

  /** Reading back what `Decimal` wrote gives the number: the counts placed in
      an error text are recoverable from it. */
  lemma {:induction false} DecimalRoundTrip(n: nat)
    ensures DigitsValue(Decimal(n)) == n
  {
    var s := Decimal(n);
    if n >= 10 {
      DecimalRoundTrip(n / 10);
      assert s[..|s| - 1] == Decimal(n / 10);
    }
  }
}
