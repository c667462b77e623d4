/**
 * The error taxonomy of the transaction builder: seven error categories, each
 * carrying a 16-bit code, a per-category table from code to message, and the
 * one-line text every error displays as.
 */
module Errors {

  /** The source's codes are unsigned 16-bit integers. */
  newtype u16 = x: int | 0 <= x < 0x1_0000

  datatype TxBuilderError =
    | BuildError(code: u16)
    | JsonError(code: u16)
    | PacketError(code: u16)
    | TxBodyError(code: u16)
    | TxBuildError(code: u16)
    | TxGenerateError(code: u16)
    | KeyError(code: u16)

  /** The builder's `TxBuilderResult<T>`. */
  datatype Result<T> = Ok(value: T) | Err(error: TxBuilderError)

  /** A result that carries no value (the source returns `&mut Self` on success). */
  datatype Outcome = Pass | Fail(error: TxBuilderError)

  datatype Option<T> = None | Some(value: T)

  const UnknownError: string := "Unknown Error"

  /* ---------------------------------------------------------------------- */
  /* Per-category message tables                                            */
  /* ---------------------------------------------------------------------- */

  function BuildErrorMessage(code: u16): (m: string)
    ensures m != UnknownError <==> code == 1000
  {
    match code
    case 1000 => "Error building the transaction packet"
    case _ => UnknownError
  }

  function JsonErrorMessage(code: u16): (m: string)
    ensures m != UnknownError <==> code in {2000, 2001}
  {
    match code
    case 2000 => "Error converting array to JSON"
    case 2001 => "Error converting object to JSON"
    case _ => UnknownError
  }

  function PacketErrorMessage(code: u16): (m: string)
    ensures m != UnknownError <==> code in {3000, 3001}
  {
    match code
    case 3000 => "Error getting string from packet data"
    case 3001 => "Error getting JSON from packet data"
    case _ => UnknownError
  }

  function TxBodyErrorMessage(code: u16): (m: string)
    ensures m != UnknownError <==> code == 4000
  {
    match code
    case 4000 => "No transaction body"
    case _ => UnknownError
  }

  function TxBuildErrorMessage(code: u16): (m: string)
    ensures m != UnknownError <==> 5000 <= code <= 5008
  {
    match code
    case 5000 => "No transaction data"
    case 5001 => "Error fetching input from PacketData"
    case 5002 => "Error fetching output from PacketData"
    case 5003 => "Error fetching readonly from PacketData"
    case 5004 => "No packet data to sign"
    case 5005 => "Packet data not built yet"
    case 5006 => "Contract not set"
    case 5007 => "Namespace not set"
    case 5008 => "Input not set"
    case _ => UnknownError
  }

  function TxGenerateErrorMessage(code: u16): (m: string)
    ensures m != UnknownError <==> code in {6000, 6001}
  {
    match code
    case 6000 => "Error generating RSA key"
    case 6001 => "Error generating Elliptic Curve key"
    case _ => UnknownError
  }

  function KeyErrorMessage(code: u16): (m: string)
    ensures m != UnknownError <==> code in {7000, 7001, 7002}
  {
    match code
    case 7000 => "Error signing data with Elliptic Curve key"
    case 7001 => "Error signing data with RSA key"
    case 7002 => "Error getting keys PEM"
    case _ => UnknownError
  }

  /** The codes each category lists in its table. */
  predicate Listed(e: TxBuilderError)
  {
    match e
    case BuildError(c) => c == 1000
    case JsonError(c) => c in {2000, 2001}
    case PacketError(c) => c in {3000, 3001}
    case TxBodyError(c) => c == 4000
    case TxBuildError(c) => 5000 <= c <= 5008
    case TxGenerateError(c) => c in {6000, 6001}
    case KeyError(c) => c in {7000, 7001, 7002}
  }

  /** The lookup the display uses: always the table of the error's own category. */
  function Message(e: TxBuilderError): (m: string)
    ensures m != UnknownError <==> Listed(e)
  {
    match e
    case BuildError(c) => BuildErrorMessage(c)
    case JsonError(c) => JsonErrorMessage(c)
    case PacketError(c) => PacketErrorMessage(c)
    case TxBodyError(c) => TxBodyErrorMessage(c)
    case TxBuildError(c) => TxBuildErrorMessage(c)
    case TxGenerateError(c) => TxGenerateErrorMessage(c)
    case KeyError(c) => KeyErrorMessage(c)
  }

  predicate SameCategory(e1: TxBuilderError, e2: TxBuilderError)
  {
    match (e1, e2)
    case (BuildError(_), BuildError(_)) => true
    case (JsonError(_), JsonError(_)) => true
    case (PacketError(_), PacketError(_)) => true
    case (TxBodyError(_), TxBodyError(_)) => true
    case (TxBuildError(_), TxBuildError(_)) => true
    case (TxGenerateError(_), TxGenerateError(_)) => true
    case (KeyError(_), KeyError(_)) => true
    case _ => false
  }

  /** Within one category, two listed codes never share a message. */
  lemma MessagesDistinct(e1: TxBuilderError, e2: TxBuilderError)
    requires SameCategory(e1, e2) && Listed(e1) && Listed(e2)
    ensures Message(e1) == Message(e2) <==> e1.code == e2.code
  {
  }

  /* ---------------------------------------------------------------------- */
  /* Display                                                                */
  /* ---------------------------------------------------------------------- */

  predicate IsDigit(c: char)
  {
    '0' <= c <= '9'
  }

  predicate AllDigits(s: string)
  {
    forall i | 0 <= i < |s| :: IsDigit(s[i])
  }

  function DigitChar(d: nat): (c: char)
    requires d < 10
    ensures IsDigit(c) && (c as int) - ('0' as int) == d
  {
    (('0' as int) + d) as char
  }

  /** `{}` formatting of an unsigned integer: decimal, no leading zeros. */
  function Decimal(n: nat): (s: string)
    ensures |s| >= 1 && AllDigits(s)
    ensures |s| > 1 ==> s[0] != '0'
    decreases n
  {
    if n < 10 then [DigitChar(n)] else Decimal(n / 10) + [DigitChar(n % 10)]
  }

  function DecimalValue(s: string): nat
    requires AllDigits(s)
  {
    if s == [] then 0
    else DecimalValue(s[..|s| - 1]) * 10 + ((s[|s| - 1] as int) - ('0' as int))
  }

  lemma {:induction false} DecimalRoundTrip(n: nat)
    ensures DecimalValue(Decimal(n)) == n
    decreases n
  {
    if n >= 10 {
      DecimalRoundTrip(n / 10);
      var s := Decimal(n);
      assert s[..|s| - 1] == Decimal(n / 10);
    }
  }

  const DisplayPrefix: string := " Error - "
  const DisplaySeparator: string := " : "

  /** The `write!` format shared by every category: " Error - {code} : {message}". */
  function Format(code: nat, message: string): string
  {
    DisplayPrefix + Decimal(code) + DisplaySeparator + message
  }

  /** `impl Display for TxBuilderError`. */
  function Display(e: TxBuilderError): string
  {
    Format(e.code as nat, Message(e))
  }

  /** Length of the longest prefix of `s` made of decimal digits. */
  function DigitRun(s: string): (n: nat)
    ensures n <= |s| && AllDigits(s[..n])
    ensures n < |s| ==> !IsDigit(s[n])
  {
    if s == [] || !IsDigit(s[0]) then 0
    else
      var n := 1 + DigitRun(s[1..]);
      assert s[..n] == [s[0]] + s[1..][..n - 1];
      n
  }

  lemma {:induction false} DigitRunOfDigits(d: string, rest: string)
    requires AllDigits(d)
    requires rest == [] || !IsDigit(rest[0])
    ensures DigitRun(d + rest) == |d|
  {
    if d != [] {
      assert (d + rest)[1..] == d[1..] + rest;
      DigitRunOfDigits(d[1..], rest);
    }
  }

  /** Reads a displayed error back into its code and its message. */
  function ParseDisplay(text: string): Option<(nat, string)>
  {
    if |text| < |DisplayPrefix| || text[..|DisplayPrefix|] != DisplayPrefix then None
    else
      var body := text[|DisplayPrefix|..];
      var n := DigitRun(body);
      var tail := body[n..];
      if n == 0 || |tail| < |DisplaySeparator| || tail[..|DisplaySeparator|] != DisplaySeparator then None
      else Some((DecimalValue(body[..n]), tail[|DisplaySeparator|..]))
  }

  /** The formatted text determines the code and the message it was made from. */
  lemma FormatRoundTrip(code: nat, message: string)
    ensures ParseDisplay(Format(code, message)) == Some((code, message))
  {
    var d := Decimal(code);
    var text := Format(code, message);
    assert text == DisplayPrefix + (d + DisplaySeparator + message);
    var body := text[|DisplayPrefix|..];
    assert body == d + (DisplaySeparator + message);
    DigitRunOfDigits(d, DisplaySeparator + message);
    assert body[..|d|] == d;
    DecimalRoundTrip(code);
    assert body[|d|..] == DisplaySeparator + message;
  }

  lemma DisplayRoundTrip(e: TxBuilderError)
    ensures ParseDisplay(Display(e)) == Some((e.code as nat, Message(e)))
  {
    FormatRoundTrip(e.code as nat, Message(e));
  }

  /** Two errors of one category display alike only if they are equal. */
  lemma DisplayInjective(e1: TxBuilderError, e2: TxBuilderError)
    requires SameCategory(e1, e2)
    ensures Display(e1) == Display(e2) <==> e1 == e2
  {
    if Display(e1) == Display(e2) {
      DisplayRoundTrip(e1);
      DisplayRoundTrip(e2);
    }
  }
}
