/**
 * Shared vocabulary of the model: optional values (a C/C++ pointer that
 * may be null, a QString that may be unset), octets, concatenation of
 * byte pages, and the decimal rendering that QString::number gives an int.
 */
module Common {

  datatype Option<+T> = None | Some(value: T)
  {
    function GetOr(default: T): T
    {
      match this
      case None => default
      case Some(v) => v
    }
  }

  // The signon-ui error codes (QUERY_ERROR_*) and the message id asking
  // for the password again (QUERY_MESSAGE_NOT_AUTHORIZED); only their
  // being distinct matters to the model.
  const QueryErrorNone: int := 0
  const QueryErrorCanceled: int := 4
  const QueryErrorForgotPassword: int := 11
  const QueryMessageNotAuthorized: int := 3

  /** An octet of a C string or of a QByteArray. */
  type Byte = b: int | 0 <= b < 256

  /** Joins a sequence of pieces back into one sequence. */
  function Concat<T>(parts: seq<seq<T>>): seq<T>
  {
    if parts == [] then [] else parts[0] + Concat(parts[1..])
  }

  function DigitChar(d: int): char
    requires 0 <= d < 10
  {
    ['0', '1', '2', '3', '4', '5', '6', '7', '8', '9'][d]
  }

  /** Decimal digits of a natural number, most significant first. */
  function NatToString(n: nat): string
  {
    if n < 10 then [DigitChar(n)] else NatToString(n / 10) + [DigitChar(n % 10)]
  }

  /** QString::number on an int: a leading '-' for negative numbers. */
  function IntToString(i: int): string
  {
    if i < 0 then "-" + NatToString(-i) else NatToString(i)
  }

  lemma {:induction false} NatToStringShape(n: nat)
    ensures |NatToString(n)| >= 1
    ensures NatToString(n)[0] != '-'
    ensures n < 10 <==> |NatToString(n)| == 1
    ensures NatToString(n)[|NatToString(n)| - 1] == DigitChar(n % 10)
  {
    if n >= 10 {
      NatToStringShape(n / 10);
    }
  }

  /** Different numbers never print alike. */
  lemma {:induction false} NatToStringInjective(a: nat, b: nat)
    requires NatToString(a) == NatToString(b)
    ensures a == b
  {
    NatToStringShape(a);
    NatToStringShape(b);
    var s := NatToString(a);
    if a >= 10 && b >= 10 {
      assert NatToString(a / 10) == s[..|s| - 1];
      assert NatToString(b / 10) == s[..|s| - 1];
      NatToStringInjective(a / 10, b / 10);
      assert DigitChar(a % 10) == DigitChar(b % 10);
    } else {
      assert a < 10 && b < 10;
      assert DigitChar(a % 10) == DigitChar(b % 10);
    }
  }

  lemma IntToStringInjective(a: int, b: int)
    requires IntToString(a) == IntToString(b)
    ensures a == b
  {
    if a < 0 && b < 0 {
      assert NatToString(-a) == IntToString(a)[1..];
      assert NatToString(-b) == IntToString(b)[1..];
      NatToStringInjective(-a, -b);
    } else if a >= 0 && b >= 0 {
      NatToStringInjective(a, b);
    } else if a < 0 {
      NatToStringShape(b);
    } else {
      NatToStringShape(a);
    }
  }
}
