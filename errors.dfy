/**
 * Go error values as the program builds them: messages from `errors.New` and
 * `fmt.Errorf`, errors that come from libraries the model does not see (the
 * browser driver, the HTTP client, the JSON decoder, the time parser), the
 * program's own `RequestStatusError`, and `errors.Join` of two errors.
 */
module Errors {
  import opened Wrappers

  datatype Error =
    | New(msg: string)                          // errors.New / fmt.Errorf
    | Foreign(msg: string)                      // an error returned by a library call
    | RequestStatus(msg: string, status: int)   // *RequestStatusError
    | Joined(first: Error, second: Error)       // errors.Join(first, second)

  /** A Go `(value, error)` pair where exactly one side is meaningful. */
  datatype Result<T> = Ok(value: T) | Err(error: Error)

  // ---------------------------------------------------------------------
  // Decimal rendering of integers, as `%d` prints them

  predicate IsDigit(c: char) { '0' <= c <= '9' }

  predicate AllDigits(s: string) { forall i :: 0 <= i < |s| ==> IsDigit(s[i]) }

  function DigitChar(d: nat): (c: char)
    requires d < 10
    ensures IsDigit(c)
  {
    ('0' as int + d) as char
  }

  function DigitValue(c: char): nat
    requires IsDigit(c)
  {
    c as int - '0' as int
  }

  /** The shortest decimal numeral of `n`. */
  function NatText(n: nat): (s: string)
    ensures |s| >= 1 && AllDigits(s)
    ensures s[0] == '0' ==> n == 0 && |s| == 1
  {
    if n < 10 then [DigitChar(n)] else NatText(n / 10) + [DigitChar(n % 10)]
  }

  /** The value of a decimal numeral; the reading direction of NatText. */
  function NumeralValue(s: string): nat
    requires AllDigits(s)
  {
    if s == [] then 0 else NumeralValue(s[..|s| - 1]) * 10 + DigitValue(s[|s| - 1])
  }

  lemma {:induction false} NatTextRoundTrip(n: nat)
    ensures NumeralValue(NatText(n)) == n
  {
    if n >= 10 {
      NatTextRoundTrip(n / 10);
      var s := NatText(n);
      assert s[..|s| - 1] == NatText(n / 10);
    }
  }

  /** `%d` of a Go `int`: a minus sign before the magnitude of a negative value. */
  function IntText(i: int): (s: string)
    ensures |s| >= 1
    ensures (s[0] == '-') <==> i < 0
  {
    if i < 0 then "-" + NatText(-i) else NatText(i)
  }

  lemma IntTextInjective(i: int, j: int)
    requires IntText(i) == IntText(j)
    ensures i == j
  {
    if i < 0 {
      assert IntText(i)[1..] == NatText(-i);
      assert IntText(j)[1..] == NatText(-j);
      NatTextRoundTrip(-i);
      NatTextRoundTrip(-j);
    } else {
      NatTextRoundTrip(i);
      NatTextRoundTrip(j);
    }
  }

  // ---------------------------------------------------------------------
  // Error() texts

  /** `RequestStatusError.Error()`: the message, then the status in parentheses. */
  function RequestStatusText(msg: string, status: int): (s: string)
    ensures |s| == |msg| + 10 + |IntText(status)|
    ensures s[..|msg|] == msg
    ensures s[|msg|..|msg| + 9] == " (status "
    ensures s[|msg| + 9..|s| - 1] == IntText(status)
    ensures s[|s| - 1] == ')'
  {
    msg + " (status " + IntText(status) + ")"
  }

  /** Two status errors with the same message render alike only when their status is the same. */
  lemma RequestStatusTextDeterminesStatus(msg: string, s1: int, s2: int)
    requires RequestStatusText(msg, s1) == RequestStatusText(msg, s2)
    ensures s1 == s2
  {
    var t := RequestStatusText(msg, s1);
    assert IntText(s1) == t[|msg| + 9..|t| - 1] == IntText(s2);
    IntTextInjective(s1, s2);
  }

  /** `err.Error()`; a joined error prints its parts on separate lines. */
  function Text(e: Error): string
  {
    match e
    case New(msg) => msg
    case Foreign(msg) => msg
    case RequestStatus(msg, status) => RequestStatusText(msg, status)
    case Joined(first, second) => Text(first) + "\n" + Text(second)
  }

  // ---------------------------------------------------------------------
  // errors.As(err, &statusError)

  /** `target` is `e` itself or one of the errors joined into it. */
  predicate Wraps(e: Error, target: Error)
  {
    e == target || (e.Joined? && (Wraps(e.first, target) || Wraps(e.second, target)))
  }

  predicate HasNoStatus(e: Error)
  {
    match e
    case RequestStatus(_, _) => false
    case Joined(first, second) => HasNoStatus(first) && HasNoStatus(second)
    case _ => true
  }

  /**
   * The `*RequestStatusError` that `errors.As` finds in `e`: `e` itself, or the
   * first one met when walking the joined errors depth first, left to right.
   */
  function AsStatus(e: Error): (r: Option<Error>)
    ensures r.Some? ==> r.value.RequestStatus? && Wraps(e, r.value)
    ensures r.None? <==> HasNoStatus(e)
    ensures e.RequestStatus? ==> r == Some(e)
    ensures e.Joined? ==> r == (if !HasNoStatus(e.first) then AsStatus(e.first) else AsStatus(e.second))
  {
    match e
    case RequestStatus(_, _) => Some(e)
    case Joined(first, second) => if AsStatus(first).Some? then AsStatus(first) else AsStatus(second)
    case _ => None
  }
}
