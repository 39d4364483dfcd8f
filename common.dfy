/** Small shared vocabulary: optional values, error-or-value results and user identities. */
module Common {

  /** A value that may be absent: a nullable database column or a missing request field. */
  datatype Option<T> = None | Some(value: T)

  /** The outcome of a view: a value on success, a business error otherwise. */
  datatype Result<T, E> = Ok(value: T) | Err(error: E)

  /** Primary key of an authenticated user. */
  type UserId = nat

  /** The requesting user as the views see it: its key and whether it is a staff account. */
  datatype User = User(id: UserId, isStaff: bool)

  /** Decimal rendering of a key, as an f-string renders an integer id. */
  function NatToString(n: nat): (s: string)
    ensures |s| >= 1
    ensures forall i :: 0 <= i < |s| ==> '0' <= s[i] <= '9'
  {
    var digit := ['0', '1', '2', '3', '4', '5', '6', '7', '8', '9'][n % 10];
    if n < 10 then [digit] else NatToString(n / 10) + [digit]
  }

  /** The value of a run of decimal digits, most significant first. */
  function DigitsValue(s: string): nat
    requires forall i :: 0 <= i < |s| ==> '0' <= s[i] <= '9'
  {
    if s == [] then 0 else DigitsValue(s[..|s| - 1]) * 10 + (s[|s| - 1] as int - '0' as int)
  }

  /** Reading the rendering back gives the key: distinct keys render differently. */
  lemma {:induction false} NatToStringRoundTrip(n: nat)
    ensures DigitsValue(NatToString(n)) == n
  {
    var s := NatToString(n);
    if n >= 10 {
      NatToStringRoundTrip(n / 10);
      assert s[..|s| - 1] == NatToString(n / 10);
    }
  }
}
