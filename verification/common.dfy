/** Vocabulary shared by every component: optional values, JavaScript
    truthiness of strings, the two message roles and decimal rendering of
    numbers inside template strings. */
module Common {

  /** A value that may be absent (`undefined` or `null` in the source). */
  datatype Option<+T> = None | Some(value: T) {

    /** The wrapped value, or `default` when absent (`x ?? default`). */
    function GetOr(default: T): T {
      match this
      case Some(v) => v
      case None => default
    }
  }

  /** A point in time (`new Date()`); only ever copied, never inspected. */
  type Instant = nat

  /** A JavaScript string is truthy exactly when it is present and non-empty. */
  predicate Truthy(s: Option<string>) {
    s.Some? && s.value != ""
  }

  /** `s || fallback` on an optional string. */
  function OrElse(s: Option<string>, fallback: string): (r: string)
    ensures Truthy(s) ==> r == s.value
    ensures !Truthy(s) ==> r == fallback
  {
    if Truthy(s) then s.value else fallback
  }

  const UserRole: string := "user"
  const ReplicaRole: string := "replica"

  predicate IsDigit(c: char) {
    '0' <= c <= '9'
  }

  predicate IsDecimal(s: string) {
    forall i :: 0 <= i < |s| ==> IsDigit(s[i])
  }

  function DigitChar(d: nat): (c: char)
    requires d < 10
    ensures IsDigit(c)
  {
    "0123456789"[d]
  }

  function DigitValue(c: char): (d: nat)
    requires IsDigit(c)
    ensures d < 10
  {
    (c - '0') as nat
  }

  /** How a template string renders a non-negative integer. */
  function NatToString(n: nat): (s: string)
    ensures |s| > 0 && IsDecimal(s)
    ensures s[0] == '0' ==> s == "0"
    decreases n
  {
    if n < 10 then [DigitChar(n)] else NatToString(n / 10) + [DigitChar(n % 10)]
  }

  /** Reads a string of decimal digits back as a number. */
  function ParseDecimal(s: string): nat
    requires IsDecimal(s)
    decreases |s|
  {
    if |s| == 0 then 0 else ParseDecimal(s[..|s| - 1]) * 10 + DigitValue(s[|s| - 1])
  }

  /** The decimal rendering loses nothing: parsing it gives the number back. */
  lemma {:induction false} ParseNatToString(n: nat)
    ensures ParseDecimal(NatToString(n)) == n
    decreases n
  {
    var s := NatToString(n);
    if n < 10 {
      assert s[..|s| - 1] == [];
    } else {
      var front := NatToString(n / 10);
      assert s[..|s| - 1] == front;
      ParseNatToString(n / 10);
    }
  }
}

/** The slice of the Daily.co call object that the components drive. Every
    call is recorded as a value; its outcome is supplied by the caller. */
module Daily {

  /** A call object created by `createCallObject`, identified abstractly. */
  type CallHandle = nat

  datatype SdkCall =
    | Join(url: string)
    | Leave
    | SetLocalAudio(audioOn: bool)
    | SetLocalVideo(videoOn: bool)
    | StartRecording
    | StopRecording
    | Destroy
}
