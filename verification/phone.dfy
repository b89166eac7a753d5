/**
 * Phone-number handling shared by both HTTP front-ends (server.js and app.js):
 * `phoneNumber.replace(/[^0-9]/g, '')` and the checks made on the request body
 * before any session is started.
 */
module Phone {
  import opened Base

  /** A cleaned number shorter than this is refused with 400. */
  const MIN_DIGITS: nat := 10

  /** The class `[0-9]`: ASCII digits only. */
  predicate IsDigit(c: char) {
    '0' <= c <= '9'
  }

  predicate AllDigits(s: string) {
    forall i :: 0 <= i < |s| ==> IsDigit(s[i])
  }

  /** `s.replace(/[^0-9]/g, '')`: every non-digit is dropped. */
  function Clean(s: string): (r: string)
    ensures AllDigits(r)
    ensures |r| <= |s|
    decreases |s|
  {
    if |s| == 0 then []
    else (if IsDigit(s[0]) then [s[0]] else []) + Clean(s[1..])
  }

  /** A string of digits is left as it is. */
  lemma {:induction false} CleanKeepsDigits(s: string)
    requires AllDigits(s)
    ensures Clean(s) == s
    decreases |s|
  {
    if |s| > 0 {
      CleanKeepsDigits(s[1..]);
    }
  }

  /** On one character: a digit is kept and anything else is dropped. With `CleanConcat` this fixes `Clean` on every string. */
  lemma CleanChar(c: char)
    ensures Clean([c]) == (if IsDigit(c) then [c] else [])
  {
  }

  /** Cleaning twice is cleaning once. */
  lemma CleanIdempotent(s: string)
    ensures Clean(Clean(s)) == Clean(s)
  {
    CleanKeepsDigits(Clean(s));
  }

  /** Cleaning works piecewise, so the digits come out in the order they went in. */
  lemma {:induction false} CleanConcat(a: string, b: string)
    ensures Clean(a + b) == Clean(a) + Clean(b)
    decreases |a|
  {
    if |a| > 0 {
      assert (a + b)[1..] == a[1..] + b;
      CleanConcat(a[1..], b);
    } else {
      assert a + b == b;
    }
  }

  /** What the request body's `phoneNumber` field holds once Express has parsed the JSON. */
  datatype BodyField =
    | Absent                   // no such field: `undefined`
    | Text(s: string)          // a JSON string
    | NonText(truthy: bool)    // a number, boolean, object, array or null

  datatype Rejection =
    | Required     // 400 'Phone number is required'
    | BadFormat    // 400 'Invalid phone number format'
    | NotAString   // `.replace` is not a function: the outer catch answers 500

  /** HTTP status of a refused request. */
  function RejectionStatus(r: Rejection): nat {
    if r.NotAString? then 500 else 400
  }

  /**
   * `if (!phoneNumber) ...; const cleanPhone = phoneNumber.replace(...);
   *  if (cleanPhone.length < 10) ...`: the cleaned number, or why the request
   * is refused.
   */
  function Validate(f: BodyField): (r: Result<string, Rejection>)
    ensures r.Ok? <==> f.Text? && |Clean(f.s)| >= MIN_DIGITS
    ensures r.Ok? ==> r.value == Clean(f.s) && AllDigits(r.value) && |r.value| >= MIN_DIGITS
    ensures r == Err(Required) <==> f.Absent? || f == Text("") || f == NonText(false)
    ensures r == Err(NotAString) <==> f == NonText(true)
  {
    match f
    case Absent => Err(Required)
    case NonText(truthy) => if truthy then Err(NotAString) else Err(Required)
    case Text(s) =>
      if s == "" then Err(Required)
      else if |Clean(s)| < MIN_DIGITS then Err(BadFormat)
      else Ok(Clean(s))
  }
}
