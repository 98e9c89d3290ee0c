/** What the Node.js runtime contributes to the core: thrown errors, the JSON
    history files on disk, JSON numbers, and the decimal text that
    `Number.prototype.toString` gives a non-negative integer. */
module Runtime {

  /** The errors the core throws or lets escape. */
  datatype Error =
    | NetworkFailure        // `fetch` or `response.json()` rejected
    | TypeError             // a property read on `undefined` (a reply of an unexpected shape)
    | SyntaxError           // `JSON.parse` of a history file that is not JSON
    | CityNotFound          // `new Error('City not found')`
    | WeatherLookupFailed   // `new Error('Error retrieving weather data')`

  /** A value, or the error that was thrown instead. */
  datatype Result<+T> = Success(value: T) | Failure(error: Error)

  datatype Option<+T> = None | Some(value: T)

  /** A JSON number, kept as the text JavaScript prints for it (`String(n)`).
      The core only copies numbers and interpolates them into URLs. */
  datatype Num = Num(repr: string)

  /** The JSON file behind a history store: absent, an array of records, or
      text that `JSON.parse` rejects. */
  datatype StoredFile<T> = Missing | Json(records: seq<T>) | Malformed
  {
    /** What reading the file yields when it does not throw: an absent file
        reads as the empty array. */
    function Contents(): (s: seq<T>)
      requires !Malformed?
      ensures Missing? ==> s == []
      ensures Json? ==> s == records
    {
      if Missing? then [] else records
    }
  }

  // ---------------------------------------------------------------------
  // Decimal text of non-negative integers (the ids `(n + 1).toString()`)
  // ---------------------------------------------------------------------

  function DigitChar(d: nat): (c: char)
    requires d < 10
    ensures '0' <= c <= '9'
  {
    "0123456789"[d]
  }

  function DigitValue(c: char): nat
  {
    if '0' <= c <= '9' then (c - '0') as nat else 0
  }

  lemma DigitRoundTrip(d: nat)
    requires d < 10
    ensures DigitValue(DigitChar(d)) == d
  {
  }

  predicate IsDigits(s: string)
  {
    forall i :: 0 <= i < |s| ==> '0' <= s[i] <= '9'
  }

  /** The text `n.toString()` gives for a non-negative integer: its decimal
      digits, most significant first, without leading zeros. */
  function DecimalString(n: nat): (s: string)
    ensures |s| > 0 && IsDigits(s)
    ensures s[0] == '0' ==> n == 0
    decreases n
  {
    if n < 10 then [DigitChar(n)] else DecimalString(n / 10) + [DigitChar(n % 10)]
  }

  /** Reads decimal digits back into the number they denote. */
  function ParseDecimal(s: string): nat
    decreases |s|
  {
    if s == [] then 0 else 10 * ParseDecimal(s[..|s| - 1]) + DigitValue(s[|s| - 1])
  }

  /** Reading the decimal text of `n` gives `n` back. */
  lemma {:induction false} ParseDecimalString(n: nat)
    ensures ParseDecimal(DecimalString(n)) == n
    decreases n
  {
    var s := DecimalString(n);
    if n < 10 {
      DigitRoundTrip(n);
      assert s[..0] == [];
    } else {
      ParseDecimalString(n / 10);
      DigitRoundTrip(n % 10);
      assert s[..|s| - 1] == DecimalString(n / 10);
    }
  }

  /** Different numbers have different decimal texts, so ids made from
      different counts never collide. */
  lemma DecimalStringInjective(m: nat, n: nat)
    ensures DecimalString(m) == DecimalString(n) <==> m == n
  {
    if DecimalString(m) == DecimalString(n) {
      ParseDecimalString(m);
      ParseDecimalString(n);
    }
  }

  /** The first ids the history stores hand out. */
  lemma SmallDecimalStrings()
    ensures DecimalString(1) == "1" && DecimalString(2) == "2"
    ensures DecimalString(10) == "10"
  {
  }
}
