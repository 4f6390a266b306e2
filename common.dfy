/** Values shared by every part of the model: optional values, the outcome of an
    operation that may raise, the Python exception kinds the pipeline lets through,
    external-process commands and how a stage reacts to a process's exit code, and
    the decimal text Python's `str()` and f-strings give to a non-negative integer. */
module Common {

  datatype Option<+T> = None | Some(value: T)

  /** Why a `ValueError` was raised. */
  datatype Reason =
    | UnsupportedQuality(quality: string)
    | NoVideoAtWidth(width: nat, id: nat)
    | BadStatus(status: int)
    | PerPageTooLarge(perPage: int)
    | DurationUnavailable
    | SubtitleBurnFailed

  /** The exception kinds that the modelled code raises or lets through. */
  datatype Exception =
    | ValueError(reason: Reason)
    | CalledProcessError(returncode: int)
    | RequestException   // any failure of an HTTP request or of writing its body
    | TypeError          // drawing from the value None
    | IndexError         // drawing from an empty list
    | AttributeError     // calling a string method on None

  datatype Result<+T> = Ok(value: T) | Err(error: Exception)

  /** The argument vector of an external process, program name first. */
  type Command = seq<string>

  /** What a stage wrapper does after its process exits: carry on after success,
      carry on silently, carry on after logging an error, or raise. */
  datatype Reaction = Succeeded | Ignored | Logged | Raised(error: Exception)

  /** The reaction of a wrapper that only reports success. */
  function Quiet(code: int): (r: Reaction)
    ensures r.Succeeded? <==> code == 0
    ensures code != 0 ==> r == Ignored
  {
    if code == 0 then Succeeded else Ignored
  }

  predicate IsDigit(c: char) {
    '0' <= c <= '9'
  }

  predicate AllDigits(s: string) {
    forall i :: 0 <= i < |s| ==> IsDigit(s[i])
  }

  function DigitChar(d: nat): (c: char)
    requires d < 10
    ensures IsDigit(c) && c as int - '0' as int == d
  {
    ('0' as int + d) as char
  }

  /** Decimal text of `n`, most significant digit first, no leading zero. */
  function NatToString(n: nat): (s: string)
    ensures |s| >= 1 && AllDigits(s)
    ensures |s| > 1 ==> s[0] != '0'
    decreases n
  {
    if n < 10 then [DigitChar(n)] else NatToString(n / 10) + [DigitChar(n % 10)]
  }

  /** The value a string of decimal digits denotes. */
  function ParseNat(s: string): nat
    requires AllDigits(s)
    decreases |s|
  {
    if s == [] then 0 else 10 * ParseNat(s[..|s| - 1]) + (s[|s| - 1] as int - '0' as int)
  }

  /** Reading the decimal text of `n` gives `n` back. */
  lemma {:induction false} ParseNatToString(n: nat)
    ensures ParseNat(NatToString(n)) == n
    decreases n
  {
    if n >= 10 {
      var s := NatToString(n);
      assert s[..|s| - 1] == NatToString(n / 10);
      ParseNatToString(n / 10);
    }
  }

  /** Different numbers have different decimal texts. */
  lemma NatToStringInjective(m: nat, n: nat)
    requires NatToString(m) == NatToString(n)
    ensures m == n
  {
    ParseNatToString(m);
    ParseNatToString(n);
  }

  /** Number of occurrences of `x` in `s`. */
  function Count<T(==)>(s: seq<T>, x: T): nat
    decreases |s|
  {
    if s == [] then 0 else Count(s[..|s| - 1], x) + (if s[|s| - 1] == x then 1 else 0)
  }

  lemma {:induction false} CountConcat<T>(a: seq<T>, b: seq<T>, x: T)
    ensures Count(a + b, x) == Count(a, x) + Count(b, x)
    decreases |b|
  {
    if b == [] {
      assert a + b == a;
    } else {
      assert (a + b)[..|a + b| - 1] == a + b[..|b| - 1];
      CountConcat(a, b[..|b| - 1], x);
    }
  }

  lemma {:induction false} CountAbsent<T>(s: seq<T>, x: T)
    requires x !in s
    ensures Count(s, x) == 0
    decreases |s|
  {
    if s != [] {
      assert x !in s[..|s| - 1];
      CountAbsent(s[..|s| - 1], x);
    }
  }

  /** A concatenation begins with its first part and ends with its second. */
  lemma SplitAt(a: string, b: string)
    ensures (a + b)[..|a|] == a && (a + b)[|a|..] == b
  {
  }

  /** `a + b == a + c` only when `b == c`. */
  lemma PrefixCancel(a: string, b: string, c: string)
    requires a + b == a + c
    ensures b == c
  {
    SplitAt(a, b);
    SplitAt(a, c);
  }
}
