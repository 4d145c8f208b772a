/** The Python string primitives the core relies on: `str(n)` for a
    non-negative integer, `%`-formatting with `%s`, `%d` and `%%`, and
    `str.lower()` on ASCII letters. */
module Text {
  import opened Wrappers

  predicate IsDigit(c: char) {
    '0' <= c <= '9'
  }

  predicate AllDigits(s: string) {
    forall i :: 0 <= i < |s| ==> IsDigit(s[i])
  }

  function Digit(d: nat): (c: char)
    requires d < 10
    ensures IsDigit(c)
  {
    (48 + d) as char
  }

  function DigitValue(c: char): (d: nat)
    requires IsDigit(c)
    ensures d < 10
  {
    c as int - 48
  }

  /** `str(n)` for `n >= 0`: its decimal digits, most significant first. */
  function NatToString(n: nat): (s: string)
    ensures |s| > 0 && AllDigits(s)
  {
    if n < 10 then [Digit(n)] else NatToString(n / 10) + [Digit(n % 10)]
  }

  /** `int(s)` for a non-empty string of decimal digits. */
  function ParseDecimal(s: string): nat
    requires AllDigits(s)
  {
    if s == [] then 0 else 10 * ParseDecimal(s[..|s| - 1]) + DigitValue(s[|s| - 1])
  }

  /** `int(str(n)) == n`. */
  lemma {:induction false} ParseNatToString(n: nat)
    ensures ParseDecimal(NatToString(n)) == n
  {
    if n >= 10 {
      var s := NatToString(n / 10);
      ParseNatToString(n / 10);
      assert (s + [Digit(n % 10)])[..|s|] == s;
    }
  }

  /** Distinct numbers print differently. */
  lemma NatToStringInjective(m: nat, n: nat)
    ensures NatToString(m) == NatToString(n) <==> m == n
  {
    ParseNatToString(m);
    ParseNatToString(n);
  }

  /** `str(i)` for any integer. */
  function IntToString(i: int): (s: string)
    ensures i >= 0 ==> s == NatToString(i)
  {
    if i < 0 then "-" + NatToString(-i) else NatToString(i)
  }

  /** An argument of a `%` operation. */
  datatype FormatArg = Str(s: string) | Int(i: int)

  /** What `template % args` raises. */
  datatype FormatError =
    | NotEnoughArguments     // TypeError: not enough arguments for format string
    | NotAllConverted        // TypeError: not all arguments converted
    | NumberRequired         // TypeError: %d format: a real number is required
    | UnsupportedConversion  // ValueError: unsupported or incomplete format

  function ArgText(a: FormatArg): string {
    match a
    case Str(s) => s
    case Int(i) => IntToString(i)
  }

  /** `template % tuple(args)` for templates using only `%s`, `%d` and `%%`,
      converted left to right as Python does. */
  function Format(template: string, args: seq<FormatArg>): (r: Result<string, FormatError>)
    decreases |template|
  {
    if template == [] then
      if args == [] then Success("") else Failure(NotAllConverted)
    else if template[0] != '%' then
      match Format(template[1..], args)
      case Success(rest) => Success([template[0]] + rest)
      case Failure(e) => Failure(e)
    else if |template| < 2 then
      Failure(UnsupportedConversion)
    else if template[1] == '%' then
      match Format(template[2..], args)
      case Success(rest) => Success("%" + rest)
      case Failure(e) => Failure(e)
    else if template[1] == 's' || template[1] == 'd' then
      if args == [] then Failure(NotEnoughArguments)
      else if template[1] == 'd' && args[0].Str? then Failure(NumberRequired)
      else
        match Format(template[2..], args[1..])
        case Success(rest) => Success(ArgText(args[0]) + rest)
        case Failure(e) => Failure(e)
    else
      Failure(UnsupportedConversion)
  }

  /** Text without conversions is copied through in front of what follows it. */
  lemma {:induction false} FormatPlainPrefix(p: string, t: string, args: seq<FormatArg>)
    requires '%' !in p
    ensures Format(p + t, args) == match Format(t, args)
                                   case Success(rest) => Success(p + rest)
                                   case Failure(e) => Failure(e)
  {
    if p == [] {
      assert p + t == t;
      match Format(t, args)
      case Success(rest) =>
        assert p + rest == rest;
      case Failure(e) =>
    } else {
      assert (p + t)[0] == p[0] && p[0] != '%';
      assert (p + t)[1..] == p[1..] + t;
      FormatPlainPrefix(p[1..], t, args);
      match Format(t, args)
      case Success(rest) =>
        assert [p[0]] + (p[1..] + rest) == p + rest;
      case Failure(e) =>
    }
  }

  /** A leading `%s` prints its argument in front of the rest. */
  lemma FormatStrHead(t: string, x: FormatArg, args: seq<FormatArg>)
    ensures Format("%s" + t, [x] + args) == match Format(t, args)
                                           case Success(rest) => Success(ArgText(x) + rest)
                                           case Failure(e) => Failure(e)
  {
    var u := "%s" + t;
    assert u[0] == '%' && u[1] == 's' && u[2..] == t;
    assert ([x] + args)[1..] == args;
  }

  /** A leading `%d` prints its integer argument in front of the rest. */
  lemma FormatIntHead(t: string, i: int, args: seq<FormatArg>)
    ensures Format("%d" + t, [Int(i)] + args) == match Format(t, args)
                                                case Success(rest) => Success(IntToString(i) + rest)
                                                case Failure(e) => Failure(e)
  {
    var u := "%d" + t;
    assert u[0] == '%' && u[1] == 'd' && u[2..] == t;
    assert ([Int(i)] + args)[1..] == args;
  }

  predicate IsLowerChar(c: char) {
    !('A' <= c <= 'Z')
  }

  predicate IsLower(s: string) {
    forall i :: 0 <= i < |s| ==> IsLowerChar(s[i])
  }

  function LowerChar(c: char): (l: char)
    ensures IsLowerChar(l)
    ensures IsLowerChar(c) ==> l == c
  {
    if 'A' <= c <= 'Z' then (c as int + 32) as char else c
  }

  /** `s.lower()` on ASCII letters: the result is lower case, as long as `s`,
      and leaves a string that is already lower case as it is. */
  function Lower(s: string): (r: string)
    ensures |r| == |s| && IsLower(r)
    ensures IsLower(s) ==> r == s
  {
    seq(|s|, i requires 0 <= i < |s| => LowerChar(s[i]))
  }

  /** Lower-casing twice is lower-casing once. */
  lemma LowerIdempotent(s: string)
    ensures Lower(Lower(s)) == Lower(s)
  {
  }
}
