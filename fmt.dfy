/** The part of Go's `fmt` package that `SayHello` relies on: the decimal
    rendering of integers done by the `%d` verb, and `Sprintf` over format
    strings whose directives are `%s`, `%d`, `%v` and `%%`. A reader of
    decimal integers is defined beside the renderer as its inverse. */
module Fmt {
  import opened GoInt

  datatype Maybe<T> = None | Some(value: T)

  predicate IsDigit(c: char)
  {
    '0' <= c <= '9'
  }

  predicate AllDigits(s: string)
  {
    forall i :: 0 <= i < |s| ==> IsDigit(s[i])
  }

  function DigitValue(c: char): (d: nat)
    requires IsDigit(c)
    ensures d < 10
  {
    (c as int) - ('0' as int)
  }

  function DigitChar(d: nat): (c: char)
    requires d < 10
    ensures IsDigit(c) && DigitValue(c) == d
  {
    (d + '0' as int) as char
  }

  lemma DigitCharOfValue(c: char)
    requires IsDigit(c)
    ensures DigitChar(DigitValue(c)) == c
  {
  }

  /** The decimal digits of `n`, most significant first. Only zero
      itself starts with the digit `0`. */
  function Digits(n: nat): (s: string)
    ensures |s| > 0 && AllDigits(s)
    ensures (s[0] == '0') == (n == 0)
    decreases n
  {
    if n < 10 then [DigitChar(n)] else Digits(n / 10) + [DigitChar(n % 10)]
  }

  /** The text of the `%d` verb for an integer: a minus sign for a negative
      value, then the digits of its magnitude. */
  function FormatInt(x: int): (s: string)
    ensures |s| > 0
    ensures (s[0] == '-') == (x < 0)
    ensures IsCanonical(s)
  {
    if x < 0 then "-" + Digits(-x) else Digits(x)
  }

  /** An optional minus sign and a non-empty run of digits without leading
      zeros; zero is written `0`, never `-0`. */
  predicate IsCanonical(s: string)
  {
    var m := if |s| > 0 && s[0] == '-' then s[1..] else s;
    && |m| > 0
    && AllDigits(m)
    && (m[0] == '0' ==> m == "0" && s == m)
  }

  /** The number a run of digits denotes. */
  function DigitsValue(s: string): nat
    requires AllDigits(s)
    decreases |s|
  {
    if s == [] then 0 else DigitsValue(s[..|s| - 1]) * 10 + DigitValue(s[|s| - 1])
  }

  /** Reads a decimal integer: an optional minus sign followed by at least
      one digit and nothing else. */
  function ParseInt(s: string): Maybe<int>
  {
    if |s| > 0 && s[0] == '-' then
      if |s| > 1 && AllDigits(s[1..]) then Some(0 - DigitsValue(s[1..])) else None
    else if |s| > 0 && AllDigits(s) then Some(DigitsValue(s))
    else None
  }

  lemma {:induction false} DigitsRoundTrip(n: nat)
    ensures DigitsValue(Digits(n)) == n
    decreases n
  {
    var s := Digits(n);
    if n < 10 {
      assert s[..|s| - 1] == [];
    } else {
      assert s[..|s| - 1] == Digits(n / 10);
      DigitsRoundTrip(n / 10);
    }
  }

  /** A minus sign followed by digits reads as the negated digits' value. */
  lemma ParseNegative(m: string)
    requires |m| > 0 && AllDigits(m)
    ensures ParseInt("-" + m) == Some(0 - DigitsValue(m))
  {
    var s := "-" + m;
    assert s[0] == '-' && s[1..] == m;
  }

  /** A run of digits that does not start with a minus sign reads as its value. */
  lemma ParseUnsigned(m: string)
    requires |m| > 0 && AllDigits(m)
    ensures ParseInt(m) == Some(DigitsValue(m))
  {
    assert IsDigit(m[0]);
  }

  /** Reading back the `%d` text of any integer gives that integer. */
  lemma FormatIntRoundTrip(x: int)
    ensures ParseInt(FormatInt(x)) == Some(x)
  {
    if x < 0 {
      DigitsRoundTrip(-x);
      ParseNegative(Digits(-x));
    } else {
      DigitsRoundTrip(x);
      ParseUnsigned(Digits(x));
    }
  }

  lemma {:induction false} DigitsValuePositive(s: string)
    requires |s| > 0 && AllDigits(s) && s[0] != '0'
    ensures DigitsValue(s) > 0
    decreases |s|
  {
    if |s| > 1 {
      DigitsValuePositive(s[..|s| - 1]);
    }
  }

  lemma {:induction false} DigitsOfValue(s: string)
    requires |s| > 0 && AllDigits(s)
    requires s[0] == '0' ==> s == "0"
    ensures Digits(DigitsValue(s)) == s
    decreases |s|
  {
    var last := s[|s| - 1];
    DigitCharOfValue(last);
    if |s| == 1 {
      assert s[..0] == [];
      assert s == [last];
    } else {
      var p := s[..|s| - 1];
      var q, d := DigitsValue(p), DigitValue(last);
      DigitsValuePositive(p);
      DigitsOfValue(p);
      var v := q * 10 + d;
      assert v / 10 == q && v % 10 == d;
      assert s == p + [last];
    }
  }

  /** Every canonical decimal text is the `%d` text of the number it reads as. */
  lemma ParseIntCanonical(s: string)
    requires IsCanonical(s)
    ensures ParseInt(s).Some? && FormatInt(ParseInt(s).value) == s
  {
    if s[0] == '-' {
      var m := s[1..];
      DigitsOfValue(m);
      DigitsValuePositive(m);
      assert s == "-" + m;
    } else {
      DigitsOfValue(s);
    }
  }

  /** An argument of `Sprintf`, with its dynamic Go type. */
  datatype Arg = StringArg(s: string) | Int32Arg(i: Int32)

  /** The format strings this model renders: every `%` is followed by one
      of the verbs `s`, `d`, `v`, `%`, or ends the string. */
  predicate SupportedFormat(format: string)
    decreases |format|
  {
    if format == [] then true
    else if format[0] != '%' then SupportedFormat(format[1..])
    else if |format| == 1 then true
    else format[1] in "sdv%" && SupportedFormat(format[2..])
  }

  /** The name `reflect` gives the argument's type. */
  function TypeName(a: Arg): string
  {
    match a
    case StringArg(_) => "string"
    case Int32Arg(_) => "int32"
  }

  /** The argument rendered by the `%v` verb. */
  function ValueText(a: Arg): string
  {
    match a
    case StringArg(s) => s
    case Int32Arg(i) => FormatInt(i)
  }

  /** One verb applied to one argument; a verb that does not suit the
      argument's type gives `%!verb(type=value)`. */
  function FormatArg(verb: char, a: Arg): string
  {
    match a
    case StringArg(s) =>
      if verb == 's' || verb == 'v' then s
      else "%!" + [verb] + "(" + TypeName(a) + "=" + ValueText(a) + ")"
    case Int32Arg(i) =>
      if verb == 'd' || verb == 'v' then FormatInt(i)
      else "%!" + [verb] + "(" + TypeName(a) + "=" + ValueText(a) + ")"
  }

  /** `type=value` for each argument, separated by `, `. */
  function ArgList(args: seq<Arg>): string
    requires |args| > 0
    decreases |args|
  {
    TypeName(args[0]) + "=" + ValueText(args[0])
    + if |args| == 1 then "" else ", " + ArgList(args[1..])
  }

  /** The note Go appends for arguments that no verb consumed. */
  function ExtraArgs(args: seq<Arg>): string
  {
    if args == [] then "" else "%!(EXTRA " + ArgList(args) + ")"
  }

  /** `fmt.Sprintf(format, args...)`: literal text is copied, `%%` gives
      `%`, each other verb consumes the next argument (`%!verb(MISSING)`
      when there is none), a lone trailing `%` gives `%!(NOVERB)`, and
      unconsumed arguments are listed at the end. */
  function Sprintf(format: string, args: seq<Arg>): string
    requires SupportedFormat(format)
    decreases |format|, 1
  {
    if format == [] then ExtraArgs(args)
    else if format[0] != '%' then [format[0]] + Sprintf(format[1..], args)
    else Directive(format, args)
  }

  /** The text of a format that starts with `%`. */
  function Directive(format: string, args: seq<Arg>): string
    requires SupportedFormat(format) && |format| > 0 && format[0] == '%'
    decreases |format|, 0
  {
    if |format| == 1 then "%!(NOVERB)" + ExtraArgs(args)
    else if format[1] == '%' then "%" + Sprintf(format[2..], args)
    else if args == [] then "%!" + [format[1]] + "(MISSING)" + Sprintf(format[2..], args)
    else FormatArg(format[1], args[0]) + Sprintf(format[2..], args[1..])
  }

  /** One character other than `%` is copied and the rest is rendered. */
  lemma SprintfChar(c: char, rest: string, args: seq<Arg>)
    requires c != '%'
    requires SupportedFormat(rest)
    ensures SupportedFormat([c] + rest)
    ensures Sprintf([c] + rest, args) == [c] + Sprintf(rest, args)
  {
    var f := [c] + rest;
    assert f[0] == c && f[1..] == rest;
  }

  /** Text without `%` is copied to the output unchanged. */
  lemma {:induction false} SprintfLiteral(literal: string, rest: string, args: seq<Arg>)
    requires NoPercent(literal)
    requires SupportedFormat(rest)
    ensures SupportedFormat(literal + rest)
    ensures Sprintf(literal + rest, args) == literal + Sprintf(rest, args)
    decreases |literal|
  {
    if literal != [] {
      var c, tail := literal[0], literal[1..];
      assert c != '%';
      assert NoPercent(tail);
      SprintfLiteral(tail, rest, args);
      SprintfChar(c, tail + rest, args);
      assert literal == [c] + tail;
      AppendAssoc([c], tail, rest);
      AppendAssoc([c], tail, Sprintf(rest, args));
    } else {
      assert literal + rest == rest;
    }
  }

  /** A format without `%` is copied, followed by the note for the unused arguments. */
  lemma SprintfNoPercent(format: string, args: seq<Arg>)
    requires NoPercent(format)
    ensures SupportedFormat(format)
    ensures Sprintf(format, args) == format + ExtraArgs(args)
  {
    SprintfLiteral(format, "", args);
    assert format + "" == format;
  }

  /** A verb consumes the next argument. */
  lemma SprintfVerb(verb: char, rest: string, a: Arg, args: seq<Arg>)
    requires verb in "sdv"
    requires SupportedFormat(rest)
    ensures SupportedFormat(['%', verb] + rest)
    ensures Sprintf(['%', verb] + rest, [a] + args) == FormatArg(verb, a) + Sprintf(rest, args)
  {
    var f := ['%', verb] + rest;
    assert f[2..] == rest;
    assert ([a] + args)[1..] == args;
  }

  predicate NoPercent(s: string)
  {
    forall i :: 0 <= i < |s| ==> s[i] != '%'
  }

  /** A format with one `%d`, given one int32, puts the `%d` text of the
      int32 in its place. */
  lemma SprintfInt(p2: string, p3: string, count: Int32)
    requires NoPercent(p2) && NoPercent(p3)
    ensures SupportedFormat(p2 + "%d" + p3)
    ensures Sprintf(p2 + "%d" + p3, [Int32Arg(count)]) == p2 + (FormatInt(count) + p3)
  {
    var c, d := Int32Arg(count), ['%', 'd'];
    assert SupportedFormat(p3) && Sprintf(p3, []) == p3 by {
      SprintfLiteral(p3, "", []);
      assert p3 + "" == p3;
    }
    assert SupportedFormat(d + p3) && Sprintf(d + p3, [c]) == FormatInt(count) + p3 by {
      SprintfVerb('d', p3, c, []);
      assert [c] + [] == [c];
      assert FormatArg('d', c) == FormatInt(count);
    }
    assert SupportedFormat(p2 + (d + p3)) &&
      Sprintf(p2 + (d + p3), [c]) == p2 + (FormatInt(count) + p3) by {
      SprintfLiteral(p2, d + p3, [c]);
    }
    assert p2 + "%d" + p3 == p2 + (d + p3) by {
      AppendAssoc(p2, d, p3);
    }
  }

  /** A format with one `%s` and then one `%d`, given a string and an
      int32, puts the string and the `%d` text of the int32 in their places. */
  lemma SprintfStringThenInt(p1: string, p2: string, p3: string, name: string, count: Int32)
    requires NoPercent(p1) && NoPercent(p2) && NoPercent(p3)
    ensures SupportedFormat(p1 + "%s" + p2 + "%d" + p3)
    ensures Sprintf(p1 + "%s" + p2 + "%d" + p3, [StringArg(name), Int32Arg(count)])
         == p1 + name + p2 + FormatInt(count) + p3
  {
    var n, c, v := StringArg(name), Int32Arg(count), ['%', 's'];
    var afterName := p2 + "%d" + p3;
    SprintfInt(p2, p3, count);
    assert SupportedFormat(v + afterName) &&
      Sprintf(v + afterName, [n, c]) == name + (p2 + (FormatInt(count) + p3)) by {
      SprintfVerb('s', afterName, n, [c]);
      assert [n] + [c] == [n, c];
    }
    assert SupportedFormat(p1 + (v + afterName)) &&
      Sprintf(p1 + (v + afterName), [n, c]) == p1 + (name + (p2 + (FormatInt(count) + p3))) by {
      SprintfLiteral(p1, v + afterName, [n, c]);
    }
    assert p1 + "%s" + p2 + "%d" + p3 == p1 + (v + afterName) by {
      FormatSplit(p1, v, p2, "%d", p3);
    }
    RegroupLeft(p1, name, p2, FormatInt(count), p3);
  }

  lemma FormatSplit(a: string, b: string, c: string, d: string, e: string)
    ensures a + b + c + d + e == a + (b + (c + d + e))
  {
    AppendAssoc(b, c + d, e);
    AppendAssoc(b, c, d);
    AppendAssoc(a, b, c + d + e);
    AppendAssoc(a, b + c, d);
    AppendAssoc(a, b + c + d, e);
    AppendAssoc(a, b, c);
  }

  lemma AppendAssoc(a: string, b: string, c: string)
    ensures a + (b + c) == (a + b) + c
  {
  }

  lemma RegroupLeft(a: string, b: string, c: string, d: string, e: string)
    ensures a + (b + (c + (d + e))) == a + b + c + d + e
  {
    AppendAssoc(c, d, e);
    AppendAssoc(b, c + d, e);
    AppendAssoc(b, c, d);
    AppendAssoc(a, b + c + d, e);
    AppendAssoc(a, b + c, d);
    AppendAssoc(a, b, c);
  }
}
