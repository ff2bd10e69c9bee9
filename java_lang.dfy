/** The parts of the Java platform the step definitions lean on: the exceptions
    they throw, and the String and Integer operations whose edge cases decide
    what the steps do (String.trim, String.split, String.toLowerCase,
    Integer.parseInt, Integer.toString). */
module JavaLang {

  /** The exceptions the modelled code throws or lets through. The message is
      kept where the source builds it from its inputs. */
  datatype Failure =
    | IllegalArgument(message: string)
    | IllegalState(message: string)
    | NullPointer(message: string)
    | IndexOutOfBounds
    | ClassCast
    | NumberFormat(input: string)
    | MissingProperty(message: string)
    | Runtime(message: string)
    | AssertionFailed(message: string)
    | TransportError      // an exception raised inside the HTTP client
    | DriverError         // an exception raised inside the browser driver

  datatype Option<+T> = None | Some(value: T)

  datatype Result<+T> = Ok(value: T) | Err(error: Failure) {
    predicate IsFailure() { Err? }
    function PropagateFailure<U>(): Result<U> requires Err? { Err(error) }
    function Extract(): T requires Ok? { value }
  }

  /** The outcome of a step that returns nothing: it completes or it throws. */
  datatype Outcome = Pass | Fail(error: Failure) {
    predicate IsFailure() { Fail? }
    function PropagateFailure(): Outcome requires Fail? { this }
  }

  // ---------------------------------------------------------------------------
  // Java int

  const IntMin: int := -0x8000_0000
  const IntMax: int := 0x7fff_ffff

  predicate InIntRange(n: int) { IntMin <= n <= IntMax }

  type Int32 = n: int | IntMin <= n <= IntMax

  // ---------------------------------------------------------------------------
  // Characters

  predicate IsDigit(c: char) { '0' <= c <= '9' }

  function DigitValue(c: char): nat
    requires IsDigit(c)
  {
    c as int - '0' as int
  }

  function DigitChar(d: nat): char
    requires d < 10
  {
    ('0' as int + d) as char
  }

  predicate AllDigits(s: string) { forall i | 0 <= i < |s| :: IsDigit(s[i]) }

  predicate IsLowerHex(c: char) { '0' <= c <= '9' || 'a' <= c <= 'f' }

  /** The lower-case hexadecimal digit of d. */
  function HexDigit(d: nat): (c: char)
    requires d < 16
    ensures IsLowerHex(c)
  {
    if d < 10 then DigitChar(d) else ('a' as int + d - 10) as char
  }

  /** Character.toLowerCase restricted to ASCII: only 'A'..'Z' change. */
  function LowerChar(c: char): char
  {
    if 'A' <= c <= 'Z' then (c as int + 32) as char else c
  }

  /** String.toLowerCase, ASCII letters only. */
  function ToLower(s: string): (r: string)
    ensures |r| == |s|
    ensures forall i | 0 <= i < |s| :: r[i] == LowerChar(s[i])
  {
    seq(|s|, i requires 0 <= i < |s| => LowerChar(s[i]))
  }

  // ---------------------------------------------------------------------------
  // Strings

  predicate StartsWith(s: string, prefix: string)
  {
    |prefix| <= |s| && s[..|prefix|] == prefix
  }

  predicate EndsWith(s: string, suffix: string)
  {
    |suffix| <= |s| && s[|s| - |suffix|..] == suffix
  }

  /** t occurs in s at position i. */
  predicate OccursAt(s: string, t: string, i: nat)
  {
    i + |t| <= |s| && s[i..i + |t|] == t
  }

  /** String.contains */
  predicate Contains(s: string, t: string)
  {
    exists i | 0 <= i <= |s| :: OccursAt(s, t, i)
  }

  /** String.trim removes every character at or below U+0020 from both ends. */
  predicate IsTrimmable(c: char) { c <= ' ' }

  /** key.trim().isEmpty() */
  predicate IsBlank(s: string) { forall i | 0 <= i < |s| :: IsTrimmable(s[i]) }

  /** How many characters String.trim removes at the front. */
  function LeadingTrimmable(s: string): (n: nat)
    ensures n <= |s|
    ensures forall i | 0 <= i < n :: IsTrimmable(s[i])
    ensures n < |s| ==> !IsTrimmable(s[n])
    decreases |s|
  {
    if s != [] && IsTrimmable(s[0]) then 1 + LeadingTrimmable(s[1..]) else 0
  }

  /** How many characters String.trim removes at the back. */
  function TrailingTrimmable(s: string): (n: nat)
    ensures n <= |s|
    ensures forall i | |s| - n <= i < |s| :: IsTrimmable(s[i])
    ensures n < |s| ==> !IsTrimmable(s[|s| - n - 1])
    decreases |s|
  {
    if s != [] && IsTrimmable(s[|s| - 1]) then 1 + TrailingTrimmable(s[..|s| - 1]) else 0
  }

  /** String.trim: the longest infix of s that neither starts nor ends with a
      character at or below U+0020. */
  function Trim(s: string): (r: string)
    ensures r == [] || (!IsTrimmable(r[0]) && !IsTrimmable(r[|r| - 1]))
    ensures var i := LeadingTrimmable(s);
      && i + |r| <= |s| && s[i..i + |r|] == r
      && (forall j | 0 <= j < i :: IsTrimmable(s[j]))
      && (forall j | i + |r| <= j < |s| :: IsTrimmable(s[j]))
    ensures r == [] <==> IsBlank(s)
  {
    var t := s[LeadingTrimmable(s)..];
    t[..|t| - TrailingTrimmable(t)]
  }

  /** A character absent from s is absent from its trimmed form. */
  lemma TrimKeeps(s: string, ch: char)
    requires ch !in s
    ensures ch !in Trim(s)
  {
    var t := Trim(s);
    var i := LeadingTrimmable(s);
    forall j | 0 <= j < |t|
      ensures t[j] != ch
    {
      assert t[j] == s[i + j];
    }
  }

  /** A string that neither starts nor ends with a trimmable character is its
      own trimmed form. */
  lemma TrimUntrimmed(s: string)
    requires s == [] || (!IsTrimmable(s[0]) && !IsTrimmable(s[|s| - 1]))
    ensures Trim(s) == s
  {
    if s != [] {
      assert LeadingTrimmable(s) == 0;
      assert s[0..] == s;
      assert TrailingTrimmable(s) == 0;
    }
  }

  /** The ASCII digits of s, in order (s.replaceAll("[^0-9]", "")). */
  function DigitsOf(s: string): (r: string)
    ensures AllDigits(r)
    ensures |r| <= |s|
    decreases |s|
  {
    if s == [] then []
    else if IsDigit(s[0]) then [s[0]] + DigitsOf(s[1..])
    else DigitsOf(s[1..])
  }

  // ---------------------------------------------------------------------------
  // String.split(String.valueOf(sep)) and String.join

  /** Every piece of s between occurrences of sep, the empty ones included. */
  function Pieces(s: string, sep: char): (r: seq<string>)
    ensures |r| >= 1
    ensures forall i | 0 <= i < |r| :: sep !in r[i]
    ensures sep !in s ==> r == [s]
    decreases |s|
  {
    if s == [] then [""]
    else
      var rest := Pieces(s[1..], sep);
      assert sep !in s ==> sep !in s[1..] by {
        assert forall i | 0 <= i < |s[1..]| :: s[1..][i] == s[i + 1];
      }
      assert [s[0]] + s[1..] == s;
      if s[0] == sep then [""] + rest
      else [[s[0]] + rest[0]] + rest[1..]
  }

  function Join(parts: seq<string>, sep: string): string
  {
    if |parts| == 0 then ""
    else if |parts| == 1 then parts[0]
    else parts[0] + sep + Join(parts[1..], sep)
  }

  /** Join over a list of two or more strings puts sep after the first. */
  lemma JoinCons(first: string, rest: seq<string>, sep: string)
    requires |rest| >= 1
    ensures Join([first] + rest, sep) == first + sep + Join(rest, sep)
  {
    assert ([first] + rest)[1..] == rest;
  }

  /** Join over a list of one or more strings puts sep before a last one added. */
  lemma {:induction false} JoinSnoc(parts: seq<string>, last: string, sep: string)
    requires |parts| >= 1
    ensures Join(parts + [last], sep) == Join(parts, sep) + sep + last
    decreases |parts|
  {
    if |parts| == 1 {
      assert parts + [last] == [parts[0]] + [last];
      JoinCons(parts[0], [last], sep);
    } else {
      JoinSnoc(parts[1..], last, sep);
      assert parts + [last] == [parts[0]] + (parts[1..] + [last]);
      JoinCons(parts[0], parts[1..] + [last], sep);
      assert parts == [parts[0]] + parts[1..];
      JoinCons(parts[0], parts[1..], sep);
    }
  }

  /** Splitting at every separator and joining back gives the string again. */
  lemma {:induction false} JoinPieces(s: string, sep: char)
    ensures Join(Pieces(s, sep), [sep]) == s
    decreases |s|
  {
    if s != [] {
      var rest := Pieces(s[1..], sep);
      JoinPieces(s[1..], sep);
      assert [s[0]] + s[1..] == s;
      if s[0] == sep {
        assert Pieces(s, sep) == [""] + rest;
        JoinCons("", rest, [sep]);
        assert "" + [sep] + s[1..] == s;
      } else if |rest| == 1 {
        assert Pieces(s, sep) == [[s[0]] + rest[0]];
      } else {
        var tail := rest[1..];
        assert rest == [rest[0]] + tail;
        JoinCons(rest[0], tail, [sep]);
        assert Pieces(s, sep) == [[s[0]] + rest[0]] + tail;
        JoinCons([s[0]] + rest[0], tail, [sep]);
        assert [s[0]] + rest[0] + [sep] + Join(tail, [sep])
            == [s[0]] + (rest[0] + [sep] + Join(tail, [sep]));
      }
    }
  }

  /** A character that does not occur in s occurs in none of its pieces. */
  lemma {:induction false} PiecesAvoid(s: string, sep: char, c: char)
    requires c !in s
    ensures forall i | 0 <= i < |Pieces(s, sep)| :: c !in Pieces(s, sep)[i]
    decreases |s|
  {
    if s != [] {
      assert c !in s[1..] by {
        assert forall i | 0 <= i < |s[1..]| :: s[1..][i] == s[i + 1];
      }
      PiecesAvoid(s[1..], sep, c);
    }
  }

  /** A string without the separator, followed by one separator, has itself
      and the empty string as pieces. */
  lemma {:induction false} PiecesBeforeSep(s: string, sep: char)
    requires sep !in s
    ensures Pieces(s + [sep], sep) == [s, ""]
    decreases |s|
  {
    if s == [] {
      assert [sep][1..] == [];
    } else {
      assert (s + [sep])[1..] == s[1..] + [sep];
      assert sep !in s[1..] by {
        assert forall i | 0 <= i < |s[1..]| :: s[1..][i] == s[i + 1];
      }
      PiecesBeforeSep(s[1..], sep);
      assert [s[0]] + s[1..] == s;
    }
  }

  /** Drops the empty strings at the end of parts. */
  function DropTrailingEmpty(parts: seq<string>): (r: seq<string>)
    ensures r <= parts
    ensures r == [] || r[|r| - 1] != ""
    ensures forall i | |r| <= i < |parts| :: parts[i] == ""
    decreases |parts|
  {
    if parts == [] || parts[|parts| - 1] != "" then parts
    else DropTrailingEmpty(parts[..|parts| - 1])
  }

  /** String.split with a one-character separator and limit 0: the pieces
      between separators with the trailing empty ones removed, except that a
      string without the separator comes back whole (even when it is ""). */
  function Split(s: string, sep: char): (r: seq<string>)
    ensures r <= Pieces(s, sep)
    ensures forall i | |r| <= i < |Pieces(s, sep)| :: Pieces(s, sep)[i] == ""
    ensures sep !in s ==> r == [s]
    ensures sep in s ==> r == [] || r[|r| - 1] != ""
  {
    if sep !in s then [s] else DropTrailingEmpty(Pieces(s, sep))
  }

  /** A character that does not occur in s occurs in no part of its split. */
  lemma SplitAvoids(s: string, sep: char, c: char)
    requires c !in s
    ensures forall i | 0 <= i < |Split(s, sep)| :: c !in Split(s, sep)[i]
  {
    PiecesAvoid(s, sep, c);
    var r := Split(s, sep);
    assert forall i | 0 <= i < |r| :: r[i] == Pieces(s, sep)[i];
  }

  // ---------------------------------------------------------------------------
  // Integer.toString and Integer.parseInt

  /** The value of a string of decimal digits, most significant first. */
  function DigitsValue(s: string): nat
    requires AllDigits(s)
    decreases |s|
  {
    if s == [] then 0 else 10 * DigitsValue(s[..|s| - 1]) + DigitValue(s[|s| - 1])
  }

  /** The decimal digits of n without leading zeros. */
  function NatToDigits(n: nat): (r: string)
    ensures |r| >= 1 && AllDigits(r)
    ensures r[0] == '0' ==> n == 0 && |r| == 1
    ensures DigitsValue(r) == n
    decreases n
  {
    if n < 10 then [DigitChar(n)]
    else
      var front := NatToDigits(n / 10);
      var r := front + [DigitChar(n % 10)];
      assert r[..|r| - 1] == front;
      r
  }

  /** Integer.toString / String.valueOf(int). */
  function IntToString(n: int): string
  {
    if n < 0 then "-" + NatToDigits(-n) else NatToDigits(n)
  }

  /** What follows the optional leading sign of an int literal. */
  function Unsigned(s: string): (d: string)
    ensures |d| <= |s| && d == s[|s| - |d|..]
  {
    if s != [] && (s[0] == '-' || s[0] == '+') then s[1..] else s
  }

  /** Integer.parseInt on ASCII digits: an optional sign, at least one digit,
      and a value that fits in an int; anything else is a NumberFormatException. */
  function ParseInt(s: string): (r: Result<int>)
    ensures r.Ok? <==>
      && Unsigned(s) != [] && AllDigits(Unsigned(s))
      && InIntRange(if s[0] == '-' then -(DigitsValue(Unsigned(s)) as int) else DigitsValue(Unsigned(s)))
    ensures r.Ok? ==> r.value == if s[0] == '-' then -(DigitsValue(Unsigned(s)) as int) else DigitsValue(Unsigned(s))
    ensures r.Ok? ==> InIntRange(r.value)
    ensures r.Err? ==> r.error == NumberFormat(s)
    ensures r.Ok? ==> s != [] && (IsDigit(s[0]) || s[0] == '-' || s[0] == '+')
  {
    var digits := Unsigned(s);
    if digits == [] || !AllDigits(digits) then Err(NumberFormat(s))
    else
      var v: int := if s[0] == '-' then -(DigitsValue(digits) as int) else DigitsValue(digits);
      if InIntRange(v) then Ok(v) else Err(NumberFormat(s))
  }

  /** Integer.parseInt(Integer.toString(n)) == n for every int. */
  lemma ParseIntToString(n: int)
    requires InIntRange(n)
    ensures ParseInt(IntToString(n)) == Ok(n)
  {
    var s := IntToString(n);
    if n < 0 {
      assert s[1..] == NatToDigits(-n);
    } else {
      assert IsDigit(s[0]);
    }
  }

  /** A string of digits parses to its decimal value when that fits in an int. */
  lemma ParseDigits(s: string)
    requires s != [] && AllDigits(s)
    ensures DigitsValue(s) <= IntMax ==> ParseInt(s) == Ok(DigitsValue(s))
    ensures DigitsValue(s) > IntMax ==> ParseInt(s) == Err(NumberFormat(s))
  {
    assert IsDigit(s[0]);
  }
}
