/** The placeholder resolver of the API steps (replacePlaceholders): three
    scan-and-replace passes over a template, in a fixed order,

      $$key$$   replaced by the configured value of the trimmed key,
      <key>     replaced by the scenario-context value of the trimmed key,
      {{name}}  replaced by generated data,

    each pass reading the output of the previous one. A pass finds matches
    the way java.util.regex does for the lazy patterns \$\$(.*?)\$\$, <(.*?)>
    and \{\{(.*?)\}\}, and writes each replacement through
    Matcher.appendReplacement, which reads '$' and '\' in the replacement as
    group references and escapes. */
module Placeholders {
  import opened JavaLang
  import opened ConfigLoader
  import opened ScenarioContexts

  // ---------------------------------------------------------------------------
  // The three patterns

  datatype Pass = ConfigPass | ContextPass | DynamicPass

  function Open(p: Pass): (r: string)
    ensures |r| > 0
  {
    match p
    case ConfigPass => "$$"
    case ContextPass => "<"
    case DynamicPass => "{{"
  }

  function Close(p: Pass): (r: string)
    ensures |r| > 0
  {
    match p
    case ConfigPass => "$$"
    case ContextPass => ">"
    case DynamicPass => "}}"
  }

  /** The characters '.' does not match without DOTALL. */
  predicate IsLineTerminator(c: char)
  {
    c == '\n' || c == '\r' || c == '\U{0085}' || c == '\U{2028}' || c == '\U{2029}'
  }

  predicate LineFree(s: string)
  {
    forall k | 0 <= k < |s| :: !IsLineTerminator(s[k])
  }

  predicate NoLineBreak(s: string, from: nat, to: nat)
    requires from <= to <= |s|
  {
    forall k | from <= k < to :: !IsLineTerminator(s[k])
  }

  /** The lazy group `.*?` that starts at j ends at c: c is the first position
      from j on where the closing delimiter occurs, and no line terminator
      lies in between. */
  predicate FirstClose(s: string, p: Pass, j: nat, c: nat)
  {
    j <= c <= |s| && OccursAt(s, Close(p), c) && NoLineBreak(s, j, c)
    && forall k | j <= k < c :: !OccursAt(s, Close(p), k)
  }

  /** No match of the pattern starts at i. */
  predicate NoMatchAt(s: string, p: Pass, i: nat)
  {
    forall c | i + |Open(p)| <= c <= |s| ::
      !(OccursAt(s, Open(p), i) && OccursAt(s, Close(p), c) && NoLineBreak(s, i + |Open(p)|, c))
  }

  /** One match: s[start..end] is the whole match, s[start + |Open|..groupEnd]
      is group 1. */
  datatype Span = Span(start: nat, groupEnd: nat, end: nat)

  predicate IsMatch(s: string, p: Pass, m: Span)
  {
    && OccursAt(s, Open(p), m.start)
    && FirstClose(s, p, m.start + |Open(p)|, m.groupEnd)
    && m.end == m.groupEnd + |Close(p)|
  }

  /** Where the lazy group starting at j closes, if it does. */
  function CloseFrom(s: string, p: Pass, j: nat): (r: Option<nat>)
    requires j <= |s|
    ensures r.Some? ==> FirstClose(s, p, j, r.value)
    ensures r.None? ==>
      forall c | j <= c <= |s| :: !(OccursAt(s, Close(p), c) && NoLineBreak(s, j, c))
    decreases |s| - j
  {
    if OccursAt(s, Close(p), j) then Some(j)
    else if j == |s| || IsLineTerminator(s[j]) then None
    else CloseFrom(s, p, j + 1)
  }

  /** Matcher.find() resuming at from: the leftmost match at or after from,
      with the shortest group. */
  function FindFrom(s: string, p: Pass, from: nat): (r: Option<Span>)
    requires from <= |s|
    ensures r.Some? ==> IsMatch(s, p, r.value) && from <= r.value.start
    ensures r.Some? ==> forall i | from <= i < r.value.start :: NoMatchAt(s, p, i)
    ensures r.None? ==> forall i | from <= i <= |s| :: NoMatchAt(s, p, i)
    decreases |s| - from
  {
    var close := if OccursAt(s, Open(p), from) then CloseFrom(s, p, from + |Open(p)|) else None;
    if close.Some? then Some(Span(from, close.value, close.value + |Close(p)|))
    else
      NoCloseNoMatch(s, p, from);
      if from == |s| then None
      else
        var r := FindFrom(s, p, from + 1);
        assert r.Some? ==> forall i | from <= i < r.value.start :: NoMatchAt(s, p, i);
        assert r.None? ==> forall i | from <= i <= |s| :: NoMatchAt(s, p, i);
        r
  }

  /** Where the opening delimiter is missing or its group never closes, no
      match starts. */
  lemma NoCloseNoMatch(s: string, p: Pass, i: nat)
    requires i <= |s|
    requires !OccursAt(s, Open(p), i) || CloseFrom(s, p, i + |Open(p)|).None?
    ensures NoMatchAt(s, p, i)
  {
  }

  /** A match is never also a place where no match starts. */
  lemma MatchIsNotNoMatch(s: string, p: Pass, m: Span)
    requires IsMatch(s, p, m)
    ensures !NoMatchAt(s, p, m.start)
    ensures m.start < m.end <= |s|
  {
    assert OccursAt(s, Close(p), m.groupEnd);
  }

  // ---------------------------------------------------------------------------
  // Matcher.appendReplacement: the replacement string is a template

  predicate IsAsciiAlnum(c: char)
  {
    'a' <= c <= 'z' || 'A' <= c <= 'Z' || '0' <= c <= '9'
  }

  /** How many ASCII letters and digits t starts with. */
  function AlnumPrefix(t: string): (n: nat)
    ensures n <= |t|
    ensures forall i | 0 <= i < n :: IsAsciiAlnum(t[i])
    ensures n < |t| ==> !IsAsciiAlnum(t[n])
    decreases |t|
  {
    if t != [] && IsAsciiAlnum(t[0]) then 1 + AlnumPrefix(t[1..]) else 0
  }

  /** The message of the IllegalArgumentException "${" raises; t is what
      follows "${". The patterns have no named groups, so every name fails. */
  function NamedGroupError(t: string): string
  {
    var n := AlnumPrefix(t);
    if n == 0 then "named capturing group has 0 length name"
    else if n == |t| || t[n] != '}' then "named capturing group is missing trailing '}'"
    else if IsDigit(t[0]) then "capturing group name {" + t[..n] + "} starts with digit character"
    else "No group with name {" + t[..n] + "}"
  }

  /** The group number after "$": further digits are taken while the number
      they make is still a group of the pattern (the patterns have one group).
      Returns the number and how many digits after the first it took. */
  function GroupNumber(rest: string, ref: nat): (r: (nat, nat))
    ensures r.1 <= |rest|
    ensures ref <= 1 ==> r.0 <= 1
    ensures ref > 1 ==> r == (ref, 0)
    decreases |rest|
  {
    if rest != [] && IsDigit(rest[0]) && ref * 10 + DigitValue(rest[0]) <= 1 then
      var g := GroupNumber(rest[1..], ref * 10 + DigitValue(rest[0]));
      (g.0, g.1 + 1)
    else (ref, 0)
  }

  /** What appendReplacement appends for one match: '\x' gives x, "$0" the
      whole match, "$1" group 1, and any other use of '$' or a trailing '\'
      throws. */
  function Expand(rep: string, whole: string, group: string): (r: Result<string>)
    ensures r.Err? ==> r.error.IllegalArgument? || r.error == IndexOutOfBounds
    decreases |rep|
  {
    if rep == [] then Ok([])
    else if rep[0] == '\\' then
      if |rep| == 1 then Err(IllegalArgument("character to be escaped is missing"))
      else
        var rest :- Expand(rep[2..], whole, group);
        Ok([rep[1]] + rest)
    else if rep[0] == '$' then
      if |rep| == 1 then Err(IllegalArgument("Illegal group reference: group index is missing"))
      else if rep[1] == '{' then Err(IllegalArgument(NamedGroupError(rep[2..])))
      else if !IsDigit(rep[1]) then Err(IllegalArgument("Illegal group reference"))
      else
        var g := GroupNumber(rep[2..], DigitValue(rep[1]));
        if g.0 > 1 then Err(IndexOutOfBounds)
        else
          var rest :- Expand(rep[2 + g.1..], whole, group);
          Ok((if g.0 == 0 then whole else group) + rest)
    else
      var rest :- Expand(rep[1..], whole, group);
      Ok([rep[0]] + rest)
  }

  /** A replacement without '$' and '\' is appended as it is. */
  predicate Plain(s: string)
  {
    '$' !in s && '\\' !in s
  }

  lemma {:induction false} ExpandPlain(rep: string, whole: string, group: string)
    requires Plain(rep)
    ensures Expand(rep, whole, group) == Ok(rep)
    decreases |rep|
  {
    if rep != [] {
      assert Plain(rep[1..]) by {
        assert forall i | 0 <= i < |rep[1..]| :: rep[1..][i] == rep[i + 1];
      }
      ExpandPlain(rep[1..], whole, group);
      assert [rep[0]] + rep[1..] == rep;
    }
  }

  /** Matcher.quoteReplacement: a backslash before every '\' and '$'. */
  function Quote(s: string): (r: string)
    ensures |r| >= |s|
    decreases |s|
  {
    if s == [] then []
    else if s[0] == '\\' || s[0] == '$' then ['\\', s[0]] + Quote(s[1..])
    else [s[0]] + Quote(s[1..])
  }

  /** Quoting is the inverse of the expansion: a quoted value comes out as it
      went in, whatever it contains. */
  lemma {:induction false} ExpandQuote(s: string, whole: string, group: string)
    ensures Expand(Quote(s), whole, group) == Ok(s)
    decreases |s|
  {
    if s != [] {
      ExpandQuote(s[1..], whole, group);
      var q := Quote(s);
      if s[0] == '\\' || s[0] == '$' {
        assert q[0] == '\\' && q[1] == s[0] && q[2..] == Quote(s[1..]);
      } else {
        assert q[0] == s[0] && q[1..] == Quote(s[1..]);
      }
      assert [s[0]] + s[1..] == s;
    }
  }

  /** "$0" appends the whole match and "$1" the group; "$2" names a group the
      patterns do not have; a lone '$' at the end is an error. */
  lemma GroupReferences(rest: string, whole: string, group: string)
    requires rest == [] || !IsDigit(rest[0])
    ensures Expand("$0" + rest, whole, group) == Prefixed(whole, Expand(rest, whole, group))
    ensures Expand("$1" + rest, whole, group) == Prefixed(group, Expand(rest, whole, group))
    ensures Expand("$2" + rest, whole, group) == Err(IndexOutOfBounds)
    ensures Expand("$", whole, group)
      == Err(IllegalArgument("Illegal group reference: group index is missing"))
  {
    assert ("$0" + rest)[2..] == rest && ("$0" + rest)[1] == '0';
    assert ("$1" + rest)[2..] == rest && ("$1" + rest)[1] == '1';
    assert ("$2" + rest)[1] == '2';
    assert DigitValue('0') == 0 && DigitValue('1') == 1 && DigitValue('2') == 2;
    assert GroupNumber(rest, 0) == (0, 0);
    assert GroupNumber(rest, 1) == (1, 0);
    assert rest[0..] == rest;
  }

  /** A '$' followed by anything but a digit or '{' is an illegal group
      reference. */
  lemma BadGroupReference(post: string, whole: string, group: string)
    requires post != [] && !IsDigit(post[0]) && post[0] != '{'
    ensures Expand("$" + post, whole, group) == Err(IllegalArgument("Illegal group reference"))
  {
    assert ("$" + post)[1] == post[0];
  }

  // ---------------------------------------------------------------------------
  // Generated data for {{name}}

  /** The random source: draw j for the k-th {{...}} match of a pass. */
  type Entropy = (nat, nat) -> nat

  /** String.valueOf(new Random().nextInt(1000)). */
  function RandomNumber(rnd: Entropy, k: nat): (r: string)
    ensures 1 <= |r| <= 3 && AllDigits(r)
    ensures DigitsValue(r) < 1000
    ensures ParseInt(r) == Ok(DigitsValue(r))
    ensures r[0] == '0' ==> r == "0"
  {
    var n := rnd(k, 0) % 1000;
    var r := NatToDigits(n);
    assert |r| <= 3 by {
      if n >= 10 {
        assert NatToDigits(n) == NatToDigits(n / 10) + [DigitChar(n % 10)];
        if n / 10 >= 10 {
          assert NatToDigits(n / 10) == NatToDigits(n / 100) + [DigitChar(n / 10 % 10)];
        }
      }
    }
    ParseDigits(r);
    r
  }

  /** Ten letters drawn from 'a'..'z'. */
  function RandomName(rnd: Entropy, k: nat): (r: string)
    ensures |r| == 10
    ensures forall i | 0 <= i < |r| :: 'a' <= r[i] <= 'z'
  {
    seq(10, j requires 0 <= j < 10 => ('a' as int + rnd(k, j) % 26) as char)
  }

  /** UUID.randomUUID().toString().replace("-", ""): 32 lower-case hex digits
      of a version 4, IETF variant UUID. */
  function UuidHex(rnd: Entropy, k: nat): (r: string)
    ensures |r| == 32
    ensures forall i | 0 <= i < |r| :: IsLowerHex(r[i])
    ensures r[12] == '4'
    ensures r[16] in {'8', '9', 'a', 'b'}
  {
    var variant := HexDigit(8 + rnd(k, 16) % 4);
    assert variant in {'8', '9', 'a', 'b'};
    var r := seq(32, j requires 0 <= j < 32 =>
      if j == 12 then '4'
      else if j == 16 then variant
      else HexDigit(rnd(k, j) % 16));
    assert r[16] == variant;
    assert forall i | 0 <= i < 32 :: IsLowerHex(r[i]) by {
      forall i | 0 <= i < 32
        ensures IsLowerHex(r[i])
      {
        if i != 12 && i != 16 {
          assert r[i] == HexDigit(rnd(k, i) % 16);
        }
      }
    }
    r
  }

  /** "test" + hex UUID + "@yopmail.com". */
  function RandomEmail(rnd: Entropy, k: nat): (r: string)
    ensures |r| == 48
    ensures StartsWith(r, "test") && EndsWith(r, "@yopmail.com")
    ensures forall i | 4 <= i < 36 :: IsLowerHex(r[i])
  {
    var r := "test" + UuidHex(rnd, k) + "@yopmail.com";
    assert r[..4] == "test" && r[36..] == "@yopmail.com";
    r
  }

  /** The switch on the lower-cased name; an unknown name is written back
      between braces with its case kept. */
  function Generate(rnd: Entropy, name: string, k: nat): (r: string)
    ensures ToLower(name) == "randomnumber" ==> r == RandomNumber(rnd, k)
    ensures ToLower(name) == "randomname" ==> r == RandomName(rnd, k)
    ensures ToLower(name) == "randomemail" ==> r == RandomEmail(rnd, k)
    ensures ToLower(name) !in {"randomnumber", "randomname", "randomemail"} ==>
      r == "{{" + name + "}}"
  {
    var lower := ToLower(name);
    if lower == "randomemail" then RandomEmail(rnd, k)
    else if lower == "randomnumber" then RandomNumber(rnd, k)
    else if lower == "randomname" then RandomName(rnd, k)
    else "{{" + name + "}}"
  }

  // ---------------------------------------------------------------------------
  // The passes

  /** What the resolver reads: the loaded configuration and the scenario
      context as it stands when the resolver runs. */
  datatype Env = Env(config: Properties, context: map<string, Value>)

  /** The config pass's replacement: the configured value, which must be
      present and non-empty. */
  function ConfigValue(config: Properties, key: string): (r: Result<string>)
    ensures r.Ok? <==> key in config && config[key] != ""
    ensures r.Ok? ==> r.value == config[key]
    ensures r.Err? ==> r.error == IllegalArgument("No value found in config.properties for key: " + key)
  {
    var v := GetProperty(config, key, "");
    if v == "" then Err(IllegalArgument("No value found in config.properties for key: " + key))
    else Ok(v)
  }

  /** The context pass's replacement: the stored value's text, or the
      placeholder itself for a value stored as null; getContext's failures
      pass through. */
  function ContextText(context: map<string, Value>, key: string): (r: Result<string>)
    ensures Lookup(context, key).Err? ==> r == Err(Lookup(context, key).error)
    ensures Lookup(context, key) == Ok(Null) ==> r == Ok("<" + key + ">")
    ensures Lookup(context, key).Ok? && !Lookup(context, key).value.Null? ==>
      r == Ok(Show(Lookup(context, key).value))
  {
    var v :- Lookup(context, key);
    if v.Null? then Ok("<" + key + ">") else Ok(Show(v))
  }

  /** The replacement for one match, given its trimmed group. */
  function Replacement(env: Env, rnd: Entropy, p: Pass, key: string, k: nat): Result<string>
  {
    match p
    case ConfigPass => ConfigValue(env.config, key)
    case ContextPass => ContextText(env.context, key)
    case DynamicPass => Ok(Generate(rnd, key, k))
  }

  /** Group 1 of a match, trimmed. */
  function KeyOf(s: string, p: Pass, m: Span): string
    requires IsMatch(s, p, m)
  {
    Trim(s[m.start + |Open(p)|..m.groupEnd])
  }

  /** What one match contributes: its replacement, expanded. */
  function Contribution(env: Env, rnd: Entropy, p: Pass, s: string, m: Span, k: nat): Result<string>
    requires IsMatch(s, p, m)
  {
    var rep :- Replacement(env, rnd, p, KeyOf(s, p, m), k);
    Expand(rep, s[m.start..m.end], s[m.start + |Open(p)|..m.groupEnd])
  }

  /** The output of a pass from position from on, k matches having been
      replaced before from: the text up to the next match, its contribution,
      and the rest; the first failure aborts the whole pass. */
  function PassFrom(env: Env, rnd: Entropy, p: Pass, s: string, from: nat, k: nat): Result<string>
    requires from <= |s|
    decreases |s| - from
  {
    match FindFrom(s, p, from)
    case None => Ok(s[from..])
    case Some(m) =>
      MatchIsNotNoMatch(s, p, m);
      var text :- Contribution(env, rnd, p, s, m, k);
      var rest :- PassFrom(env, rnd, p, s, m.end, k + 1);
      Ok(s[from..m.start] + text + rest)
  }

  /** One pass over the whole string. */
  function Substitute(env: Env, rnd: Entropy, p: Pass, s: string): Result<string>
  {
    PassFrom(env, rnd, p, s, 0, 0)
  }

  /** The context and the dynamic pass, in that order. */
  function ResolveAfterConfig(env: Env, rnd: Entropy, s: string): Result<string>
  {
    var t :- Substitute(env, rnd, ContextPass, s);
    Substitute(env, rnd, DynamicPass, t)
  }

  /** replacePlaceholders: config, then context, then dynamic data. */
  function Resolve(env: Env, rnd: Entropy, s: string): Result<string>
  {
    var t :- Substitute(env, rnd, ConfigPass, s);
    ResolveAfterConfig(env, rnd, t)
  }

  function Prefixed(prefix: string, r: Result<string>): (q: Result<string>)
    ensures q.Ok? <==> r.Ok?
    ensures r.Err? ==> q == r
    ensures r.Ok? ==> q.value == prefix + r.value
  {
    match r
    case Ok(v) => Ok(prefix + v)
    case Err(e) => Err(e)
  }

  /** Appending a prefix twice is appending the two prefixes; appending
      nothing changes nothing. */
  lemma PrefixedTwice(a: string, b: string, r: Result<string>)
    ensures Prefixed(a, Prefixed(b, r)) == Prefixed(a + b, r)
    ensures Prefixed([], r) == r
  {
    if r.Ok? {
      assert a + (b + r.value) == a + b + r.value;
      assert [] + r.value == r.value;
    }
  }

  /** One step of a pass: the match found at from decides what comes next. */
  lemma PassStep(env: Env, rnd: Entropy, p: Pass, s: string, from: nat, k: nat, m: Span)
    requires from <= |s| && FindFrom(s, p, from) == Some(m)
    ensures m.end <= |s| && from <= m.start < m.end
    ensures Contribution(env, rnd, p, s, m, k).Err? ==>
      PassFrom(env, rnd, p, s, from, k) == Err(Contribution(env, rnd, p, s, m, k).error)
    ensures Contribution(env, rnd, p, s, m, k).Ok? ==>
      PassFrom(env, rnd, p, s, from, k)
        == Prefixed(s[from..m.start] + Contribution(env, rnd, p, s, m, k).value,
                    PassFrom(env, rnd, p, s, m.end, k + 1))
  {
    MatchIsNotNoMatch(s, p, m);
  }

  /** One pass as the resolver runs it: a find() loop appending the text
      before each match and its replacement into a buffer, then the tail. */
  method ApplyPass(env: Env, rnd: Entropy, p: Pass, s: string) returns (r: Result<string>)
    ensures r == Substitute(env, rnd, p, s)
  {
    var buffer := "";
    var appendPos := 0;
    var k := 0;
    var found := FindFrom(s, p, 0);
    PrefixedTwice([], [], PassFrom(env, rnd, p, s, 0, 0));
    while found.Some?
      invariant appendPos <= |s|
      invariant found == FindFrom(s, p, appendPos)
      invariant Substitute(env, rnd, p, s) == Prefixed(buffer, PassFrom(env, rnd, p, s, appendPos, k))
      decreases |s| - appendPos
    {
      var m := found.value;
      PassStep(env, rnd, p, s, appendPos, k, m);
      var text := Contribution(env, rnd, p, s, m, k);
      if text.Err? {
        return Err(text.error);
      }
      PrefixedTwice(buffer, s[appendPos..m.start] + text.value, PassFrom(env, rnd, p, s, m.end, k + 1));
      buffer := buffer + (s[appendPos..m.start] + text.value);
      appendPos := m.end;
      k := k + 1;
      found := FindFrom(s, p, appendPos);
    }
    r := Ok(buffer + s[appendPos..]);
  }

  /** replacePlaceholders, run pass by pass. */
  method ReplacePlaceholders(env: Env, rnd: Entropy, body: string) returns (r: Result<string>)
    ensures r == Resolve(env, rnd, body)
  {
    var configured :- ApplyPass(env, rnd, ConfigPass, body);
    var contextual :- ApplyPass(env, rnd, ContextPass, configured);
    r := ApplyPass(env, rnd, DynamicPass, contextual);
  }

  // ---------------------------------------------------------------------------
  // Properties of the resolver

  /** A pass over a string in which no match starts returns it unchanged. */
  lemma NoMatchKeepsText(env: Env, rnd: Entropy, p: Pass, s: string)
    requires forall i | 0 <= i <= |s| :: NoMatchAt(s, p, i)
    ensures Substitute(env, rnd, p, s) == Ok(s)
  {
    var found := FindFrom(s, p, 0);
    if found.Some? {
      MatchIsNotNoMatch(s, p, found.value);
    }
    assert s[0..] == s;
  }

  /** A template without any $$...$$, <...> or {{...}} span comes back as it
      is. */
  lemma ResolveIdentity(env: Env, rnd: Entropy, s: string)
    requires forall p: Pass, i | 0 <= i <= |s| :: NoMatchAt(s, p, i)
    ensures Resolve(env, rnd, s) == Ok(s)
  {
    NoMatchKeepsText(env, rnd, ConfigPass, s);
    NoMatchKeepsText(env, rnd, ContextPass, s);
    NoMatchKeepsText(env, rnd, DynamicPass, s);
  }

  /** Nothing is found at the very end of a string. */
  lemma NothingAtEnd(s: string, p: Pass)
    ensures FindFrom(s, p, |s|) == None
  {
    assert !OccursAt(s, Open(p), |s|);
  }

  /** In Open + key + Close the group that starts after Open ends after key. */
  lemma KeyCloses(p: Pass, key: string)
    requires Close(p)[0] !in key && LineFree(key)
    ensures var s := Open(p) + key + Close(p);
      FirstClose(s, p, |Open(p)|, |Open(p)| + |key|)
  {
    var s := Open(p) + key + Close(p);
    var o := |Open(p)|;
    var c := o + |key|;
    assert s[c..] == Close(p);
    assert OccursAt(s, Close(p), c);
    forall j | o <= j < c
      ensures !IsLineTerminator(s[j]) && !OccursAt(s, Close(p), j)
    {
      assert s[j] == key[j - o];
      if j + |Close(p)| <= |s| {
        assert s[j..j + |Close(p)|][0] == s[j];
      }
    }
  }

  /** Open + key + Close, with the key free of line terminators and of the
      first character of Close, is exactly one match whose group is the key. */
  lemma SingleMatch(p: Pass, key: string)
    requires Close(p)[0] !in key && LineFree(key)
    ensures var s := Open(p) + key + Close(p);
      var m := Span(0, |Open(p)| + |key|, |s|);
      && FindFrom(s, p, 0) == Some(m)
      && FindFrom(s, p, |s|) == None
      && IsMatch(s, p, m)
      && s[m.start + |Open(p)|..m.groupEnd] == key
      && s[m.start..m.end] == s
  {
    var s := Open(p) + key + Close(p);
    var o := |Open(p)|;
    var c := o + |key|;
    assert s[..o] == Open(p);
    assert s[o..c] == key;
    assert OccursAt(s, Open(p), 0);
    KeyCloses(p, key);
    var close := CloseFrom(s, p, o);
    assert close == Some(c);
    assert s[0..|s|] == s;
    NothingAtEnd(s, p);
  }

  /** A pass over a single placeholder is that placeholder's contribution. */
  lemma SinglePass(env: Env, rnd: Entropy, p: Pass, key: string)
    requires Close(p)[0] !in key && LineFree(key)
    ensures var s := Open(p) + key + Close(p);
      Substitute(env, rnd, p, s) == Contribution(env, rnd, p, s, Span(0, |Open(p)| + |key|, |s|), 0)
  {
    SingleMatch(p, key);
    var s := Open(p) + key + Close(p);
    var m := Span(0, |Open(p)| + |key|, |s|);
    assert s[|s|..] == [];
    assert PassFrom(env, rnd, p, s, |s|, 1) == Ok([]);
    PassStep(env, rnd, p, s, 0, 0, m);
    var text := Contribution(env, rnd, p, s, m, 0);
    if text.Ok? {
      assert s[0..0] + text.value + [] == text.value;
    }
  }

  /** The replacement a single placeholder receives, for its trimmed key. */
  lemma SingleContribution(env: Env, rnd: Entropy, p: Pass, key: string)
    requires Close(p)[0] !in key && LineFree(key)
    ensures var s := Open(p) + key + Close(p);
      Substitute(env, rnd, p, s) ==
        (match Replacement(env, rnd, p, Trim(key), 0)
         case Err(e) => Err(e)
         case Ok(rep) => Expand(rep, s, key))
  {
    SingleMatch(p, key);
    SinglePass(env, rnd, p, key);
  }

  /** The first non-blank character of a trimmed key makes it non-blank. */
  lemma TrimmedBlank(s: string)
    ensures IsBlank(Trim(s)) <==> Trim(s) == []
  {
    var t := Trim(s);
    if t != [] {
      assert !IsTrimmable(t[0]);
    }
  }

  /** $$key$$ becomes the configured value of the trimmed key, which the
      context and dynamic passes then rescan; an absent or empty value is an
      IllegalArgumentException and nothing is returned. */
  lemma ConfigPlaceholder(env: Env, rnd: Entropy, key: string)
    requires '$' !in key && LineFree(key)
    ensures GetProperty(env.config, Trim(key), "") == "" ==>
      Resolve(env, rnd, "$$" + key + "$$") ==
      Err(IllegalArgument("No value found in config.properties for key: " + Trim(key)))
    ensures GetProperty(env.config, Trim(key), "") != "" && Plain(GetProperty(env.config, Trim(key), "")) ==>
      Resolve(env, rnd, "$$" + key + "$$") ==
      ResolveAfterConfig(env, rnd, GetProperty(env.config, Trim(key), ""))
  {
    SingleContribution(env, rnd, ConfigPass, key);
    var v := GetProperty(env.config, Trim(key), "");
    if v != "" && Plain(v) {
      var s := "$$" + key + "$$";
      ExpandPlain(v, s, key);
    }
  }

  /** <key> with a blank key, or a key never stored, aborts the pass with
      getContext's exception. */
  lemma ContextPlaceholderFails(env: Env, rnd: Entropy, key: string)
    requires '>' !in key && LineFree(key)
    ensures Trim(key) == [] ==>
      Substitute(env, rnd, ContextPass, "<" + key + ">") == Err(IllegalArgument(KeyMessage))
    ensures Trim(key) != [] && Trim(key) !in env.context ==>
      Substitute(env, rnd, ContextPass, "<" + key + ">") ==
      Err(NullPointer("No value found in context for key: " + Trim(key)))
  {
    SingleContribution(env, rnd, ContextPass, key);
    var t := Trim(key);
    TrimmedBlank(key);
    if t == [] {
      assert ContextText(env.context, t) == Err(IllegalArgument(KeyMessage));
    } else if t !in env.context {
      assert ContextText(env.context, t) == Err(NullPointer("No value found in context for key: " + t));
    }
  }

  /** <key> with a stored key becomes the value's text; a key stored as null is
      written back as <trimmed key>. */
  lemma ContextPlaceholder(env: Env, rnd: Entropy, key: string)
    requires '>' !in key && LineFree(key) && Plain(key)
    requires Trim(key) != [] && Trim(key) in env.context
    ensures env.context[Trim(key)].Null? ==>
      Substitute(env, rnd, ContextPass, "<" + key + ">") == Ok("<" + Trim(key) + ">")
    ensures !env.context[Trim(key)].Null? && Plain(Show(env.context[Trim(key)])) ==>
      Substitute(env, rnd, ContextPass, "<" + key + ">") == Ok(Show(env.context[Trim(key)]))
  {
    SingleContribution(env, rnd, ContextPass, key);
    var t := Trim(key);
    var s := "<" + key + ">";
    TrimmedBlank(key);
    var v := env.context[t];
    if v.Null? {
      assert ContextText(env.context, t) == Ok("<" + t + ">");
      TrimKeeps(key, '$');
      TrimKeeps(key, '\\');
      ExpandPlain("<" + t + ">", s, key);
    } else if Plain(Show(v)) {
      assert ContextText(env.context, t) == Ok(Show(v));
      ExpandPlain(Show(v), s, key);
    }
  }

  /** Generated values never contain '$' or '\'. */
  lemma GeneratedArePlain(rnd: Entropy, k: nat)
    ensures Plain(RandomNumber(rnd, k))
    ensures Plain(RandomName(rnd, k))
    ensures Plain(RandomEmail(rnd, k))
  {
    var e := RandomEmail(rnd, k);
    assert e[..4] == "test" && e[36..] == "@yopmail.com";
    forall i | 0 <= i < |e|
      ensures e[i] != '$' && e[i] != '\\'
    {
      if i < 4 {
        assert e[i] == "test"[i];
      } else if i >= 36 {
        assert e[i] == "@yopmail.com"[i - 36];
      }
    }
  }

  /** {{name}} is the generated value for the trimmed name: one of the three
      generators when the name, lower-cased, selects one, and {{trimmed name}}
      otherwise. */
  lemma DynamicPlaceholder(env: Env, rnd: Entropy, name: string)
    requires '}' !in name && LineFree(name) && Plain(name)
    ensures Substitute(env, rnd, DynamicPass, "{{" + name + "}}") == Ok(Generate(rnd, Trim(name), 0))
  {
    SingleContribution(env, rnd, DynamicPass, name);
    var n := Trim(name);
    TrimKeeps(name, '$');
    TrimKeeps(name, '\\');
    GeneratedIsPlain(rnd, n, 0);
    ExpandPlain(Generate(rnd, n, 0), "{{" + name + "}}", name);
  }

  /** Generation never introduces '$' or '\'. */
  lemma GeneratedIsPlain(rnd: Entropy, name: string, k: nat)
    requires Plain(name)
    ensures Plain(Generate(rnd, name, k))
  {
    GeneratedArePlain(rnd, k);
    var lower := ToLower(name);
    if lower != "randomemail" && lower != "randomnumber" && lower != "randomname" {
      assert Generate(rnd, name, k) == "{{" + name + "}}";
    }
  }

  /** Blank keys: $$ $$ looks up the empty key, which throws unless the
      configuration has a non-empty entry for it, and < > always throws. */
  lemma BlankKeys(env: Env, rnd: Entropy, blank: string)
    requires IsBlank(blank) && LineFree(blank)
    ensures GetProperty(env.config, "", "") == "" ==>
      Resolve(env, rnd, "$$" + blank + "$$") ==
      Err(IllegalArgument("No value found in config.properties for key: " + Trim(blank)))
    ensures Substitute(env, rnd, ContextPass, "<" + blank + ">") == Err(IllegalArgument(KeyMessage))
    ensures Trim(blank) == []
  {
    assert '$' !in blank && '>' !in blank;
    ConfigPlaceholder(env, rnd, blank);
    ContextPlaceholderFails(env, rnd, blank);
  }

  /** The passes run in order over each other's output: a configured value
      that is itself a context placeholder is resolved from the context. */
  lemma ConfigValueIsRescanned(env: Env, rnd: Entropy, key: string, inner: string, value: string)
    requires '$' !in key && LineFree(key)
    requires GetProperty(env.config, Trim(key), "") == "<" + inner + ">"
    requires '>' !in inner && LineFree(inner) && Plain(inner)
    requires Trim(inner) != [] && Trim(inner) in env.context && env.context[Trim(inner)] == Str(value)
    requires Plain(value) && forall i | 0 <= i <= |value| :: NoMatchAt(value, DynamicPass, i)
    ensures Resolve(env, rnd, "$$" + key + "$$") == Ok(value)
  {
    ConfigPlaceholder(env, rnd, key);
    assert Plain("<" + inner + ">");
    assert Resolve(env, rnd, "$$" + key + "$$") == ResolveAfterConfig(env, rnd, "<" + inner + ">");
    ContextPlaceholder(env, rnd, inner);
    assert Show(env.context[Trim(inner)]) == value;
    assert Substitute(env, rnd, ContextPass, "<" + inner + ">") == Ok(value);
    NoMatchKeepsText(env, rnd, DynamicPass, value);
  }

  /** Expansion runs left to right: after a plain prefix, what follows decides. */
  lemma {:induction false} ExpandAfterPlain(pre: string, rest: string, whole: string, group: string)
    requires Plain(pre)
    ensures Expand(rest, whole, group).Err? ==>
      Expand(pre + rest, whole, group) == Expand(rest, whole, group)
    ensures Expand(rest, whole, group).Ok? ==>
      Expand(pre + rest, whole, group) == Ok(pre + Expand(rest, whole, group).value)
    decreases |pre|
  {
    if pre == [] {
      assert pre + rest == rest;
      if Expand(rest, whole, group).Ok? {
        assert pre + Expand(rest, whole, group).value == Expand(rest, whole, group).value;
      }
    } else {
      assert Plain(pre[1..]) by {
        assert forall i | 0 <= i < |pre[1..]| :: pre[1..][i] == pre[i + 1];
      }
      ExpandAfterPlain(pre[1..], rest, whole, group);
      var x := pre + rest;
      assert x[1..] == pre[1..] + rest;
      assert x[0] == pre[0] && x[0] != '$' && x[0] != '\\';
      assert Expand(x, whole, group) ==
        (match Expand(x[1..], whole, group) case Err(e) => Err(e) case Ok(t) => Ok([x[0]] + t));
      if Expand(rest, whole, group).Ok? {
        assert [pre[0]] + (pre[1..] + Expand(rest, whole, group).value) == pre + Expand(rest, whole, group).value;
      }
    }
  }

  /** A configured value with a '$' that starts no group reference (say
      "pa$word") makes the resolver throw instead of substituting it. */
  lemma DollarInConfigValue(env: Env, rnd: Entropy, key: string, pre: string, post: string)
    requires '$' !in key && LineFree(key)
    requires GetProperty(env.config, Trim(key), "") == pre + "$" + post
    requires Plain(pre) && post != [] && !IsDigit(post[0]) && post[0] != '{'
    ensures Resolve(env, rnd, "$$" + key + "$$") == Err(IllegalArgument("Illegal group reference"))
  {
    var s := "$$" + key + "$$";
    var value := pre + "$" + post;
    var failure := Err(IllegalArgument("Illegal group reference"));
    var tail := "$" + post;
    BadGroupReference(post, s, key);
    assert value == pre + tail;
    ExpandAfterPlain(pre, tail, s, key);
    assert Expand(value, s, key) == failure;
    assert ConfigValue(env.config, Trim(key)) == Ok(value);
    SingleContribution(env, rnd, ConfigPass, key);
    assert Substitute(env, rnd, ConfigPass, s) == failure;
  }
}
