/**
 * Counting the arguments a printf format asks for. The reference is the grammar of conversion specifications
 * (section 7.21.6.1 of ISO/IEC 9899:2011, with the apostrophe flag of POSIX); the counter walks the text once.
 */
module FormatCount {
  import opened Numbers

  // ---------------------------------------------------------------- the tables of the checker

  const INTEGERS: string := "diuoxX"
  const FLOATS: string := "fFeEgGaA"
  const FLAGS: string := "#0- +'"

  predicate IsConversion(c: char) {
    c in INTEGERS || c in FLOATS || c == 'c' || c == 's' || c == 'p'
  }

  predicate AllowedLength(c: char, length: string) {
    if c in INTEGERS then length in ["", "hh", "h", "l", "ll", "j", "z", "t"]
    else if c in FLOATS then length in ["", "l", "L"]
    else if c == 'c' || c == 's' then length in ["", "l"]
    else length == ""
  }

  predicate AllowedFlag(c: char, flag: char) {
    if c == 'd' || c == 'i' then flag in "-+ 0'"
    else if c == 'u' then flag in "-0'"
    else if c in INTEGERS then flag in "-#0'"
    else if c in FLOATS then flag in "-+ #0'"
    else flag == '-'
  }

  predicate TakesPrecision(c: char) {
    c in INTEGERS || c in FLOATS || c == 's'
  }

  // ---------------------------------------------------------------- the grammar

  /** What may go with a conversion: which flags, which length modifiers, and whether a precision. */
  datatype Rule = Rule(flags: string, lengths: seq<string>, precision: bool)

  /** The conversions there are, one by one. */
  function RuleOf(c: char): Option<Rule> {
    match c
    case 'd' => Some(Rule("-+ 0'", ["", "hh", "h", "l", "ll", "j", "z", "t"], true))
    case 'i' => Some(Rule("-+ 0'", ["", "hh", "h", "l", "ll", "j", "z", "t"], true))
    case 'u' => Some(Rule("-0'", ["", "hh", "h", "l", "ll", "j", "z", "t"], true))
    case 'o' => Some(Rule("-#0'", ["", "hh", "h", "l", "ll", "j", "z", "t"], true))
    case 'x' => Some(Rule("-#0'", ["", "hh", "h", "l", "ll", "j", "z", "t"], true))
    case 'X' => Some(Rule("-#0'", ["", "hh", "h", "l", "ll", "j", "z", "t"], true))
    case 'f' => Some(Rule("-+ #0'", ["", "l", "L"], true))
    case 'F' => Some(Rule("-+ #0'", ["", "l", "L"], true))
    case 'e' => Some(Rule("-+ #0'", ["", "l", "L"], true))
    case 'E' => Some(Rule("-+ #0'", ["", "l", "L"], true))
    case 'g' => Some(Rule("-+ #0'", ["", "l", "L"], true))
    case 'G' => Some(Rule("-+ #0'", ["", "l", "L"], true))
    case 'a' => Some(Rule("-+ #0'", ["", "l", "L"], true))
    case 'A' => Some(Rule("-+ #0'", ["", "l", "L"], true))
    case 'c' => Some(Rule("-", ["", "l"], false))
    case 's' => Some(Rule("-", ["", "l"], true))
    case 'p' => Some(Rule("-", [""], false))
    case _ => None
  }

  /** A width or a precision: taken from an argument, or written out, possibly as nothing at all. */
  datatype Field = Star | Digits(text: string)

  datatype Spec = Spec(flags: string, width: Field, precision: Option<Field>, length: string, conversion: char) {

    function Arguments(): nat {
      1 + (if width.Star? then 1 else 0) + (if precision.Some? && precision.value.Star? then 1 else 0)
    }

    /** The checks on a parsed specification. */
    predicate Acceptable() {
      && IsConversion(conversion) && AllowedLength(conversion, length)
      && (forall i | 0 <= i < |flags| :: AllowedFlag(conversion, flags[i]))
      && (precision.Some? ==> TakesPrecision(conversion))
    }

    function Precision(): string {
      if precision.None? then "" else "." + FieldText(precision.value)
    }

    /** The text after the percent sign. */
    function Text(): string {
      flags + (FieldText(width) + (Precision() + (length + [conversion])))
    }
  }

  function FieldText(f: Field): string {
    if f.Star? then "*" else f.text
  }

  /** ASCII digits, and the other characters the language of the checker calls digits. */
  predicate IsDigit(c: char, others: set<char>) {
    '0' <= c <= '9' || c in others
  }

  predicate FieldOk(f: Field, others: set<char>) {
    f.Digits? ==> forall i | 0 <= i < |f.text| :: IsDigit(f.text[i], others)
  }

  /** The rules by groups of conversions. */
  lemma {:induction false} RuleCases(c: char)
    ensures c in "di" ==> RuleOf(c) == Some(Rule("-+ 0'", ["", "hh", "h", "l", "ll", "j", "z", "t"], true))
    ensures c == 'u' ==> RuleOf(c) == Some(Rule("-0'", ["", "hh", "h", "l", "ll", "j", "z", "t"], true))
    ensures c in "oxX" ==> RuleOf(c) == Some(Rule("-#0'", ["", "hh", "h", "l", "ll", "j", "z", "t"], true))
    ensures c in "fFeEgGaA" ==> RuleOf(c) == Some(Rule("-+ #0'", ["", "l", "L"], true))
    ensures c == 'c' ==> RuleOf(c) == Some(Rule("-", ["", "l"], false))
    ensures c == 's' ==> RuleOf(c) == Some(Rule("-", ["", "l"], true))
    ensures c == 'p' ==> RuleOf(c) == Some(Rule("-", [""], false))
    ensures RuleOf(c).Some?
            <==> c in "di" || c == 'u' || c in "oxX" || c in "fFeEgGaA" || c == 'c' || c == 's' || c == 'p'
  {
  }

  /** The specification follows the rule of its conversion. */
  predicate Conforms(s: Spec) {
    match RuleOf(s.conversion)
    case None => false
    case Some(rule) =>
      && s.length in rule.lengths && (forall i | 0 <= i < |s.flags| :: s.flags[i] in rule.flags)
      && (s.precision.Some? ==> rule.precision)
  }

  lemma {:induction false} RulesAgree(c: char)
    ensures RuleOf(c).Some? <==> IsConversion(c)
    ensures RuleOf(c).Some? ==>
              && (forall length :: length in RuleOf(c).value.lengths <==> AllowedLength(c, length))
              && (forall flag :: flag in RuleOf(c).value.flags <==> AllowedFlag(c, flag))
              && (RuleOf(c).value.precision <==> TakesPrecision(c))
  {
  }

  /** The checks of the parser accept exactly what follows the rules. */
  lemma {:induction false} AcceptableIff(s: Spec)
    ensures s.Acceptable() <==> Conforms(s)
  {
    RulesAgree(s.conversion);
    hide RuleOf, IsConversion, AllowedLength, AllowedFlag, TakesPrecision;
  }

  /** A specification as the grammar has it: a leading zero is a flag, never part of the width. */
  predicate Valid(s: Spec, others: set<char>) {
    && Conforms(s) && FieldOk(s.width, others) && (s.precision.Some? ==> FieldOk(s.precision.value, others))
    && (s.width.Digits? && s.width.text != "" ==> s.width.text[0] != '0')
  }

  /** A character that neither continues a specification nor starts another one. */
  predicate Final(c: char, others: set<char>) {
    c !in "%#0- +'*.hljztL" && !IsDigit(c, others)
  }

  /** The parts are of the right kinds, whether they go together or not. */
  predicate Lexical(s: Spec, others: set<char>) {
    && (forall i | 0 <= i < |s.flags| :: s.flags[i] in "#0- +'")
    && FieldOk(s.width, others) && (s.precision.Some? ==> FieldOk(s.precision.value, others))
    && (s.width.Digits? && s.width.text != "" ==> s.width.text[0] != '0')
    && s.length in ["", "hh", "h", "l", "ll", "j", "z", "t", "L"] && Final(s.conversion, others)
  }

  lemma {:induction false} RuleIsLexical(c: char, others: set<char>)
    requires RuleOf(c).Some? && Outside(others)
    ensures Final(c, others)
    ensures forall length | length in RuleOf(c).value.lengths ::
              length in ["", "hh", "h", "l", "ll", "j", "z", "t", "L"]
    ensures forall flag | flag in RuleOf(c).value.flags :: flag in "#0- +'"
  {
    RuleCases(c);
    assert c as int < 128;
    hide RuleOf;
  }

  lemma {:induction false} ValidIsLexical(s: Spec, others: set<char>)
    requires Valid(s, others) && Outside(others)
    ensures Lexical(s, others)
  {
    RuleIsLexical(s.conversion, others);
    hide RuleOf, Final;
  }

  datatype Piece = Literal(text: string) | Percent | Conversion(spec: Spec)

  predicate PieceOk(p: Piece, others: set<char>) {
    match p
    case Literal(t) => '%' !in t
    case Percent => true
    case Conversion(s) => Valid(s, others)
  }

  function PieceText(p: Piece): string {
    match p
    case Literal(t) => t
    case Percent => "%%"
    case Conversion(s) => "%" + s.Text()
  }

  function PieceArguments(p: Piece): nat {
    if p.Conversion? then p.spec.Arguments() else 0
  }

  /** The text of the pieces from the k-th on. */
  function Text(pieces: seq<Piece>, k: nat): string
    requires k <= |pieces|
    decreases |pieces| - k
  {
    if k == |pieces| then "" else PieceText(pieces[k]) + Text(pieces, k + 1)
  }

  function Arguments(pieces: seq<Piece>, k: nat): nat
    requires k <= |pieces|
    decreases |pieces| - k
  {
    if k == |pieces| then 0 else PieceArguments(pieces[k]) + Arguments(pieces, k + 1)
  }

  ghost predicate AllOk(pieces: seq<Piece>, others: set<char>) {
    forall k | 0 <= k < |pieces| :: PieceOk(pieces[k], others)
  }

  /** Every character the checker calls a digit, besides 0 to 9, lies outside ASCII. */
  ghost predicate Outside(others: set<char>) {
    forall c | c in others :: c as int >= 128
  }

  // ---------------------------------------------------------------- the parser

  function FlagsEnd(fmt: string, i: nat): (e: nat)
    requires i <= |fmt|
    ensures i <= e <= |fmt| && (forall k | i <= k < e :: fmt[k] in FLAGS) && (e < |fmt| ==> fmt[e] !in FLAGS)
    decreases |fmt| - i
  {
    if i < |fmt| && fmt[i] in FLAGS then FlagsEnd(fmt, i + 1) else i
  }

  function DigitsEnd(fmt: string, i: nat, others: set<char>): (e: nat)
    requires i <= |fmt|
    ensures i <= e <= |fmt| && (forall k | i <= k < e :: IsDigit(fmt[k], others))
            && (e < |fmt| ==> !IsDigit(fmt[e], others))
    decreases |fmt| - i
  {
    if i < |fmt| && IsDigit(fmt[i], others) then DigitsEnd(fmt, i + 1, others) else i
  }

  /** _consume_characters, on the flag characters. */
  method ConsumeFlags(fmt: string, start: nat) returns (index: nat)
    requires start <= |fmt|
    ensures index == FlagsEnd(fmt, start)
  {
    index := start;
    while index < |fmt| && fmt[index] in FLAGS
      invariant start <= index <= |fmt| && FlagsEnd(fmt, start) == FlagsEnd(fmt, index)
    {
      index := index + 1;
    }
  }

  /** _consume_digits. */
  method ConsumeDigits(fmt: string, start: nat, others: set<char>) returns (index: nat)
    requires start <= |fmt|
    ensures index == DigitsEnd(fmt, start, others)
  {
    index := start;
    while index < |fmt| && IsDigit(fmt[index], others)
      invariant start <= index <= |fmt| && DigitsEnd(fmt, start, others) == DigitsEnd(fmt, index, others)
    {
      index := index + 1;
    }
  }

  function Slice(fmt: string, a: nat, b: nat): string
    requires a <= b <= |fmt|
  {
    fmt[a..b]
  }

  /** The width or precision at i, and where it ends. */
  function FieldAt(fmt: string, i: nat, others: set<char>): (Field, nat)
    requires i <= |fmt|
  {
    if i < |fmt| && fmt[i] == '*' then (Star, i + 1)
    else (Digits(Slice(fmt, i, DigitsEnd(fmt, i, others))), DigitsEnd(fmt, i, others))
  }

  predicate Has(fmt: string, i: nat, c: char) {
    i < |fmt| && fmt[i] == c
  }

  /** _consume_length: two-letter modifiers first. */
  function LengthAt(fmt: string, i: nat): (r: string)
    requires i <= |fmt|
    ensures i + |r| <= |fmt|
  {
    if Has(fmt, i, 'h') then (if Has(fmt, i + 1, 'h') then "hh" else "h")
    else if Has(fmt, i, 'l') then (if Has(fmt, i + 1, 'l') then "ll" else "l")
    else if Has(fmt, i, 'j') then "j"
    else if Has(fmt, i, 'z') then "z"
    else if Has(fmt, i, 't') then "t"
    else if Has(fmt, i, 'L') then "L"
    else ""
  }

  /** The parts of a specification at i, and where it ends; None if the text ends before the conversion. */
  function SpecAt(fmt: string, i: nat, others: set<char>): Option<(nat, Spec)>
    requires i <= |fmt|
  {
    var f := FlagsEnd(fmt, i);
    var (width, w) := FieldAt(fmt, f, others);
    var dot := Has(fmt, w, '.');
    var (precision, p) := if dot then FieldAt(fmt, w + 1, others) else (Digits(""), w);
    var length := LengthAt(fmt, p);
    var c := p + |length|;
    if c >= |fmt| then None
    else Some((c + 1, Spec(Slice(fmt, i, f), width, if dot then Some(precision) else None, length, fmt[c])))
  }

  /** _parse_format_spec: where the specification ends, and what it is. */
  function ParseSpec(fmt: string, i: nat, others: set<char>): Option<(nat, Spec)>
    requires i <= |fmt|
  {
    match SpecAt(fmt, i, others)
    case None => None
    case Some((e, spec)) => if spec.Acceptable() then Some((e, spec)) else None
  }

  /** _format_argument_count from position i on. */
  function CountFrom(fmt: string, i: nat, others: set<char>): Option<nat>
    requires i <= |fmt|
    decreases |fmt| - i
  {
    if i == |fmt| then Some(0)
    else if fmt[i] != '%' then CountFrom(fmt, i + 1, others)
    else if Has(fmt, i + 1, '%') then CountFrom(fmt, i + 2, others)
    else
      match ParseSpec(fmt, i + 1, others)
      case None => None
      case Some((e, spec)) =>
        SpecEnds(fmt, i + 1, others);
        (match CountFrom(fmt, e, others) case None => None case Some(n) => Some(spec.Arguments() + n))
  }

  lemma {:induction false} SpecEnds(fmt: string, i: nat, others: set<char>)
    requires i <= |fmt| && ParseSpec(fmt, i, others).Some?
    ensures i < ParseSpec(fmt, i, others).value.0 <= |fmt|
  {
  }

  /** A star, which takes an argument, or a run of digits. */
  method ConsumeField(fmt: string, start: nat, others: set<char>) returns (index: nat, arguments: nat)
    requires start <= |fmt|
    ensures index == FieldAt(fmt, start, others).1 <= |fmt|
    ensures arguments == if FieldAt(fmt, start, others).0.Star? then 1 else 0
  {
    if start < |fmt| && fmt[start] == '*' {
      return start + 1, 1;
    }
    index := ConsumeDigits(fmt, start, others);
    arguments := 0;
  }

  /** _parse_format_spec, in the order it advances. */
  method ParseFormatSpec(fmt: string, start: nat, others: set<char>) returns (r: Option<(nat, nat)>)
    requires start <= |fmt|
    ensures r == match ParseSpec(fmt, start, others)
                 case None => None
                 case Some((e, spec)) => Some((e, spec.Arguments()))
  {
    hide IsConversion, AllowedLength, AllowedFlag, TakesPrecision, LengthAt, FlagsEnd, FieldAt;
    var index := ConsumeFlags(fmt, start);
    var flags := fmt[start..index];
    var precisionArguments := 0;
    var widthArguments;
    index, widthArguments := ConsumeField(fmt, index, others);
    var hasPrecision := index < |fmt| && fmt[index] == '.';
    if hasPrecision {
      index, precisionArguments := ConsumeField(fmt, index + 1, others);
    }
    var length := LengthAt(fmt, index);
    index := index + |length|;
    if index >= |fmt| {
      return None;
    }
    var conversion := fmt[index];
    if !IsConversion(conversion) || !AllowedLength(conversion, length) {
      return None;
    }
    if exists i | 0 <= i < |flags| :: !AllowedFlag(conversion, flags[i]) {
      return None;
    }
    if hasPrecision && !TakesPrecision(conversion) {
      return None;
    }
    return Some((index + 1, widthArguments + precisionArguments + 1));
  }

  /** The position of the next percent sign, or the end. */
  method FindPercent(fmt: string, start: nat) returns (p: nat)
    requires start <= |fmt|
    ensures start <= p <= |fmt| && (p < |fmt| ==> fmt[p] == '%') && forall k | start <= k < p :: fmt[k] != '%'
  {
    p := start;
    while p < |fmt| && fmt[p] != '%'
      invariant start <= p <= |fmt| && forall k | start <= k < p :: fmt[k] != '%'
    {
      p := p + 1;
    }
  }

  lemma {:induction false} SkipLiteral(fmt: string, i: nat, p: nat, others: set<char>)
    requires i <= p <= |fmt| && forall k | i <= k < p :: fmt[k] != '%'
    ensures CountFrom(fmt, i, others) == CountFrom(fmt, p, others)
    decreases p - i
  {
    if i < p {
      SkipLiteral(fmt, i + 1, p, others);
    }
  }

  /** What the count does at a percent sign. */
  lemma {:induction false} AtPercent(fmt: string, p: nat, others: set<char>)
    requires p < |fmt| && fmt[p] == '%'
    ensures Has(fmt, p + 1, '%') ==> CountFrom(fmt, p, others) == CountFrom(fmt, p + 2, others)
    ensures !Has(fmt, p + 1, '%') && ParseSpec(fmt, p + 1, others).None? ==> CountFrom(fmt, p, others).None?
    ensures !Has(fmt, p + 1, '%') && ParseSpec(fmt, p + 1, others).Some? ==>
              var (e, spec) := ParseSpec(fmt, p + 1, others).value;
              p + 1 < e <= |fmt| && CountFrom(fmt, p, others) == Plus(spec.Arguments(), CountFrom(fmt, e, others))
  {
    if ParseSpec(fmt, p + 1, others).Some? {
      SpecEnds(fmt, p + 1, others);
    }
    hide ParseSpec;
  }

  function Plus(count: nat, rest: Option<nat>): Option<nat> {
    if rest.None? then None else Some(count + rest.value)
  }

  /** _format_argument_count. */
  method FormatArgumentCount(fmt: string, others: set<char>) returns (r: Option<nat>)
    ensures r == CountFrom(fmt, 0, others)
  {
    hide ParseSpec, CountFrom;
    var count, index := 0, 0;
    while index < |fmt|
      invariant index <= |fmt| && CountFrom(fmt, 0, others) == Plus(count, CountFrom(fmt, index, others))
      decreases |fmt| - index
    {
      var percent := FindPercent(fmt, index);
      SkipLiteral(fmt, index, percent, others);
      if percent == |fmt| {
        CountAtEnd(fmt, others);
        return Some(count);
      }
      AtPercent(fmt, percent, others);
      if percent + 1 < |fmt| && fmt[percent + 1] == '%' {
        index := percent + 2;
        continue;
      }
      var parsed := ParseFormatSpec(fmt, percent + 1, others);
      if parsed.None? {
        return None;
      }
      index := parsed.value.0;
      count := count + parsed.value.1;
    }
    CountAtEnd(fmt, others);
    return Some(count);
  }

  lemma {:induction false} CountAtEnd(fmt: string, others: set<char>)
    ensures CountFrom(fmt, |fmt|, others) == Some(0)
  {
  }

  // ---------------------------------------------------------------- rendered formats are counted

  /** The text t stands in fmt at position i. */
  ghost predicate StandsAt(fmt: string, i: nat, t: string) {
    i + |t| <= |fmt| && forall k {:trigger t[k]} | 0 <= k < |t| :: fmt[i + k] == t[k]
  }

  lemma {:induction false} StandsSplit(fmt: string, i: nat, a: string, b: string)
    requires StandsAt(fmt, i, a + b)
    ensures StandsAt(fmt, i, a) && StandsAt(fmt, i + |a|, b)
  {
    forall k | 0 <= k < |a|
      ensures fmt[i + k] == a[k]
    {
      assert (a + b)[k] == a[k];
    }
    forall k | 0 <= k < |b|
      ensures fmt[i + |a| + k] == b[k]
    {
      assert (a + b)[|a| + k] == b[k];
    }
  }

  lemma {:induction false} StandsSlice(fmt: string, i: nat, t: string)
    requires StandsAt(fmt, i, t)
    ensures fmt[i..i + |t|] == t
  {
    forall k | 0 <= k < |t|
      ensures fmt[i..i + |t|][k] == t[k]
    {
    }
  }

  /** A run of flags that something else follows is read whole. */
  lemma {:induction false} FlagsRun(fmt: string, i: nat, e: nat)
    requires i <= e < |fmt| && (forall k | i <= k < e :: fmt[k] in FLAGS) && fmt[e] !in FLAGS
    ensures FlagsEnd(fmt, i) == e
    decreases e - i
  {
    if i < e {
      FlagsRun(fmt, i + 1, e);
    }
  }

  lemma {:induction false} DigitsRun(fmt: string, i: nat, e: nat, others: set<char>)
    requires i <= e < |fmt| && (forall k | i <= k < e :: IsDigit(fmt[k], others)) && !IsDigit(fmt[e], others)
    ensures DigitsEnd(fmt, i, others) == e
    decreases e - i
  {
    if i < e {
      DigitsRun(fmt, i + 1, e, others);
    }
  }

  /** A written field that neither a digit nor, if it is empty, a star follows is read as it was written. */
  lemma {:induction false} FieldReads(fmt: string, i: nat, f: Field, others: set<char>)
    requires FieldOk(f, others) && Outside(others) && StandsAt(fmt, i, FieldText(f)) && i + |FieldText(f)| < |fmt|
    requires !IsDigit(fmt[i + |FieldText(f)|], others) && fmt[i + |FieldText(f)|] != '*'
    ensures FieldAt(fmt, i, others) == (f, i + |FieldText(f)|)
  {
    var t := FieldText(f);
    if f.Star? {
      assert fmt[i + 0] == t[0];
    } else {
      forall k | i <= k < i + |t|
        ensures IsDigit(fmt[k], others)
      {
        assert fmt[i + (k - i)] == t[k - i];
      }
      DigitsRun(fmt, i, i + |t|, others);
      StandsSlice(fmt, i, t);
      if |t| > 0 {
        assert fmt[i + 0] == t[0];
        assert IsDigit('*', others) ==> '*' in others;
      }
    }
  }

  /** What may follow a field: a dot, a length modifier or a conversion. */
  predicate Follows(c: char, others: set<char>) {
    c == '.' || c in "hljztL" || Final(c, others)
  }

  lemma {:induction false} FollowsIsNoField(c: char, others: set<char>)
    requires Follows(c, others) && Outside(others)
    ensures !IsDigit(c, others) && c != '*' && c !in FLAGS
  {
    assert c in others ==> c as int >= 128;
  }

  lemma {:induction false} LengthReads(fmt: string, i: nat, length: string, conversion: char)
    requires length in ["", "hh", "h", "l", "ll", "j", "z", "t", "L"] && conversion !in "hljztL"
    requires StandsAt(fmt, i, length + [conversion])
    ensures LengthAt(fmt, i) == length && i + |length| < |fmt| && fmt[i + |length|] == conversion
    ensures fmt[i] in "hljztL" || fmt[i] == conversion
  {
    StandsSplit(fmt, i, length, [conversion]);
    assert fmt[i + |length| + 0] == [conversion][0];
    if |length| > 0 {
      assert fmt[i + 0] == length[0];
    }
    if |length| > 1 {
      assert fmt[i + 1] == length[1];
    }
    hide StandsAt;
  }

  /** The character after the flags, and the one after the width, when they are read at f and w. */
  ghost predicate Placed(fmt: string, i: nat, s: Spec, f: nat, w: nat, p: nat) {
    && f == i + |s.flags| && w == f + |FieldText(s.width)| && p == w + |s.Precision()| && p < |fmt|
    && StandsAt(fmt, i, s.flags) && StandsAt(fmt, f, FieldText(s.width)) && StandsAt(fmt, w, s.Precision())
    && StandsAt(fmt, p, s.length + [s.conversion])
  }

  lemma {:induction false} SpecSplits(fmt: string, i: nat, s: Spec) returns (f: nat, w: nat, p: nat)
    requires StandsAt(fmt, i, s.Text())
    ensures Placed(fmt, i, s, f, w, p) && i + |s.Text()| == p + |s.length| + 1
  {
    var rest3 := s.length + [s.conversion];
    var rest2 := s.Precision() + rest3;
    var rest1 := FieldText(s.width) + rest2;
    f := i + |s.flags|;
    w := f + |FieldText(s.width)|;
    p := w + |s.Precision()|;
    StandsSplit(fmt, i, s.flags, rest1);
    StandsSplit(fmt, f, FieldText(s.width), rest2);
    StandsSplit(fmt, w, s.Precision(), rest3);
  }

  /** After the width comes a dot exactly if there is a precision; after that, a length modifier or the conversion. */
  lemma {:induction false} AfterFields(fmt: string, i: nat, s: Spec, others: set<char>, f: nat, w: nat, p: nat)
    requires Lexical(s, others) && Placed(fmt, i, s, f, w, p)
    ensures LengthAt(fmt, p) == s.length && p + |s.length| < |fmt| && fmt[p + |s.length|] == s.conversion
    ensures Follows(fmt[p], others) && fmt[p] != '.' && Follows(fmt[w], others)
    ensures fmt[w] == '.' <==> s.precision.Some?
    ensures s.precision.Some? ==>
              StandsAt(fmt, w + 1, FieldText(s.precision.value)) && p == w + 1 + |FieldText(s.precision.value)|
  {
    LengthReads(fmt, p, s.length, s.conversion);
    if s.precision.Some? {
      StandsSplit(fmt, w, ".", FieldText(s.precision.value));
      assert fmt[w + 0] == "."[0];
    }
    hide StandsAt, LengthAt;
  }

  /** After the flags comes no flag. */
  lemma {:induction false} AfterFlags(fmt: string, i: nat, s: Spec, others: set<char>, f: nat, w: nat, p: nat)
    requires Lexical(s, others) && Outside(others) && Placed(fmt, i, s, f, w, p) && Follows(fmt[w], others)
    ensures FlagsEnd(fmt, i) == f && f < |fmt| && fmt[f] != '%'
  {
    FollowsIsNoField(fmt[w], others);
    var t := FieldText(s.width);
    if |t| > 0 {
      assert fmt[f + 0] == t[0];
      assert t[0] in others ==> t[0] as int >= 128;
    }
    forall k | i <= k < f
      ensures fmt[k] in FLAGS
    {
      assert fmt[i + (k - i)] == s.flags[k - i];
    }
    FlagsRun(fmt, i, f);
  }

  /** A field is read as it was written when one of the characters that may follow it does. */
  lemma {:induction false} FieldBefore(fmt: string, i: nat, x: Field, e: nat, others: set<char>)
    requires FieldOk(x, others) && Outside(others) && StandsAt(fmt, i, FieldText(x))
             && e == i + |FieldText(x)| < |fmt| && Follows(fmt[e], others)
    ensures FieldAt(fmt, i, others) == (x, e)
  {
    hide FieldAt, StandsAt, FieldText, FieldOk, Outside, Follows;
    FollowsIsNoField(fmt[e], others);
    FieldReads(fmt, i, x, others);
  }

  lemma {:induction false} PlacedFacts(fmt: string, i: nat, s: Spec, others: set<char>, f: nat, w: nat, p: nat)
    requires Lexical(s, others) && Placed(fmt, i, s, f, w, p)
    ensures i <= f <= w <= p < |fmt| && (s.precision.None? ==> p == w) && w == f + |FieldText(s.width)|
    ensures StandsAt(fmt, f, FieldText(s.width)) && FieldOk(s.width, others)
    ensures s.precision.Some? ==> FieldOk(s.precision.value, others)
  {
    hide StandsAt, FieldOk;
  }

  /** Flags, width, precision and length are each read as they were written. */
  lemma {:induction false} PartsRead(fmt: string, i: nat, s: Spec, others: set<char>, f: nat, w: nat, p: nat)
    requires Lexical(s, others) && Outside(others) && Placed(fmt, i, s, f, w, p)
    ensures i <= f <= w <= p <= |fmt| && FlagsEnd(fmt, i) == f && FieldAt(fmt, f, others) == (s.width, w)
    ensures Has(fmt, w, '.') <==> s.precision.Some?
    ensures if s.precision.Some? then w < |fmt| && FieldAt(fmt, w + 1, others) == (s.precision.value, p) else p == w
  {
    hide FlagsEnd, FieldAt, LengthAt, StandsAt, Follows, FieldText, FieldOk, Placed, Lexical, Outside, Spec.Precision;
    PlacedFacts(fmt, i, s, others, f, w, p);
    AfterFields(fmt, i, s, others, f, w, p);
    AfterFlags(fmt, i, s, others, f, w, p);
    FieldBefore(fmt, f, s.width, w, others);
    if s.precision.Some? {
      FieldBefore(fmt, w + 1, s.precision.value, p, others);
    }
  }

  lemma {:induction false} FlagsRead(fmt: string, i: nat, s: Spec, f: nat, w: nat, p: nat)
    requires Placed(fmt, i, s, f, w, p)
    ensures i <= f <= |fmt| && Slice(fmt, i, f) == s.flags
  {
    StandsSlice(fmt, i, s.flags);
  }

  lemma {:induction false} LastRead(fmt: string, i: nat, s: Spec, others: set<char>, f: nat, w: nat, p: nat)
    requires Lexical(s, others) && Placed(fmt, i, s, f, w, p)
    ensures p <= |fmt| && LengthAt(fmt, p) == s.length && p + |s.length| < |fmt| && fmt[p + |s.length|] == s.conversion
  {
    AfterFields(fmt, i, s, others, f, w, p);
  }

  lemma {:induction false} AllRead(fmt: string, i: nat, s: Spec, others: set<char>, f: nat, w: nat, p: nat)
    requires Lexical(s, others) && Outside(others) && Placed(fmt, i, s, f, w, p)
    ensures i <= |fmt| && SpecAt(fmt, i, others) == Some((p + |s.length| + 1, s))
  {
    hide FlagsEnd, FieldAt, LengthAt, Placed, Outside, Lexical, Slice;
    PartsRead(fmt, i, s, others, f, w, p);
    FlagsRead(fmt, i, s, f, w, p);
    LastRead(fmt, i, s, others, f, w, p);
  }

  /** A written specification is parsed as it was written, whatever follows it. */
  lemma {:induction false} SpecReads(fmt: string, i: nat, s: Spec, others: set<char>, f: nat, w: nat, p: nat)
    requires Valid(s, others) && Outside(others) && Placed(fmt, i, s, f, w, p)
    ensures i <= |fmt| && ParseSpec(fmt, i, others) == Some((p + |s.length| + 1, s))
  {
    ValidIsLexical(s, others);
    AllRead(fmt, i, s, others, f, w, p);
    AcceptableIff(s);
    assert s.Acceptable();
    hide SpecAt, Placed, Outside, Valid, Spec.Acceptable;
  }

  /** A written specification does not start with a percent sign. */
  lemma {:induction false} SpecIsNoPercent(fmt: string, i: nat, s: Spec, others: set<char>)
    requires Lexical(s, others) && Outside(others) && StandsAt(fmt, i, s.Text())
    ensures !Has(fmt, i, '%')
  {
    var f, w, p := SpecSplits(fmt, i, s);
    AfterFields(fmt, i, s, others, f, w, p);
    AfterFlags(fmt, i, s, others, f, w, p);
    if f > i {
        assert fmt[i + 0] == s.flags[0];
    }
  }

  lemma {:induction false} LiteralCounted(fmt: string, i: nat, text: string, others: set<char>)
    requires '%' !in text && StandsAt(fmt, i, text)
    ensures CountFrom(fmt, i, others) == CountFrom(fmt, i + |text|, others)
  {
    forall j | i <= j < i + |text|
      ensures fmt[j] != '%'
    {
      assert fmt[i + (j - i)] == text[j - i];
    }
    SkipLiteral(fmt, i, i + |text|, others);
  }

  lemma {:induction false} PercentThen(fmt: string, i: nat, t: string)
    requires StandsAt(fmt, i, "%" + t)
    ensures i < |fmt| && fmt[i] == '%' && StandsAt(fmt, i + 1, t)
  {
    StandsSplit(fmt, i, "%", t);
    assert fmt[i + 0] == "%"[0];
  }

  lemma {:induction false} ConversionCounted(fmt: string, i: nat, s: Spec, others: set<char>)
    requires Valid(s, others) && Outside(others) && StandsAt(fmt, i, "%" + s.Text())
    ensures CountFrom(fmt, i, others) == Plus(s.Arguments(), CountFrom(fmt, i + 1 + |s.Text()|, others))
  {
    hide Spec.Text, Valid, Outside, CountFrom, ParseSpec, Placed, StandsAt;
    PercentThen(fmt, i, s.Text());
    var f, w, p := SpecSplits(fmt, i + 1, s);
    SpecReads(fmt, i + 1, s, others, f, w, p);
    ValidIsLexical(s, others);
    SpecIsNoPercent(fmt, i + 1, s, others);
    AtPercent(fmt, i, others);
  }

  /** A piece standing in the text adds its arguments to the count of what follows. */
  lemma {:induction false} PieceCounted(fmt: string, i: nat, piece: Piece, others: set<char>)
    requires PieceOk(piece, others) && Outside(others) && StandsAt(fmt, i, PieceText(piece))
    ensures CountFrom(fmt, i, others) == Plus(PieceArguments(piece), CountFrom(fmt, i + |PieceText(piece)|, others))
  {
    match piece
    case Literal(text) =>
      LiteralCounted(fmt, i, text, others);
      hide CountFrom;
    case Percent =>
      assert fmt[i + 0] == PieceText(piece)[0] && fmt[i + 1] == PieceText(piece)[1];
      hide CountFrom, ParseSpec;
      AtPercent(fmt, i, others);
    case Conversion(spec) =>
      hide CountFrom, Valid, Outside;
      ConversionCounted(fmt, i, spec, others);
  }

  /** Any text written from literals, doubled percent signs and valid specifications asks for the arguments of these. */
  lemma {:induction false} RenderedIsCounted(fmt: string, pieces: seq<Piece>, k: nat, i: nat, others: set<char>)
    requires AllOk(pieces, others) && Outside(others) && k <= |pieces| && i + |Text(pieces, k)| == |fmt|
             && StandsAt(fmt, i, Text(pieces, k))
    ensures CountFrom(fmt, i, others) == Some(Arguments(pieces, k))
    decreases |pieces| - k
  {
    hide PieceText, PieceArguments, PieceOk, Outside, StandsAt, CountFrom;
    if k < |pieces| {
      var t, rest := PieceText(pieces[k]), Text(pieces, k + 1);
      StandsSplit(fmt, i, t, rest);
      RenderedIsCounted(fmt, pieces, k + 1, i + |t|, others);
      PieceCounted(fmt, i, pieces[k], others);
    } else {
      CountAtEnd(fmt, others);
    }
  }

  // ---------------------------------------------------------------- counted formats are rendered

  lemma {:induction false} FieldIsText(fmt: string, i: nat, others: set<char>)
    requires i <= |fmt|
    ensures var (f, e) := FieldAt(fmt, i, others);
            i <= e <= |fmt| && FieldOk(f, others) && Slice(fmt, i, e) == FieldText(f)
  {
  }

  lemma {:induction false} LengthIsText(fmt: string, i: nat)
    requires i <= |fmt|
    ensures Slice(fmt, i, i + |LengthAt(fmt, i)|) == LengthAt(fmt, i)
  {
  }

  lemma {:induction false} Join(fmt: string, a: nat, b: nat, c: nat)
    requires a <= b <= c <= |fmt|
    ensures Slice(fmt, a, c) == Slice(fmt, a, b) + Slice(fmt, b, c)
  {
  }

  lemma {:induction false} OneCharacter(fmt: string, c: nat)
    requires c < |fmt|
    ensures Slice(fmt, c, c + 1) == [fmt[c]]
  {
  }

  lemma {:induction false} TextJoins(fmt: string, i: nat, f: nat, w: nat, p: nat, c: nat, s: Spec)
    requires i <= f <= w <= p <= c < |fmt|
    requires Slice(fmt, i, f) == s.flags && Slice(fmt, f, w) == FieldText(s.width) && Slice(fmt, w, p) == s.Precision()
    requires Slice(fmt, p, c) == s.length && fmt[c] == s.conversion
    ensures Slice(fmt, i, c + 1) == s.Text()
  {
    hide Spec.Precision, FieldText, Slice;
    OneCharacter(fmt, c);
    Join(fmt, p, c, c + 1);
    Join(fmt, w, p, c + 1);
    Join(fmt, f, w, c + 1);
    Join(fmt, i, f, c + 1);
  }

  lemma {:induction false} PrecisionIsText(fmt: string, w: nat, others: set<char>)
    requires Has(fmt, w, '.')
    ensures var (f, e) := FieldAt(fmt, w + 1, others);
            w < e <= |fmt| && FieldOk(f, others) && Slice(fmt, w, e) == "." + FieldText(f)
  {
    FieldIsText(fmt, w + 1, others);
    OneCharacter(fmt, w);
    Join(fmt, w, w + 1, FieldAt(fmt, w + 1, others).1);
    hide FieldAt, Slice, FieldText, FieldOk;
  }

  lemma {:induction false} WidthHasNoZero(fmt: string, f: nat, others: set<char>)
    requires f <= |fmt| && (f < |fmt| ==> fmt[f] !in FLAGS)
    ensures var (x, e) := FieldAt(fmt, f, others); x.Digits? && x.text != "" ==> x.text[0] != '0'
  {
  }

  lemma {:induction false} EmptySlice(fmt: string, i: nat)
    requires i <= |fmt|
    ensures Slice(fmt, i, i) == ""
  {
  }

  lemma {:induction false} PartsAreText(fmt: string, i: nat, others: set<char>)
    requires i <= |fmt| && SpecAt(fmt, i, others).Some?
    ensures var (e, s) := SpecAt(fmt, i, others).value;
            && i < e <= |fmt| && FieldOk(s.width, others) && (s.precision.Some? ==> FieldOk(s.precision.value, others))
            && (s.width.Digits? && s.width.text != "" ==> s.width.text[0] != '0') && Slice(fmt, i, e) == s.Text()
  {
    hide FlagsEnd, FieldAt, LengthAt, FieldOk, Spec.Text, Slice, FieldText;
    var (e, s) := SpecAt(fmt, i, others).value;
    var f := FlagsEnd(fmt, i);
    var w := FieldAt(fmt, f, others).1;
    FieldIsText(fmt, f, others);
    WidthHasNoZero(fmt, f, others);
    EmptySlice(fmt, w);
    if Has(fmt, w, '.') {
      PrecisionIsText(fmt, w, others);
    }
    var p := if Has(fmt, w, '.') then FieldAt(fmt, w + 1, others).1 else w;
    LengthIsText(fmt, p);
    TextJoins(fmt, i, f, w, p, p + |s.length|, s);
  }

  /** What the parser accepts is a valid specification, written there. */
  lemma {:induction false} ParsedIsValid(fmt: string, i: nat, others: set<char>)
    requires i <= |fmt| && ParseSpec(fmt, i, others).Some?
    ensures var (e, s) := ParseSpec(fmt, i, others).value;
            i < e <= |fmt| && Valid(s, others) && Slice(fmt, i, e) == s.Text()
  {
    PartsAreText(fmt, i, others);
    AcceptableIff(ParseSpec(fmt, i, others).value.1);
    hide Conforms, SpecAt, Spec.Acceptable, Spec.Text, Slice, FieldOk;
  }

  function Cons(p: Piece, rest: seq<Piece>): seq<Piece> {
    [p] + rest
  }

  lemma {:induction false} TextShifts(p: Piece, rest: seq<Piece>, k: nat)
    requires k <= |rest|
    ensures Text(Cons(p, rest), k + 1) == Text(rest, k) && Arguments(Cons(p, rest), k + 1) == Arguments(rest, k)
    decreases |rest| - k
  {
    hide PieceText, PieceArguments;
    if k < |rest| {
      TextShifts(p, rest, k + 1);
      assert Cons(p, rest)[k + 1] == rest[k];
    }
  }

  lemma {:induction false} Prepend(p: Piece, rest: seq<Piece>, others: set<char>)
    requires PieceOk(p, others) && AllOk(rest, others)
    ensures AllOk(Cons(p, rest), others) && Text(Cons(p, rest), 0) == PieceText(p) + Text(rest, 0)
    ensures Arguments(Cons(p, rest), 0) == PieceArguments(p) + Arguments(rest, 0)
  {
    hide PieceText, PieceArguments, PieceOk;
    TextShifts(p, rest, 0);
    FirstOfCons(p, rest);
    ConsOk(p, rest, others);
    hide Cons, AllOk;
  }

  lemma {:induction false} FirstOfCons(p: Piece, rest: seq<Piece>)
    ensures |Cons(p, rest)| == |rest| + 1 && Cons(p, rest)[0] == p
  {
  }

  lemma {:induction false} ConsOk(p: Piece, rest: seq<Piece>, others: set<char>)
    requires PieceOk(p, others) && AllOk(rest, others)
    ensures AllOk(Cons(p, rest), others)
  {
    hide PieceOk;
    forall k | 0 <= k < |Cons(p, rest)|
      ensures PieceOk(Cons(p, rest)[k], others)
    {
      assert k > 0 ==> Cons(p, rest)[k] == rest[k - 1];
    }
  }

  lemma {:induction false} NoPieces(others: set<char>)
    ensures AllOk([], others) && Text([], 0) == "" && Arguments([], 0) == 0
  {
  }

  /** The first piece of a counted text, and where it ends. */
  lemma {:induction false} FirstPiece(fmt: string, i: nat, others: set<char>) returns (piece: Piece, e: nat)
    requires i < |fmt| && CountFrom(fmt, i, others).Some?
    ensures i < e <= |fmt| && PieceOk(piece, others) && Slice(fmt, i, e) == PieceText(piece)
    ensures CountFrom(fmt, i, others) == Plus(PieceArguments(piece), CountFrom(fmt, e, others))
  {
    OneCharacter(fmt, i);
    if fmt[i] != '%' {
      piece, e := Literal([fmt[i]]), i + 1;
      SkipLiteral(fmt, i, e, others);
      hide CountFrom, Slice;
    } else {
      hide CountFrom, ParseSpec, Valid, Spec.Text, Slice;
      AtPercent(fmt, i, others);
      if Has(fmt, i + 1, '%') {
        piece, e := Percent, i + 2;
        OneCharacter(fmt, i + 1);
        Join(fmt, i, i + 1, i + 2);
      } else {
        ParsedIsValid(fmt, i + 1, others);
        var r := ParseSpec(fmt, i + 1, others).value;
        piece, e := Conversion(r.1), r.0;
        Join(fmt, i, i + 1, e);
      }
    }
  }

  /** Any counted text consists of literals, doubled percent signs and valid specifications with so many arguments. */
  lemma {:induction false} CountedIsRendered(fmt: string, i: nat, others: set<char>) returns (pieces: seq<Piece>)
    requires i <= |fmt| && CountFrom(fmt, i, others).Some?
    ensures AllOk(pieces, others) && Slice(fmt, i, |fmt|) == Text(pieces, 0)
            && CountFrom(fmt, i, others) == Some(Arguments(pieces, 0))
    decreases |fmt| - i
  {
    hide CountFrom, PieceOk, PieceText, PieceArguments, Text, Arguments, AllOk, Cons, Slice;
    if i == |fmt| {
      pieces := [];
      NoPieces(others);
      EmptySlice(fmt, i);
      CountAtEnd(fmt, others);
    } else {
      var piece, e := FirstPiece(fmt, i, others);
      var rest := CountedIsRendered(fmt, e, others);
      Prepend(piece, rest, others);
      Join(fmt, i, e, |fmt|);
      pieces := Cons(piece, rest);
    }
  }

  /** The counter answers n exactly when the format can be written so that its specifications ask for n arguments. */
  lemma {:induction false} CountIsExact(fmt: string, others: set<char>, n: nat)
    requires Outside(others)
    ensures CountFrom(fmt, 0, others) == Some(n) <==>
              exists pieces :: AllOk(pieces, others) && fmt == Text(pieces, 0) && n == Arguments(pieces, 0)
  {
    if CountFrom(fmt, 0, others) == Some(n) {
      var pieces := CountedIsRendered(fmt, 0, others);
      assert Slice(fmt, 0, |fmt|) == fmt;
    }
    forall pieces | AllOk(pieces, others) && fmt == Text(pieces, 0) && n == Arguments(pieces, 0)
      ensures CountFrom(fmt, 0, others) == Some(n)
    {
      RenderedIsCounted(fmt, pieces, 0, 0, others);
    }
  }

  // ---------------------------------------------------------------- single specifications

  /** The format that consists of one specification. */
  function Alone(s: Spec): string {
    "%" + s.Text()
  }

  lemma {:induction false} StandsWhole(t: string)
    ensures StandsAt(t, 0, t)
  {
  }

  lemma {:induction false} AloneReads(s: Spec, others: set<char>)
    requires Lexical(s, others) && Outside(others)
    ensures |Alone(s)| > 1 && Alone(s)[0] == '%' && !Has(Alone(s), 1, '%')
    ensures SpecAt(Alone(s), 1, others) == Some((|Alone(s)|, s))
  {
    hide Spec.Text, Lexical, Outside, Placed, StandsAt, SpecAt;
    var t := s.Text();
    var fmt := "%" + t;
    assert |fmt| == 1 + |t|;
    StandsWhole(fmt);
    PercentThen(fmt, 0, t);
    var f, w, p := SpecSplits(fmt, 1, s);
    AllRead(fmt, 1, s, others, f, w, p);
    SpecIsNoPercent(fmt, 1, s, others);
  }

  lemma {:induction false} AloneParsed(s: Spec, others: set<char>)
    requires Lexical(s, others) && Outside(others)
    ensures |Alone(s)| > 1 && Alone(s)[0] == '%' && !Has(Alone(s), 1, '%')
    ensures ParseSpec(Alone(s), 1, others) == if Conforms(s) then Some((|Alone(s)|, s)) else None
  {
    hide Alone, SpecAt, Lexical, Conforms, Spec.Acceptable, Outside;
    AloneReads(s, others);
    AcceptableIff(s);
  }

  /**
   * Any one specification with parts of the right kinds is counted exactly if the rule of its conversion allows them:
   * one argument, and one more for each star.
   */
  lemma {:induction false} AloneCounted(s: Spec, others: set<char>)
    requires Lexical(s, others) && Outside(others)
    ensures CountFrom(Alone(s), 0, others) == if Conforms(s) then Some(s.Arguments()) else None
  {
    hide Alone, ParseSpec, Lexical, Conforms, CountFrom, Outside;
    AloneParsed(s, others);
    AtPercent(Alone(s), 0, others);
    CountAtEnd(Alone(s), others);
  }

  lemma {:induction false} DropEmpty(e: string, t: string)
    requires |e| == 0
    ensures e + t == t
  {
  }

  /** Without flags, width, precision or length there is less to write. */
  lemma {:induction false} ShortText(s: Spec)
    ensures s.flags == "" && s.length == "" ==> s.Text() == FieldText(s.width) + (s.Precision() + [s.conversion])
    ensures s.width == Digits("") && s.precision.None? ==> s.Text() == s.flags + (s.length + [s.conversion])
  {
    hide FieldText, Spec.Precision;
    var w, p, c := FieldText(s.width), s.Precision(), [s.conversion];
    var rest := w + (p + (s.length + c));
    DropEmptyIf(s.flags, rest);
    DropEmptyIf(s.length, c);
    assert s.width == Digits("") ==> |w| == 0 by {
      NoField(s.width);
    }
    assert s.precision.None? ==> |p| == 0 by {
      NoPrecision(s);
    }
    DropEmptyIf(w, p + (s.length + c));
    DropEmptyIf(p, s.length + c);
  }

  lemma {:induction false} NoField(f: Field)
    ensures f == Digits("") ==> |FieldText(f)| == 0
  {
  }

  lemma {:induction false} NoPrecision(s: Spec)
    ensures s.precision.None? ==> |s.Precision()| == 0
  {
  }

  lemma {:induction false} DropEmptyIf(e: string, t: string)
    ensures |e| == 0 ==> e + t == t
  {
    if |e| == 0 {
      DropEmpty(e, t);
    }
  }

  /** A specification without width and precision. */
  function Bare(flags: string, length: string, c: char): Spec {
    Spec(flags, Digits(""), None, length, c)
  }

  lemma {:induction false} BareCounted(flags: string, length: string, c: char, others: set<char>)
    requires Outside(others) && Final(c, others) && (forall i | 0 <= i < |flags| :: flags[i] in "#0- +'")
    requires length in ["", "hh", "h", "l", "ll", "j", "z", "t", "L"]
    ensures CountFrom("%" + (flags + (length + [c])), 0, others)
            == if Conforms(Bare(flags, length, c)) then Some(1) else None
  {
    var s := Bare(flags, length, c);
    assert Lexical(s, others) && s.Arguments() == 1;
    ShortText(s);
    hide CountFrom, Conforms, Spec.Text, Lexical, Outside, Final, Spec.Arguments;
    AloneCounted(s, others);
  }

  lemma {:induction false} LetterRules(c: char)
    ensures Conforms(Bare("", "", c)) <==> c in "diouxXfFeEgGaAcsp"
  {
    RuleCases(c);
    hide RuleOf;
  }

  lemma {:induction false} LetterText(c: char)
    ensures "%" + ("" + ("" + [c])) == ['%', c]
  {
  }

  /** A bare conversion letter asks for one argument, and no other final character does: not even 'n'. */
  lemma {:induction false} LettersCounted(c: char, others: set<char>)
    requires Outside(others) && Final(c, others)
    ensures CountFrom(['%', c], 0, others) == if c in "diouxXfFeEgGaAcsp" then Some(1) else None
  {
    LetterRules(c);
    LetterText(c);
    BareCounted("", "", c, others);
    hide *;
  }

  /** Which flag goes with which conversion, by flags. */
  predicate FlagGoesWith(flag: char, c: char) {
    || (flag == '-' && c in "diouxXfFeEgGaAcsp")
    || (flag in "0'" && c in "diouxXfFeEgGaA")
    || (flag in "+ " && c in "difFeEgGaA")
    || (flag == '#' && c in "oxXfFeEgGaA")
  }

  lemma {:induction false} FlagRules(flag: char, c: char)
    requires flag in "#0- +'"
    ensures Conforms(Bare([flag], "", c)) <==> FlagGoesWith(flag, c)
  {
    RuleCases(c);
    hide RuleOf;
    OneFlag(flag, c);
    hide Conforms;
    if c in "di" {
    } else if c == 'u' {
    } else if c in "oxX" {
    } else if c in "fFeEgGaA" {
    } else {
    }
  }

  lemma {:induction false} OneFlag(flag: char, c: char)
    ensures Conforms(Bare([flag], "", c))
            <==> RuleOf(c).Some? && "" in RuleOf(c).value.lengths && flag in RuleOf(c).value.flags
  {
    hide RuleOf;
    assert Bare([flag], "", c).flags[0] == flag;
  }

  lemma {:induction false} FlagText(flag: char, c: char)
    ensures "%" + ([flag] + ("" + [c])) == ['%', flag, c]
  {
  }

  lemma {:induction false} FlagsCounted(flag: char, c: char, others: set<char>)
    requires Outside(others) && Final(c, others) && flag in "#0- +'"
    ensures CountFrom(['%', flag, c], 0, others) == if FlagGoesWith(flag, c) then Some(1) else None
  {
    FlagRules(flag, c);
    FlagText(flag, c);
    BareCounted([flag], "", c, others);
    hide *;
  }

  /** Which length modifier goes with which conversion. */
  predicate LengthGoesWith(length: string, c: char) {
    || (c in "diouxX" && length != "L")
    || (c in "fFeEgGaA" && length in ["l", "L"])
    || (c in "cs" && length == "l")
  }

  lemma {:induction false} OneLength(length: string, c: char)
    ensures Conforms(Bare("", length, c)) <==> RuleOf(c).Some? && length in RuleOf(c).value.lengths
  {
    hide RuleOf;
  }

  lemma {:induction false} LengthRules(length: string, c: char)
    requires length in ["hh", "h", "l", "ll", "j", "z", "t", "L"]
    ensures Conforms(Bare("", length, c)) <==> LengthGoesWith(length, c)
  {
    RuleCases(c);
    OneLength(length, c);
    hide RuleOf, Conforms;
    if c in "diouxX" {
      assert c in "di" || c == 'u' || c in "oxX";
    }
  }

  lemma {:induction false} LengthsCounted(length: string, c: char, others: set<char>)
    requires Outside(others) && Final(c, others) && length in ["hh", "h", "l", "ll", "j", "z", "t", "L"]
    ensures CountFrom("%" + (length + [c]), 0, others) == if LengthGoesWith(length, c) then Some(1) else None
  {
    LengthRules(length, c);
    BareCounted("", length, c, others);
    DropEmpty("", length + [c]);
    hide *;
  }

  predicate Decimals(t: string) {
    forall i | 0 <= i < |t| :: '0' <= t[i] <= '9'
  }

  /** A specification without flags and length. */
  function Sized(width: Field, precision: Option<Field>, c: char): Spec {
    Spec("", width, precision, "", c)
  }

  lemma {:induction false} SizedRules(width: Field, precision: Option<Field>, c: char)
    ensures Conforms(Sized(width, precision, c))
            <==> if precision.None? then c in "diouxXfFeEgGaAcsp" else c in "diouxXfFeEgGaAs"
  {
    RuleCases(c);
    hide RuleOf;
  }

  lemma {:induction false} SizedCounted(width: Field, precision: Option<Field>, c: char, others: set<char>)
    requires Lexical(Sized(width, precision, c), others) && Outside(others)
    ensures CountFrom("%" + (FieldText(width) + (Sized(width, precision, c).Precision() + [c])), 0, others)
            == if Conforms(Sized(width, precision, c)) then Some(Sized(width, precision, c).Arguments()) else None
  {
    var s := Sized(width, precision, c);
    ShortText(s);
    hide CountFrom, Conforms, Spec.Text, Spec.Precision, Lexical, Outside, Spec.Arguments, FieldText;
    AloneCounted(s, others);
  }

  /** A width: written out it asks for nothing, a star asks for one more argument. */
  lemma {:induction false} WidthsCounted(width: string, c: char, others: set<char>)
    requires Outside(others) && Final(c, others) && Decimals(width) && (width != "" ==> width[0] != '0')
    ensures CountFrom("%" + (width + [c]), 0, others) == if c in "diouxXfFeEgGaAcsp" then Some(1) else None
    ensures CountFrom("%" + ("*" + [c]), 0, others) == if c in "diouxXfFeEgGaAcsp" then Some(2) else None
  {
    assert Lexical(Sized(Digits(width), None, c), others) && Lexical(Sized(Star, None, c), others);
    hide CountFrom, Conforms, Lexical, Outside, Final;
    SizedRules(Digits(width), None, c);
    SizedRules(Star, None, c);
    SizedCounted(Digits(width), None, c, others);
    SizedCounted(Star, None, c, others);
    DropEmpty("", [c]);
  }

  /** A precision: only with a number or a string, written out, left empty or as a star, beside a width or not. */
  lemma {:induction false} PrecisionsCounted(precision: string, c: char, others: set<char>)
    requires Outside(others) && Final(c, others) && Decimals(precision)
    ensures CountFrom("%" + ("." + precision + [c]), 0, others) == if c in "diouxXfFeEgGaAs" then Some(1) else None
    ensures CountFrom("%" + ("." + "*" + [c]), 0, others) == if c in "diouxXfFeEgGaAs" then Some(2) else None
    ensures CountFrom("%" + ("*" + ("." + "*" + [c])), 0, others) == if c in "diouxXfFeEgGaAs" then Some(3) else None
  {
    var p, q := Some(Digits(precision)), Some(Star);
    assert Lexical(Sized(Digits(""), p, c), others) && Lexical(Sized(Digits(""), q, c), others);
    assert Lexical(Sized(Star, q, c), others);
    hide CountFrom, Conforms, Lexical, Outside, Final;
    SizedRules(Digits(""), p, c);
    SizedRules(Digits(""), q, c);
    SizedRules(Star, q, c);
    SizedCounted(Digits(""), p, c, others);
    SizedCounted(Digits(""), q, c, others);
    SizedCounted(Star, q, c, others);
    DropEmpty("", "." + precision + [c]);
    DropEmpty("", "." + "*" + [c]);
  }

  /** A percent sign at the end, or followed only by what would continue a specification, has no count; two are text. */
  lemma {:induction false} UnfinishedNotCounted(c: char, others: set<char>)
    requires Outside(others) && !Final(c, others)
    ensures CountFrom("%", 0, others) == None
    ensures CountFrom(['%', c], 0, others) == if c == '%' then Some(0) else None
  {
    var fmt := ['%', c];
    AtPercent("%", 0, others);
    AtPercent(fmt, 0, others);
    CountAtEnd(fmt, others);
    hide CountFrom;
    assert SpecAt("%", 1, others).None?;
    if c != '%' {
      assert SpecAt(fmt, 1, others).None?;
    }
  }

  // ---------------------------------------------------------------- formats put together

  lemma {:induction false} TextOfBoth(a: seq<Piece>, b: seq<Piece>, both: seq<Piece>, k: nat)
    requires k <= |a| && |both| == |a| + |b|
    requires forall i | 0 <= i < |a| :: both[i] == a[i]
    requires forall j | |a| <= j < |both| :: both[j] == b[j - |a|]
    ensures Text(both, k) == Text(a, k) + Text(b, 0) && Arguments(both, k) == Arguments(a, k) + Arguments(b, 0)
    decreases |a| - k
  {
    hide PieceText, PieceArguments, Text, Arguments;
    TextStep(a, k);
    if k == |a| {
      TextOfLast(b, both, |a|, 0);
      DropEmpty(Text(a, k), Text(b, 0));
    } else {
      TextStep(both, k);
      TextOfBoth(a, b, both, k + 1);
      assert both[k] == a[k];
      Concatenated(PieceText(a[k]), Text(a, k + 1), Text(b, 0));
    }
  }

  lemma {:induction false} Concatenated(x: string, y: string, z: string)
    ensures x + (y + z) == (x + y) + z
  {
  }

  lemma {:induction false} TextStep(pieces: seq<Piece>, k: nat)
    requires k <= |pieces|
    ensures k < |pieces| ==>
              && Text(pieces, k) == PieceText(pieces[k]) + Text(pieces, k + 1)
              && Arguments(pieces, k) == PieceArguments(pieces[k]) + Arguments(pieces, k + 1)
    ensures k == |pieces| ==> Text(pieces, k) == "" && Arguments(pieces, k) == 0
  {
    hide PieceText, PieceArguments;
  }

  lemma {:induction false} TextOfLast(b: seq<Piece>, both: seq<Piece>, n: nat, k: nat)
    requires k <= |b| && |both| == n + |b| && forall j | n <= j < |both| :: both[j] == b[j - n]
    ensures Text(both, n + k) == Text(b, k) && Arguments(both, n + k) == Arguments(b, k)
    decreases |b| - k
  {
    hide PieceText, PieceArguments, Text, Arguments;
    TextStep(b, k);
    TextStep(both, n + k);
    if k < |b| {
      TextOfLast(b, both, n, k + 1);
      assert both[n + k] == b[k];
    }
  }

  /** Two formats that are counted, one after the other, ask for the arguments of both. */
  lemma {:induction false} CountsAdd(x: string, y: string, others: set<char>)
    requires Outside(others) && CountFrom(x, 0, others).Some? && CountFrom(y, 0, others).Some?
    ensures CountFrom(x + y, 0, others) == Some(CountFrom(x, 0, others).value + CountFrom(y, 0, others).value)
  {
    hide CountFrom, Text, Arguments, PieceOk, Outside;
    var a := CountedIsRendered(x, 0, others);
    var b := CountedIsRendered(y, 0, others);
    assert Slice(x, 0, |x|) == x && Slice(y, 0, |y|) == y;
    var both := a + b;
    TextOfBoth(a, b, both, 0);
    assert AllOk(both, others) by {
      forall k | 0 <= k < |both|
        ensures PieceOk(both[k], others)
      {
        assert both[k] == if k < |a| then a[k] else b[k - |a|];
      }
    }
    StandsWhole(x + y);
    RenderedIsCounted(x + y, both, 0, 0, others);
  }
}
