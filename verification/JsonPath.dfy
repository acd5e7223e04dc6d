/** The JSONPath subset of body conditions and key selectors: a `$` followed by
    `.field` and `[index]` segments. */
module JsonPath {
  import opened Model

  datatype Token = Field(key: string) | Index(index: nat)

  datatype ParseError = NoDollar | EmptyField | Unclosed | BadIndex | Unexpected(c: char) | SelectsNothing

  datatype Result<+T> = Ok(value: T) | Err(error: ParseError)

  // ---------- numbers ----------

  const MAX_INT: int := 0x7fff_ffff_ffff_ffff

  predicate Digits(s: string) {
    forall i :: 0 <= i < |s| ==> '0' <= s[i] <= '9'
  }

  function Digit(c: char): int {
    c as int - '0' as int
  }

  function Decimal(s: string): int {
    if s == [] then 0 else Decimal(s[..|s| - 1]) * 10 + Digit(s[|s| - 1])
  }

  function Unsigned(s: string): string {
    if s != [] && (s[0] == '+' || s[0] == '-') then s[1..] else s
  }

  /** What strconv.Atoi makes of a string: an optional sign and digits, within 64 bits. */
  function Atoi(s: string): Option<int> {
    var digits := Unsigned(s);
    if digits == [] || !Digits(digits) then None else
    var n := if s[0] == '-' then -Decimal(digits) else Decimal(digits);
    if -MAX_INT - 1 <= n <= MAX_INT then Some(n) else None
  }

  function TenTo(k: nat): nat {
    if k == 0 then 1 else 10 * TenTo(k - 1)
  }

  /** What decimal digits are worth, each by its place. */
  function Worth(s: string): int {
    if s == [] then 0 else (s[0] as int - '0' as int) * TenTo(|s| - 1) + Worth(s[1..])
  }

  lemma {:induction false} DecimalIsWorth(s: string)
    ensures Decimal(s) == Worth(s)
  {
    if |s| > 1 {
      var front, c := s[..|s| - 1], s[|s| - 1];
      DecimalIsWorth(front);
      WorthEnds(front, c);
      assert front + [c] == s;
    }
  }

  lemma {:induction false} WorthEnds(s: string, c: char)
    ensures Worth(s + [c]) == Worth(s) * 10 + (c as int - '0' as int)
  {
    if s == [] {
      assert (s + [c])[1..] == [];
    } else {
      WorthEnds(s[1..], c);
      assert (s + [c])[1..] == s[1..] + [c];
      TenTimes(s[0] as int - '0' as int, TenTo(|s| - 1));
    }
  }

  lemma TenTimes(a: int, b: int)
    ensures a * (10 * b) == (a * b) * 10
  {
  }

  /** An index as it may be written: digits worth `n`, within 64 bits, after an optional
      sign; a minus only before nothing but zeros. */
  ghost predicate Numeral(s: string, n: nat) {
    if s != [] && (s[0] == '+' || s[0] == '-') then DigitsWorth(s[1..], n) && (s[0] == '-' ==> n == 0) else DigitsWorth(s, n)
  }

  ghost predicate DigitsWorth(d: string, n: nat) {
    d != [] && (forall i :: 0 <= i < |d| ==> '0' <= d[i] <= '9') && Worth(d) == n <= 0x7fff_ffff_ffff_ffff
  }

  lemma {:induction false} DecimalIsNatural(s: string)
    requires Digits(s)
    ensures Decimal(s) >= 0
  {
    if s != [] { DecimalIsNatural(s[..|s| - 1]); }
  }

  lemma AtoiIsNumeral(s: string, n: nat)
    ensures Atoi(s) == Some(n) <==> Numeral(s, n)
  {
    hide Decimal, Worth;
    var d := Unsigned(s);
    DecimalIsWorth(d);
    if Digits(d) { DecimalIsNatural(d); }
  }

  method ReadInt(s: string) returns (r: Option<int>)
    ensures r == Atoi(s)
  {
    var digits := Unsigned(s);
    if digits == [] { return None; }
    var n := 0;
    for i := 0 to |digits|
      invariant Digits(digits[..i]) && n == Decimal(digits[..i])
    {
      if !('0' <= digits[i] <= '9') { return None; }
      assert digits[..i + 1][..i] == digits[..i];
      n := n * 10 + Digit(digits[i]);
    }
    assert digits[..|digits|] == digits;
    if s[0] == '-' { n := -n; }
    r := if -MAX_INT - 1 <= n <= MAX_INT then Some(n) else None;
  }

  function Show(n: nat): (s: string)
    ensures s != [] && Digits(s)
  {
    var c := (n % 10 + '0' as int) as char;
    if n < 10 then [c] else Show(n / 10) + [c]
  }

  lemma {:induction false} ShowReads(n: nat)
    ensures Decimal(Show(n)) == n
  {
    var c := (n % 10 + '0' as int) as char;
    assert Digit(c) == n % 10;
    if n < 10 {
      assert [c][..0] == [];
    } else {
      ShowReads(n / 10);
      assert (Show(n / 10) + [c])[..|Show(n / 10)|] == Show(n / 10);
    }
  }

  // ---------- the parser ----------

  predicate Delimits(c: char) {
    c == '.' || c == '['
  }

  /** Length of the field name a string starts with. */
  function NameEnd(s: string): (n: nat)
    ensures n <= |s| && (forall i :: 0 <= i < n ==> !Delimits(s[i])) && (n < |s| ==> Delimits(s[n]))
  {
    if s == [] || Delimits(s[0]) then 0 else NameEnd(s[1..]) + 1
  }

  /** Position of the first `]`, or the length. */
  function Close(s: string): (n: nat)
    ensures n <= |s| && (forall i :: 0 <= i < n ==> s[i] != ']') && (n < |s| ==> s[n] == ']')
  {
    if s == [] || s[0] == ']' then 0 else Close(s[1..]) + 1
  }

  /** The segment a string starts with, and how long it is. */
  function Segment(rest: string): (r: Result<(Token, nat)>)
    requires rest != []
    ensures r.Ok? ==> 0 < r.value.1 <= |rest|
  {
    if rest[0] == '.' then
      var end := NameEnd(rest[1..]);
      if end == 0 then Err(EmptyField) else Ok((Field(rest[1..end + 1]), end + 1))
    else if rest[0] == '[' then
      var close := Close(rest);
      if close == |rest| then Err(Unclosed) else
      var n := Atoi(rest[1..close]);
      if n.None? || n.value < 0 then Err(BadIndex) else Ok((Index(n.value), close + 1))
    else Err(Unexpected(rest[0]))
  }

  function Segments(rest: string): Result<seq<Token>>
    decreases |rest|
  {
    if rest == [] then Ok([]) else
    var head := Segment(rest);
    if head.Err? then Err(head.error) else
    var tail := Segments(rest[head.value.1..]);
    if tail.Err? then tail else Ok([head.value.0] + tail.value)
  }

  function Parse(expr: string): Result<seq<Token>> {
    if expr == [] || expr[0] != '$' then Err(NoDollar) else
    var r := Segments(expr[1..]);
    if r.Ok? && r.value == [] then Err(SelectsNothing) else r
  }

  function Prepend(tokens: seq<Token>, tail: Result<seq<Token>>): Result<seq<Token>> {
    if tail.Err? then tail else Ok(tokens + tail.value)
  }

  lemma PrependNext(tokens: seq<Token>, rest: string)
    requires rest != []
    ensures var head := Segment(rest);
      Prepend(tokens, Segments(rest)) ==
        if head.Err? then Err(head.error) else Prepend(tokens + [head.value.0], Segments(rest[head.value.1..]))
  {
    var head := Segment(rest);
    if head.Ok? && Segments(rest[head.value.1..]).Ok? {
      var tail := Segments(rest[head.value.1..]).value;
      assert tokens + ([head.value.0] + tail) == tokens + [head.value.0] + tail;
    }
  }

  lemma PrependNothing(tail: Result<seq<Token>>)
    ensures Prepend([], tail) == tail
  {
    if tail.Ok? { assert [] + tail.value == tail.value; }
  }

  method ParseJSONPath(expr: string) returns (r: Result<seq<Token>>)
    ensures r == Parse(expr)
  {
    hide Segments, Atoi;
    if expr == [] || expr[0] != '$' { return Err(NoDollar); }
    var rest, tokens := expr[1..], [];
    NothingLeft();
    PrependNothing(Segments(rest));
    while rest != []
      invariant Segments(expr[1..]) == Prepend(tokens, Segments(rest))
      decreases |rest|
    {
      PrependNext(tokens, rest);
      if rest[0] == '.' {
        var end := NameEnd(rest[1..]);
        if end == 0 { return Err(EmptyField); }
        tokens := tokens + [Field(rest[1..end + 1])];
        rest := rest[end + 1..];
      } else if rest[0] == '[' {
        var close := Close(rest);
        if close == |rest| { return Err(Unclosed); }
        var n := ReadInt(rest[1..close]);
        if n.None? || n.value < 0 { return Err(BadIndex); }
        tokens := tokens + [Index(n.value)];
        rest := rest[close + 1..];
      } else {
        return Err(Unexpected(rest[0]));
      }
    }
    assert tokens + [] == tokens;
    if tokens == [] { return Err(SelectsNothing); }
    r := Ok(tokens);
  }

  lemma NothingLeft()
    ensures Segments("") == Ok([])
  {
  }

  // ---------- what it accepts ----------

  /** `seg` is a way to write token `t`: a dot and a name without dots and brackets that
      open, or an index in brackets. */
  ghost predicate Writes(seg: string, t: Token) {
    match t
    case Field(key) => key != [] && (forall i :: 0 <= i < |key| ==> key[i] != '.' && key[i] != '[') && seg == "." + key
    case Index(n) =>
      && |seg| >= 2 && seg[0] == '[' && seg[|seg| - 1] == ']'
      && (forall i :: 1 <= i < |seg| - 1 ==> seg[i] != ']') && Numeral(seg[1..|seg| - 1], n)
  }

  /** `s` is the segments of `tokens` one after the other. */
  ghost predicate Spells(s: string, tokens: seq<Token>)
    decreases |tokens|
  {
    if tokens == [] then s == []
    else exists n :: 0 < n <= |s| && Writes(s[..n], tokens[0]) && Spells(s[n..], tokens[1..])
  }

  lemma WritesIsSegment(s: string, n: nat, t: Token)
    requires 0 < n <= |s| && Writes(s[..n], t) && (n < |s| ==> Delimits(s[n]))
    ensures Segment(s) == Ok((t, n))
  {
    hide Atoi, Numeral;
    match t
    case Field(key) =>
      assert s[1..n] == s[..n][1..] == key && forall i :: 0 <= i < n - 1 ==> s[1..][i] == key[i];
      assert NameEnd(s[1..]) == n - 1;
    case Index(index) =>
      IndexCloses(s, n);
      AtoiIsNumeral(s[1..n - 1], index);
  }

  /** The first `]` of an index segment is its last character. */
  lemma IndexCloses(s: string, n: nat)
    requires 2 <= n <= |s| && s[..n][0] == '[' && s[..n][n - 1] == ']' && forall i :: 1 <= i < n - 1 ==> s[..n][i] != ']'
    ensures Close(s) == n - 1 && s[1..n - 1] == s[..n][1..n - 1]
  {
    forall i | 0 <= i < n - 1 ensures s[i] != ']' {
      assert s[..n][i] == s[i];
    }
  }

  lemma SegmentIsWritten(s: string)
    requires s != [] && Segment(s).Ok?
    ensures Writes(s[..Segment(s).value.1], Segment(s).value.0)
  {
    hide Atoi, Numeral;
    var n := Segment(s).value.1;
    if s[0] == '[' {
      assert s[..n][1..n - 1] == s[1..n - 1];
      AtoiIsNumeral(s[1..n - 1], Segment(s).value.0.index);
    }
  }

  /** A spelling is the first token's segment and a spelling of the rest. */
  lemma SpellsSplit(s: string, tokens: seq<Token>) returns (n: nat)
    requires Spells(s, tokens) && tokens != []
    ensures 0 < n <= |s| && Writes(s[..n], tokens[0]) && Spells(s[n..], tokens[1..])
  {
    n :| 0 < n <= |s| && Writes(s[..n], tokens[0]) && Spells(s[n..], tokens[1..]);
  }

  lemma SpellsJoin(s: string, tokens: seq<Token>, n: nat)
    requires tokens != [] && 0 < n <= |s| && Writes(s[..n], tokens[0]) && Spells(s[n..], tokens[1..])
    ensures Spells(s, tokens)
  {
  }

  lemma SpellsNone(s: string, tokens: seq<Token>)
    ensures (tokens == [] ==> (Spells(s, tokens) <==> s == [])) && (s == [] && Spells(s, tokens) ==> tokens == [])
  {
  }

  lemma SpellsStarts(s: string, tokens: seq<Token>)
    requires Spells(s, tokens) && s != []
    ensures Delimits(s[0])
  {
    hide Spells, Numeral;
    SpellsNone(s, tokens);
    var n := SpellsSplit(s, tokens);
    assert s[..n][0] == s[0];
  }

  lemma {:induction false} SpelledParses(s: string, tokens: seq<Token>)
    requires Spells(s, tokens)
    ensures Segments(s) == Ok(tokens)
    decreases |tokens|
  {
    hide Spells, Writes, Segment, Delimits;
    SpellsNone(s, tokens);
    if tokens != [] {
      var n := SpellsSplit(s, tokens);
      if n < |s| {
        SpellsStarts(s[n..], tokens[1..]);
        assert s[n..][0] == s[n];
      }
      WritesIsSegment(s, n, tokens[0]);
      SpelledParses(s[n..], tokens[1..]);
      assert [tokens[0]] + tokens[1..] == tokens;
    }
  }

  lemma {:induction false} ParsedIsSpelled(s: string)
    requires Segments(s).Ok?
    ensures Spells(s, Segments(s).value)
    decreases |s|
  {
    hide Spells, Writes, Segment;
    SpellsNone(s, Segments(s).value);
    if s != [] {
      var n := Segment(s).value.1;
      SegmentIsWritten(s);
      ParsedIsSpelled(s[n..]);
      SpellsJoin(s, Segments(s).value, n);
    }
  }

  lemma SegmentsIffSpells(s: string, tokens: seq<Token>)
    ensures Segments(s) == Ok(tokens) <==> Spells(s, tokens)
  {
    hide Spells, Segments;
    if Spells(s, tokens) { SpelledParses(s, tokens); }
    if Segments(s).Ok? { ParsedIsSpelled(s); }
  }

  /** Exactly which strings are paths, and what they mean. */
  lemma ParseIffSpells(expr: string, tokens: seq<Token>)
    ensures Parse(expr) == Ok(tokens) <==> expr != [] && expr[0] == '$' && tokens != [] && Spells(expr[1..], tokens)
  {
    if expr != [] { SegmentsIffSpells(expr[1..], tokens); }
  }

  // ---------- what it refuses ----------

  /** What is wrong with the first segment of `rest`. */
  ghost predicate Refuses(rest: string, e: ParseError) {
    rest != [] &&
    if rest[0] == '.' then
      (|rest| == 1 || rest[1] == '.' || rest[1] == '[') && e == EmptyField
    else if rest[0] == '[' then
      if ']' !in rest then e == Unclosed
      else e == BadIndex && exists close :: Brackets(rest, close) && forall n: nat :: !Numeral(rest[1..close], n)
    else
      e == Unexpected(rest[0])
  }

  /** The bracket that `s` opens is closed at `close` for the first time. */
  ghost predicate Brackets(s: string, close: int) {
    1 <= close < |s| && s[close] == ']' && forall i :: 1 <= i < close ==> s[i] != ']'
  }

  lemma SegmentRefuses(s: string, e: ParseError)
    requires s != []
    ensures Segment(s) == Err(e) <==> Refuses(s, e)
  {
    hide Atoi, Numeral;
    if s[0] == '[' && ']' in s {
      var close := Close(s);
      assert Brackets(s, close);
      var n := Atoi(s[1..close]);
      if n.Some? && n.value >= 0 { AtoiIsNumeral(s[1..close], n.value); }
      forall m: nat | n != Some(m as int) ensures !Numeral(s[1..close], m) { AtoiIsNumeral(s[1..close], m); }
      forall c | Brackets(s, c) ensures c == close {}
    }
  }

  /** `s` begins with segments that are all right, up to `n`, and the next one is not. */
  ghost predicate Breaks(s: string, n: nat, tokens: seq<Token>, e: ParseError) {
    && n < |s| && Spells(s[..n], tokens) && Refuses(s[n..], e)
    && (tokens != [] && tokens[|tokens| - 1].Field? ==> s[n] == '.' || s[n] == '[')
  }

  lemma {:induction false} FailsWhereItBreaks(s: string, n: nat, tokens: seq<Token>, e: ParseError)
    requires Breaks(s, n, tokens, e)
    ensures Segments(s) == Err(e)
    decreases |tokens|
  {
    hide Spells, Writes, Segment, Refuses;
    SpellsNone(s[..n], tokens);
    if tokens == [] {
      assert s[n..] == s;
      SegmentRefuses(s, e);
    } else {
      var k := SpellsSplit(s[..n], tokens);
      assert s[..n][..k] == s[..k] && s[..n][k..] == s[k..][..n - k] && s[k..][n - k..] == s[n..];
      SegmentAt(s, n, k, tokens);
      FailsWhereItBreaks(s[k..], n - k, tokens[1..], e);
    }
  }

  /** The first segment is read as far as it was spelled. */
  lemma SegmentAt(s: string, n: nat, k: nat, tokens: seq<Token>)
    requires tokens != [] && 0 < k <= n < |s| && Writes(s[..k], tokens[0]) && Spells(s[k..][..n - k], tokens[1..])
    requires tokens[|tokens| - 1].Field? ==> s[n] == '.' || s[n] == '['
    ensures Segment(s) == Ok((tokens[0], k))
  {
    hide Spells, Writes, Segment;
    SpellsNone(s[k..][..n - k], tokens[1..]);
    if tokens[0].Field? {
      if k < n {
        SpellsStarts(s[k..][..n - k], tokens[1..]);
        assert s[k..][..n - k][0] == s[k];
      } else {
        assert |tokens| == 1;
      }
    }
    if tokens[0].Field? { WritesIsSegment(s, k, tokens[0]); } else { IndexIsSegment(s, k, tokens[0]); }
  }

  lemma IndexIsSegment(s: string, n: nat, t: Token)
    requires 0 < n <= |s| && Writes(s[..n], t) && t.Index?
    ensures Segment(s) == Ok((t, n))
  {
    hide Atoi, Numeral;
    IndexCloses(s, n);
    AtoiIsNumeral(s[1..n - 1], t.index);
  }

  lemma {:induction false} BreaksWhereItFails(s: string, e: ParseError) returns (n: nat, tokens: seq<Token>)
    requires Segments(s) == Err(e)
    ensures Breaks(s, n, tokens, e)
    decreases |s|
  {
    hide Spells, Writes, Segment, Refuses;
    if Segment(s).Err? {
      n, tokens := 0, [];
      SpellsNone("", []);
      assert s[..0] == "" && s[0..] == s;
      SegmentRefuses(s, e);
    } else {
      var (t, k) := Segment(s).value;
      var n1, rest := BreaksWhereItFails(s[k..], e);
      n, tokens := n1 + k, [t] + rest;
      SegmentIsWritten(s);
      assert s[..n][..k] == s[..k] && s[..n][k..] == s[k..][..n1] && s[k..][n1..] == s[n..];
      SpellsJoin(s[..n], tokens, k);
      SpellsNone(s[k..][..n1], rest);
      if rest == [] && t.Field? { FieldStops(s); }
    }
  }

  lemma FieldStops(s: string)
    requires s != [] && Segment(s).Ok? && Segment(s).value.0.Field? && Segment(s).value.1 < |s|
    ensures s[Segment(s).value.1] == '.' || s[Segment(s).value.1] == '['
  {
  }

  /** Exactly which strings are refused, and what with: the first segment that is not
      all right decides. */
  lemma RefusesIff(expr: string, e: ParseError)
    ensures Parse(expr) == Err(e) <==>
      if expr == [] || expr[0] != '$' then e == NoDollar
      else if |expr| == 1 then e == SelectsNothing
      else exists n, tokens :: Breaks(expr[1..], n, tokens, e)
  {
    hide Segments, Breaks;
    NothingLeft();
    if |expr| == 1 { assert expr[1..] == ""; }
    if |expr| > 1 && expr[0] == '$' {
      NonePerhaps(expr[1..]);
      if Segments(expr[1..]) == Err(e) { var n, tokens := BreaksWhereItFails(expr[1..], e); }
      if n, tokens :| Breaks(expr[1..], n, tokens, e) { FailsWhereItBreaks(expr[1..], n, tokens, e); }
    }
  }

  lemma NonePerhaps(s: string)
    requires s != []
    ensures Segments(s) != Ok([])
  {
  }

  // ---------- printing ----------

  function Print1(t: Token): string {
    match t
    case Field(key) => "." + key
    case Index(n) => "[" + Show(n) + "]"
  }

  function PrintAll(tokens: seq<Token>): string {
    if tokens == [] then "" else Print1(tokens[0]) + PrintAll(tokens[1..])
  }

  function Print(tokens: seq<Token>): string {
    "$" + PrintAll(tokens)
  }

  /** Tokens that a path can name. */
  predicate Nameable(t: Token) {
    match t
    case Field(key) => key != [] && forall i :: 0 <= i < |key| ==> key[i] != '.' && key[i] != '['
    case Index(n) => n <= 0x7fff_ffff_ffff_ffff
  }

  lemma PrintWrites(t: Token)
    requires Nameable(t)
    ensures Writes(Print1(t), t)
  {
    if t.Index? {
      var s := Show(t.index);
      ShowReads(t.index);
      assert Print1(t)[1..|Print1(t)| - 1] == s;
      assert forall i :: 0 <= i < |s| ==> '0' <= s[i] <= '9';
      assert s[0] != '-' && s[0] != '+';
      DecimalIsWorth(s);
    }
  }

  lemma {:induction false} PrintSpells(tokens: seq<Token>)
    requires forall i :: 0 <= i < |tokens| ==> Nameable(tokens[i])
    ensures Spells(PrintAll(tokens), tokens)
  {
    hide Spells, Writes, Nameable;
    SpellsNone("", []);
    if tokens != [] {
      var s, n := PrintAll(tokens), |Print1(tokens[0])|;
      PrintWrites(tokens[0]);
      PrintSpells(tokens[1..]);
      assert s[..n] == Print1(tokens[0]) && s[n..] == PrintAll(tokens[1..]);
      SpellsJoin(s, tokens, n);
    }
  }

  /** Parsing what is printed gives the tokens back. */
  lemma RoundTrip(tokens: seq<Token>)
    requires tokens != [] && forall i :: 0 <= i < |tokens| ==> Nameable(tokens[i])
    ensures Parse(Print(tokens)) == Ok(tokens)
  {
    PrintSpells(tokens);
    assert Print(tokens)[1..] == PrintAll(tokens);
    ParseIffSpells(Print(tokens), tokens);
  }

  lemma WrittenIsNameable(seg: string, t: Token)
    requires Writes(seg, t)
    ensures Nameable(t)
  {
  }

  lemma {:induction false} SpelledIsNameable(s: string, tokens: seq<Token>, i: nat)
    requires Spells(s, tokens) && i < |tokens|
    ensures Nameable(tokens[i])
  {
    hide Spells, Writes;
    var n := SpellsSplit(s, tokens);
    if i == 0 { WrittenIsNameable(s[..n], tokens[0]); } else { SpelledIsNameable(s[n..], tokens[1..], i - 1); }
  }

  /** Every accepted string parses to tokens that print to one of its spellings, so
      parsing, printing and parsing again changes nothing. */
  lemma ParsePrintParse(expr: string)
    requires Parse(expr).Ok?
    ensures var tokens := Parse(expr).value;
      && tokens != [] && (forall i :: 0 <= i < |tokens| ==> Nameable(tokens[i]))
      && Parse(Print(tokens)) == Parse(expr)
  {
    var tokens := Parse(expr).value;
    ParseIffSpells(expr, tokens);
    forall i | 0 <= i < |tokens| ensures Nameable(tokens[i]) {
      SpelledIsNameable(expr[1..], tokens, i);
    }
    RoundTrip(tokens);
  }

  // ---------- evaluation ----------

  datatype Json = Object(fields: map<string, Json>) | Array(items: seq<Json>) | Scalar(text: string)

  function Select(v: Json, t: Token): Option<Json> {
    match t
    case Field(key) => if v.Object? && key in v.fields then Some(v.fields[key]) else None
    case Index(n) => if v.Array? && n < |v.items| then Some(v.items[n]) else None
  }

  function Eval(v: Json, tokens: seq<Token>): Option<Json>
    decreases |tokens|
  {
    if tokens == [] then Some(v) else
    var next := Select(v, tokens[0]);
    if next.None? then None else Eval(next.value, tokens[1..])
  }

  /** One token leads from a value to a part of it: an object's field, or the element
      of an array that the index counts to from 0. */
  predicate LeadsTo(v: Json, t: Token, u: Json) {
    match t
    case Field(key) => v.Object? && key in v.fields && u == v.fields[key]
    case Index(n) => v.Array? && n < |v.items| && u == v.items[n]
  }

  /** The tokens lead from value to value, beginning at `v`. */
  ghost predicate Walks(v: Json, tokens: seq<Token>, vs: seq<Json>) {
    && |vs| == |tokens| + 1 && vs[0] == v
    && forall i :: 0 <= i < |tokens| ==> LeadsTo(vs[i], tokens[i], vs[i + 1])
  }

  /** A path selects exactly what its tokens lead to. */
  ghost predicate Selects(v: Json, tokens: seq<Token>, r: Option<Json>) {
    && (r.Some? ==> exists vs :: Walks(v, tokens, vs) && vs[|tokens|] == r.value)
    && forall vs :: Walks(v, tokens, vs) ==> r == Some(vs[|tokens|])
  }

  lemma {:induction false} EvalSelects(v: Json, tokens: seq<Token>)
    ensures Selects(v, tokens, Eval(v, tokens))
    decreases |tokens|
  {
    if tokens == [] {
      assert Walks(v, tokens, [v]);
    } else {
      var next, rest := Select(v, tokens[0]), tokens[1..];
      if next.Some? {
        EvalSelects(next.value, rest);
        if Eval(v, tokens).Some? {
          var us :| Walks(next.value, rest, us) && us[|rest|] == Eval(v, tokens).value;
          WalksMore(v, tokens, us);
        }
      }
      forall vs | Walks(v, tokens, vs) ensures Eval(v, tokens) == Some(vs[|tokens|]) {
        assert LeadsTo(vs[0], tokens[0], vs[1]);
        WalksRest(v, tokens, vs);
      }
    }
  }

  lemma WalksMore(v: Json, tokens: seq<Token>, us: seq<Json>)
    requires tokens != [] && us != [] && LeadsTo(v, tokens[0], us[0]) && Walks(us[0], tokens[1..], us)
    ensures Walks(v, tokens, [v] + us) && ([v] + us)[|tokens|] == us[|tokens| - 1]
  {
    var vs := [v] + us;
    forall i | 0 <= i < |tokens| ensures LeadsTo(vs[i], tokens[i], vs[i + 1]) {
      if i > 0 { assert LeadsTo(us[i - 1], tokens[1..][i - 1], us[i]); }
    }
  }

  lemma WalksRest(v: Json, tokens: seq<Token>, vs: seq<Json>)
    requires tokens != [] && Walks(v, tokens, vs)
    ensures Walks(vs[1], tokens[1..], vs[1..])
  {
    forall i | 0 <= i < |tokens| - 1 ensures LeadsTo(vs[1..][i], tokens[1..][i], vs[1..][i + 1]) {
      assert LeadsTo(vs[i + 1], tokens[i + 1], vs[i + 2]);
    }
  }

  method EvalJSONPath(v: Json, tokens: seq<Token>) returns (r: Option<Json>)
    ensures r == Eval(v, tokens) && Selects(v, tokens, r)
  {
    EvalSelects(v, tokens);
    var cur := v;
    for i := 0 to |tokens|
      invariant Eval(cur, tokens[i..]) == Eval(v, tokens)
    {
      var t := tokens[i];
      assert tokens[i..][0] == t && tokens[i..][1..] == tokens[i + 1..];
      if t.Field? {
        if !cur.Object? || t.key !in cur.fields { return None; }
        cur := cur.fields[t.key];
      } else {
        if !cur.Array? || t.index >= |cur.items| { return None; }
        cur := cur.items[t.index];
      }
    }
    r := Some(cur);
  }

  lemma {:induction false} EvalJoins(v: Json, a: seq<Token>, b: seq<Token>)
    ensures Eval(v, a + b) == if Eval(v, a).None? then None else Eval(Eval(v, a).value, b)
    decreases |a|
  {
    if a == [] {
      assert a + b == b;
    } else {
      assert (a + b)[0] == a[0] && (a + b)[1..] == a[1..] + b;
      if Select(v, a[0]).Some? { EvalJoins(Select(v, a[0]).value, a[1..], b); }
    }
  }

  lemma {:induction false} SpellsJoins(s: string, a: seq<Token>, t: string, b: seq<Token>)
    requires Spells(s, a) && Spells(t, b)
    ensures Spells(s + t, a + b)
    decreases |a|
  {
    hide Spells, Writes;
    SpellsNone(s, a);
    if a == [] {
      assert s + t == t && a + b == b;
    } else {
      var n := SpellsSplit(s, a);
      SpellsJoins(s[n..], a[1..], t, b);
      assert (s + t)[..n] == s[..n] && (s + t)[n..] == s[n..] + t;
      assert (a + b)[0] == a[0] && (a + b)[1..] == a[1..] + b;
      SpellsJoin(s + t, a + b, n);
    }
  }

  /** Continuing one path with the segments of another selects, from what the
      first selects, what the second selects. */
  lemma PathsCompose(p: string, q: string, v: Json)
    requires Parse(p).Ok? && Parse(q).Ok?
    ensures var a, b := Parse(p).value, Parse(q).value;
      && Parse(p + q[1..]) == Ok(a + b)
      && Eval(v, Parse(p + q[1..]).value) == if Eval(v, a).None? then None else Eval(Eval(v, a).value, b)
  {
    hide Spells, Eval, Segments;
    var a, b := Parse(p).value, Parse(q).value;
    ParseIffSpells(p, a);
    ParseIffSpells(q, b);
    SpellsJoins(p[1..], a, q[1..], b);
    assert (p + q[1..])[1..] == p[1..] + q[1..];
    ParseIffSpells(p + q[1..], a + b);
    EvalJoins(v, a, b);
  }
}
