/** A cron field as it is written: parts between commas, each a star, a stepped start, a range or one number. */
module CronText {
  import opened Wrappers
  import opened Decimals
  import opened Cron

  /** `text.split(separator)`. */
  function Pieces(text: string, separator: char): (pieces: seq<string>)
    ensures pieces != []
    ensures separator in text ==> |pieces| > 1
  {
    if text == [] then [[]]
    else
      var rest := Pieces(text[1..], separator);
      if text[0] == separator then [[]] + rest else [[text[0]] + rest[0]] + rest[1..]
  }

  function Whole(n: Option<nat>): Option<int> {
    if n.Some? then Some(n.value) else None
  }

  /** What one written part says. */
  function PartOf(text: string): Part {
    if text == "*" then Every
    else if '/' in text then
      var pieces := Pieces(text, '/');
      Stepped(if pieces[0] == "*" then None else Some(ParseInt(pieces[0])), ParseInt(pieces[1]))
    else if '-' in text then
      var pieces := Pieces(text, '-');
      Range(Whole(NumberOf(pieces[0])), Whole(NumberOf(pieces[1])))
    else One(ParseInt(text))
  }

  function PartsIn(pieces: seq<string>): (parts: seq<Part>)
    ensures |parts| == |pieces| && forall i :: 0 <= i < |pieces| ==> parts[i] == PartOf(pieces[i])
  {
    if pieces == [] then [] else [PartOf(pieces[0])] + PartsIn(pieces[1..])
  }

  function PartsOf(field: string): seq<Part> {
    PartsIn(Pieces(field, ','))
  }

  /** Some part of the field stands for `v`. */
  ghost predicate Says(field: string, min: int, max: int, v: int) {
    exists p :: p in PartsOf(field) && Denotes(p, min, max, v)
  }

  /** The loop of every part of the field ends. */
  predicate FieldEnds(field: string, min: int, max: int) {
    forall p :: p in PartsOf(field) ==> Ends(p, min, max)
  }

  /** `parseCronField`, wherever its loops end. */
  method ParseCronField(field: string, min: int, max: int) returns (values: set<int>)
    requires FieldEnds(field, min, max)
    ensures forall v :: v in values <==> Says(field, min, max, v)
  {
    var parts := PartsOf(field);
    forall i | 0 <= i < |parts| ensures Ends(parts[i], min, max) {
      assert parts[i] in parts;
    }
    values := ParseField(parts, min, max);
  }

  // ---------------------------------------------------------------------------------------------
  // The expression of five fields

  predicate IsSpace(c: char) {
    c == ' ' || 9 <= c as int <= 13
  }

  /** `text.trim().split(/\s+/)`, but that a text of nothing but white space has no words. */
  function Words(text: string): (words: seq<string>)
    ensures text != [] && !IsSpace(text[0]) ==> words != []
  {
    if text == [] then []
    else
      var rest := Words(text[1..]);
      if IsSpace(text[0]) then rest
      else if |text| == 1 || IsSpace(text[1]) then [[text[0]]] + rest
      else [[text[0]] + rest[0]] + rest[1..]
  }

  predicate AllEnd(words: seq<string>)
    requires |words| == 5
  {
    && FieldEnds(words[0], 0, 59) && FieldEnds(words[1], 0, 23) && FieldEnds(words[2], 1, 31)
    && FieldEnds(words[3], 1, 12) && FieldEnds(words[4], 0, 6)
  }

  /** Each field says its number of the date. */
  ghost predicate SaysDate(words: seq<string>, d: Date)
    requires |words| == 5
  {
    && Says(words[0], 0, 59, d.minute) && Says(words[1], 0, 23, d.hour) && Says(words[2], 1, 31, d.day)
    && Says(words[3], 1, 12, d.month + 1) && Says(words[4], 0, 6, d.weekday)
  }

  method ParseWords(words: seq<string>) returns (fields: Fields)
    requires |words| == 5 && AllEnd(words)
    ensures forall d: Date :: Matches(fields, d) <==> SaysDate(words, d)
  {
    var minute := ParseCronField(words[0], 0, 59);
    var hour := ParseCronField(words[1], 0, 23);
    var day := ParseCronField(words[2], 1, 31);
    var month := ParseCronField(words[3], 1, 12);
    var weekday := ParseCronField(words[4], 0, 6);
    fields := Fields(minute, hour, day, month, weekday);
  }

  /** `parseCron`: an expression that has not five fields is refused; a date matches when each of its numbers is said. */
  method ParseCron(expression: string) returns (fields: Option<Fields>)
    requires |Words(expression)| == 5 ==> AllEnd(Words(expression))
    ensures fields.Some? <==> |Words(expression)| == 5
    ensures fields.Some? ==> forall d: Date :: Matches(fields.value, d) <==> SaysDate(Words(expression), d)
  {
    var words := Words(expression);
    if |words| != 5 { return None; }
    var parsed := ParseWords(words);
    fields := Some(parsed);
  }

  // ---------------------------------------------------------------------------------------------
  // What is written is what is read

  lemma {:induction false} NoPieces(text: string, separator: char)
    requires separator !in text
    ensures Pieces(text, separator) == [text]
    decreases |text|
  {
    if text != [] {
      assert text == [text[0]] + text[1..];
      NoPieces(text[1..], separator);
    }
  }

  lemma {:induction false} FirstPiece(first: string, separator: char, rest: string)
    requires separator !in first
    ensures Pieces(first + [separator] + rest, separator) == [first] + Pieces(rest, separator)
    decreases |first|
  {
    var text := first + [separator] + rest;
    if first == [] {
      assert text[1..] == rest;
    } else {
      assert first == [first[0]] + first[1..];
      assert text[1..] == first[1..] + [separator] + rest;
      FirstPiece(first[1..], separator, rest);
    }
  }

  /** The parts a field of whole numbers can be written from. */
  predicate Plain(p: Part) {
    match p
    case Every => true
    case Stepped(start, step) => (start.Some? ==> start.value.Some? && start.value.value >= 0) && step.Some? && step.value >= 0
    case Range(lo, hi) => lo.Some? && lo.value >= 0 && hi.Some? && hi.value >= 0
    case One(value) => value.Some? && value.value >= 0
  }

  function Spelled(p: Part): string
    requires Plain(p)
  {
    match p
    case Every => "*"
    case Stepped(start, step) => (if start.None? then "*" else Decimal(start.value.value)) + ['/'] + Decimal(step.value)
    case Range(lo, hi) => Decimal(lo.value) + ['-'] + Decimal(hi.value)
    case One(value) => Decimal(value.value)
  }

  lemma OnlyDigits(n: nat)
    ensures '/' !in Decimal(n) && '-' !in Decimal(n) && ',' !in Decimal(n) && Decimal(n) != "*"
  {
    DecimalReads(n);
    assert forall c :: c in Decimal(n) ==> IsDigit(c);
    assert '*' !in Decimal(n);
  }

  /** A part that is written out reads back as itself. */
  lemma SpelledPartsRead(p: Part)
    requires Plain(p)
    ensures PartOf(Spelled(p)) == p && ',' !in Spelled(p)
  {
    match p {
      case Every =>
      case Stepped(start, step) => SteppedReads(start, step.value);
      case Range(lo, hi) => RangeReads(lo.value, hi.value);
      case One(value) =>
        OnlyDigits(value.value);
        DecimalParses(value.value);
    }
  }

  lemma TwoPieces(first: string, separator: char, second: string)
    requires separator !in first && separator !in second
    ensures Pieces(first + [separator] + second, separator) == [first, second]
  {
    FirstPiece(first, separator, second);
    NoPieces(second, separator);
  }

  lemma SteppedIs(first: string, second: string)
    requires '/' !in first && '/' !in second && ',' !in first && ',' !in second
    ensures var text := first + ['/'] + second;
            PartOf(text) == Stepped(if first == "*" then None else Some(ParseInt(first)), ParseInt(second)) && ',' !in text
  {
    var text := first + ['/'] + second;
    assert text[|first|] == '/';
    assert text != "*";
    TwoPieces(first, '/', second);
  }

  lemma RangeIs(first: string, second: string)
    requires '-' !in first && '-' !in second && '/' !in first && '/' !in second && ',' !in first && ',' !in second
    ensures var text := first + ['-'] + second;
            PartOf(text) == Range(Whole(NumberOf(first)), Whole(NumberOf(second))) && ',' !in text
  {
    var text := first + ['-'] + second;
    assert text[|first|] == '-';
    assert text != "*";
    TwoPieces(first, '-', second);
  }

  lemma SteppedReads(start: Option<Option<int>>, step: nat)
    requires start.Some? ==> start.value.Some? && start.value.value >= 0
    ensures var p := Stepped(start, Some(step)); PartOf(Spelled(p)) == p && ',' !in Spelled(p)
  {
    if start.Some? {
      OnlyDigits(start.value.value);
      DecimalParses(start.value.value);
    }
    OnlyDigits(step);
    DecimalParses(step);
    SteppedIs(if start.None? then "*" else Decimal(start.value.value), Decimal(step));
  }

  lemma RangeReads(lo: nat, hi: nat)
    ensures var p := Range(Some(lo), Some(hi)); PartOf(Spelled(p)) == p && ',' !in Spelled(p)
  {
    OnlyDigits(lo);
    OnlyDigits(hi);
    DecimalReads(lo);
    DecimalReads(hi);
    RangeIs(Decimal(lo), Decimal(hi));
  }

  lemma PartsAfterComma(first: string, rest: string)
    requires ',' !in first
    ensures PartsOf(first + [','] + rest) == [PartOf(first)] + PartsOf(rest)
  {
    FirstPiece(first, ',', rest);
    assert ([first] + Pieces(rest, ','))[1..] == Pieces(rest, ',');
  }

  lemma OnlyPart(p: Part)
    requires Plain(p)
    ensures PartsOf(Spelled(p)) == [p]
  {
    SpelledPartsRead(p);
    NoPieces(Spelled(p), ',');
  }

  function FieldOf(parts: seq<Part>): string
    requires parts != [] && forall i :: 0 <= i < |parts| ==> Plain(parts[i])
  {
    if |parts| == 1 then Spelled(parts[0]) else Spelled(parts[0]) + [','] + FieldOf(parts[1..])
  }

  /** So a field written from any parts of whole numbers is read as those parts. */
  lemma {:induction false} SpelledFieldsRead(parts: seq<Part>)
    requires parts != [] && forall i :: 0 <= i < |parts| ==> Plain(parts[i])
    ensures PartsOf(FieldOf(parts)) == parts
    decreases |parts|
  {
    if |parts| == 1 {
      OnlyPart(parts[0]);
    } else {
      SpelledFieldsRead(parts[1..]);
      SpelledPartsRead(parts[0]);
      PartsAfterComma(Spelled(parts[0]), FieldOf(parts[1..]));
    }
  }

  predicate OneWord(text: string) {
    text != [] && forall i :: 0 <= i < |text| ==> !IsSpace(text[i])
  }

  const WHITE_SPACE := " \t\n\U{000B}\U{000C}\r"

  /** Nothing but white space. */
  predicate Gap(text: string) {
    forall i :: 0 <= i < |text| ==> text[i] in WHITE_SPACE
  }

  lemma {:induction false} GapsAreSkipped(gap: string, rest: string)
    requires Gap(gap)
    ensures Words(gap + rest) == Words(rest)
    decreases |gap|
  {
    if gap == [] {
      assert gap + rest == rest;
    } else {
      assert (gap + rest)[1..] == gap[1..] + rest;
      GapsAreSkipped(gap[1..], rest);
    }
  }

  /** A word ends where white space or the text does. */
  lemma {:induction false} FirstWord(first: string, rest: string)
    requires OneWord(first) && (rest == [] || rest[0] in WHITE_SPACE)
    ensures Words(first + rest) == [first] + Words(rest)
    decreases |first|
  {
    var text := first + rest;
    assert first == [first[0]] + first[1..] && text[1..] == first[1..] + rest;
    assert !IsSpace(text[0]);
    if |first| == 1 {
      assert text[1..] == rest && first == [text[0]];
      assert rest != [] ==> text[1] == rest[0];
    } else {
      assert OneWord(first[1..]) && !IsSpace(text[1]);
      FirstWord(first[1..], rest);
    }
  }

  lemma NoSpaces(p: Part)
    requires Plain(p)
    ensures OneWord(Spelled(p))
  {
    match p {
      case Every =>
      case Stepped(start, step) =>
        if start.Some? { DecimalReads(start.value.value); }
        DecimalReads(step.value);
      case Range(lo, hi) =>
        DecimalReads(lo.value);
        DecimalReads(hi.value);
      case One(value) => DecimalReads(value.value);
    }
  }

  lemma {:induction false} FieldsAreWords(parts: seq<Part>)
    requires parts != [] && forall i :: 0 <= i < |parts| ==> Plain(parts[i])
    ensures OneWord(FieldOf(parts))
    decreases |parts|
  {
    NoSpaces(parts[0]);
    if |parts| > 1 { FieldsAreWords(parts[1..]); }
  }

  predicate PlainFields(fields: seq<seq<Part>>) {
    forall k :: 0 <= k < |fields| ==> fields[k] != [] && forall i :: 0 <= i < |fields[k]| ==> Plain(fields[k][i])
  }

  /** Every field is followed by a gap, empty at most after the last. */
  predicate Gaps(gaps: seq<string>) {
    forall k :: 0 <= k < |gaps| ==> Gap(gaps[k]) && (k < |gaps| - 1 ==> gaps[k] != [])
  }

  function Expression(fields: seq<seq<Part>>, gaps: seq<string>): string
    requires PlainFields(fields) && |gaps| == |fields|
  {
    if fields == [] then [] else FieldOf(fields[0]) + (gaps[0] + Expression(fields[1..], gaps[1..]))
  }

  /** However it is spaced, an expression written from fields of such parts has those fields, and each reads as written. */
  lemma {:induction false} SpelledExpressionsRead(lead: string, fields: seq<seq<Part>>, gaps: seq<string>)
    requires Gap(lead) && PlainFields(fields) && |gaps| == |fields| && Gaps(gaps)
    ensures var words := Words(lead + Expression(fields, gaps));
            |words| == |fields| && forall k :: 0 <= k < |fields| ==> PartsOf(words[k]) == fields[k]
    decreases |fields|
  {
    GapsAreSkipped(lead, Expression(fields, gaps));
    if fields != [] {
      var rest := gaps[0] + Expression(fields[1..], gaps[1..]);
      FieldsAreWords(fields[0]);
      SpelledFieldsRead(fields[0]);
      if |fields| == 1 { assert rest == gaps[0]; }
      FirstWord(FieldOf(fields[0]), rest);
      SpelledExpressionsRead(gaps[0], fields[1..], gaps[1..]);
    }
  }
}
