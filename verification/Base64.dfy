/**
 The strict base64 decoder of the os host against RFC 4648: the alphabet and groups of section 4, the
 padding of section 3.2 and the canonical encoding of section 3.5.
 */
module Base64 {
  import opened Wrappers

  type Byte = b: int | 0 <= b < 256

  type Sextet = v: int | 0 <= v < 64

  const UPPER := "ABCDEFGHIJKLMNOPQRSTUVWXYZ"
  const LOWER := "abcdefghijklmnopqrstuvwxyz"
  const DIGITS := "0123456789"
  const ALPHABET := UPPER + LOWER + DIGITS + "+/"

  function Symbol(v: Sextet): char {
    if v < 26 then 'A' + v as char
    else if v < 52 then 'a' + (v - 26) as char
    else if v < 62 then '0' + (v - 52) as char
    else if v == 62 then '+'
    else '/'
  }

  lemma Letters(v: nat)
    requires v < 26
    ensures UPPER[v] == 'A' + v as char && LOWER[v] == 'a' + v as char
  {
  }

  /** The symbols are those of the alphabet, in its order. */
  lemma SymbolsAreTheAlphabet(v: Sextet)
    ensures |ALPHABET| == 64 && ALPHABET[v] == Symbol(v)
  {
    if v < 26 {
      Letters(v);
      assert ALPHABET[v] == UPPER[v];
    } else if v < 52 {
      Letters(v - 26);
      assert ALPHABET[v] == LOWER[v - 26];
    } else if v < 62 {
      assert ALPHABET[v] == DIGITS[v - 52];
    } else {
      assert ALPHABET[v] == "+/"[v - 62];
    }
  }

  /** `BASE64_ALPHABET.indexOf(c)`. */
  function IndexOf(c: char): (i: int)
    ensures -1 <= i < 64
    ensures i >= 0 ==> Symbol(i) == c
    ensures forall v: Sextet :: Symbol(v) == c ==> i == v
  {
    if 'A' <= c <= 'Z' then (c - 'A') as int
    else if 'a' <= c <= 'z' then (c - 'a') as int + 26
    else if '0' <= c <= '9' then (c - '0') as int + 52
    else if c == '+' then 62
    else if c == '/' then 63
    else -1
  }

  predicate IsSymbol(c: char) {
    IndexOf(c) >= 0
  }

  // ---------------------------------------------------------------------------------------------
  // The encoding

  function EncodeGroup(a: Byte, b: Byte, c: Byte): string {
    [Symbol(a / 4), Symbol(a % 4 * 16 + b / 16), Symbol(b % 16 * 4 + c / 64), Symbol(c % 64)]
  }

  /** Standard padded base64, what `bytesValue` writes. */
  function Encode(bytes: seq<Byte>): string {
    if bytes == [] then ""
    else if |bytes| == 1 then [Symbol(bytes[0] / 4), Symbol(bytes[0] % 4 * 16), '=', '=']
    else if |bytes| == 2 then [Symbol(bytes[0] / 4), Symbol(bytes[0] % 4 * 16 + bytes[1] / 16), Symbol(bytes[1] % 16 * 4), '=']
    else EncodeGroup(bytes[0], bytes[1], bytes[2]) + Encode(bytes[3..])
  }

  // ---------------------------------------------------------------------------------------------
  // The decoder

  datatype Failure =
    | InvalidByte(code: char, offset: nat)
    | InvalidLength(symbols: nat)
    | InvalidPadding
    | InvalidLastSymbol(code: char, offset: nat)

  /** How many characters are taken for symbols: all but one or two trailing `=`. */
  function Symbols(text: string): (n: nat)
    ensures n <= |text|
  {
    var n := |text|;
    if n >= 2 && text[n - 2] == '=' && text[n - 1] == '=' then n - 2
    else if n >= 1 && text[n - 1] == '=' then n - 1
    else n
  }

  /** The first of the `n` characters that is no symbol, `n` when there is none. */
  function FirstInvalid(text: string, from: nat, n: nat): (i: nat)
    requires from <= n <= |text|
    ensures from <= i <= n && (i < n ==> !IsSymbol(text[i]))
    ensures forall j :: from <= j < i ==> IsSymbol(text[j])
    decreases n - from
  {
    if from == n || !IsSymbol(text[from]) then from else FirstInvalid(text, from + 1, n)
  }

  function Check(text: string): Option<Failure> {
    var symbols := Symbols(text);
    var bad := FirstInvalid(text, 0, symbols);
    var padding := |text| - symbols;
    var remainder := symbols % 4;
    if bad < symbols then Some(InvalidByte(text[bad], bad))
    else if remainder == 1 then Some(InvalidLength(symbols))
    else if |text| % 4 != 0 || (remainder == 0 && padding != 0) || (remainder == 2 && padding != 2) || (remainder == 3 && padding != 1)
    then Some(InvalidPadding)
    else if remainder >= 2 && IndexOf(text[symbols - 1]) % (if remainder == 2 then 16 else 4) != 0
    then Some(InvalidLastSymbol(text[symbols - 1], symbols - 1))
    else None
  }

  /** The bytes of well-formed text, four characters at a time. */
  function Bytes(text: string): seq<Byte>
    requires Canonical(text)
  {
    if text == "" then []
    else
      var a, b := IndexOf(text[0]), IndexOf(text[1]);
      if text[2] == '=' then [a * 4 + b / 16]
      else if text[3] == '=' then [a * 4 + b / 16, b % 16 * 16 + IndexOf(text[2]) / 4]
      else
        var c, d := IndexOf(text[2]), IndexOf(text[3]);
        [a * 4 + b / 16, b % 16 * 16 + c / 4, c % 4 * 64 + d] + Bytes(text[4..])
  }

  /** The scan over the whole text: the first of the symbols that is not in the alphabet. */
  method Scan(text: string, symbols: nat) returns (bad: Option<nat>)
    requires symbols <= |text|
    ensures bad == if FirstInvalid(text, 0, symbols) < symbols then Some(FirstInvalid(text, 0, symbols)) else None
  {
    for i := 0 to |text|
      invariant FirstInvalid(text, 0, symbols) == FirstInvalid(text, if i < symbols then i else symbols, symbols)
    {
      if i >= symbols { continue; }
      if IndexOf(text[i]) == -1 { return Some(i); }
    }
    bad := None;
  }

  /** What the decoder finds wrong with the text, if anything. */
  method FindFailure(text: string) returns (failure: Option<Failure>)
    ensures failure == Check(text)
  {
    var n := |text|;
    var symbols := if n >= 2 && text[n - 2] == '=' && text[n - 1] == '=' then n - 2
                   else if n >= 1 && text[n - 1] == '=' then n - 1
                   else n;
    var bad := Scan(text, symbols);
    if bad.Some? { return Some(InvalidByte(text[bad.value], bad.value)); }
    var padding := n - symbols;
    var remainder := symbols % 4;
    if remainder == 1 { return Some(InvalidLength(symbols)); }
    if n % 4 != 0 || (remainder == 0 && padding != 0) || (remainder == 2 && padding != 2) || (remainder == 3 && padding != 1) {
      return Some(InvalidPadding);
    }
    if remainder == 2 || remainder == 3 {
      var last := IndexOf(text[symbols - 1]);
      var spare := if remainder == 2 then 16 else 4;
      if last % spare != 0 { return Some(InvalidLastSymbol(text[symbols - 1], symbols - 1)); }
    }
    failure := None;
  }

  /** `decodeStandardBase64`. */
  method DecodeStandardBase64(text: string) returns (r: Result<seq<Byte>, Failure>)
    ensures r == Decode(text)
  {
    CheckAcceptsCanonical(text);
    var failure := FindFailure(text);
    if failure.Some? { return Err(failure.value); }
    r := Ok(Bytes(text));
  }

  // ---------------------------------------------------------------------------------------------
  // The canonical strings of RFC 4648

  /** The last group: four symbols, three and `=`, or two and `==`, with no stray bits before the padding. */
  predicate LastGroup(g: string)
    requires |g| == 4
  {
    && IsSymbol(g[0]) && IsSymbol(g[1])
    && ((IsSymbol(g[2]) && IsSymbol(g[3]))
        || (IsSymbol(g[2]) && g[3] == '=' && IndexOf(g[2]) % 4 == 0)
        || (g[2] == '=' && g[3] == '=' && IndexOf(g[1]) % 16 == 0))
  }

  predicate FourSymbols(g: string)
    requires |g| >= 4
  {
    IsSymbol(g[0]) && IsSymbol(g[1]) && IsSymbol(g[2]) && IsSymbol(g[3])
  }

  predicate Canonical(text: string) {
    text == "" || (|text| == 4 && LastGroup(text)) || (|text| > 4 && FourSymbols(text) && Canonical(text[4..]))
  }

  lemma PaddingIsNoSymbol()
    ensures !IsSymbol('=')
  {
  }

  lemma FirstInvalidShift(text: string, n: nat)
    requires 4 <= n <= |text| && FourSymbols(text)
    ensures FirstInvalid(text, 0, n) == 4 + FirstInvalid(text[4..], 0, n - 4)
  {
    var k := FirstInvalid(text[4..], 0, n - 4);
    forall j | 0 <= j < 4 + k ensures IsSymbol(text[j]) {
      if j >= 4 { assert text[j] == text[4..][j - 4]; }
    }
    assert k < n - 4 ==> text[4 + k] == text[4..][k];
  }

  /** A longer text is accepted exactly when its first group is all symbols and the rest is accepted. */
  lemma CheckByGroups(text: string)
    requires |text| > 4
    ensures Check(text).None? <==> FourSymbols(text) && Check(text[4..]).None?
  {
    if |text| % 4 != 0 {
      OddLengthsFail(text);
      OddLengthsFail(text[4..]);
    } else if FourSymbols(text) {
      CheckShift(text);
    } else {
      BadFirstGroupsFail(text);
    }
  }

  lemma OddLengthsFail(text: string)
    requires |text| % 4 != 0
    ensures Check(text).Some?
  {
    CheckIs(text);
  }

  lemma BadFirstGroupsFail(text: string)
    requires |text| > 4 && |text| % 4 == 0 && !FourSymbols(text)
    ensures Check(text).Some?
  {
    CheckIs(text);
    assert Symbols(text) > 4;
  }

  lemma SymbolsShift(text: string)
    requires |text| > 4 && |text| % 4 == 0
    ensures Symbols(text) == 4 + Symbols(text[4..])
    ensures Symbols(text[4..]) > 0 ==> text[4..][Symbols(text[4..]) - 1] == text[Symbols(text) - 1]
  {
    var rest := text[4..];
    assert |rest| >= 4 && rest[|rest| - 1] == text[|text| - 1] && rest[|rest| - 2] == text[|text| - 2];
  }

  /** What acceptance depends on, once every symbol is one of the alphabet. */
  predicate GoodEnd(length: nat, symbols: nat, last: int) {
    var remainder := symbols % 4;
    && length % 4 == 0 && remainder != 1
    && (remainder == 0 ==> length == symbols)
    && (remainder == 2 ==> length == symbols + 2 && last % 16 == 0)
    && (remainder == 3 ==> length == symbols + 1 && last % 4 == 0)
  }

  function LastIndex(text: string): int {
    if Symbols(text) == 0 then 0 else IndexOf(text[Symbols(text) - 1])
  }

  lemma CheckIs(text: string)
    ensures Check(text).None? <==>
            FirstInvalid(text, 0, Symbols(text)) == Symbols(text) && GoodEnd(|text|, Symbols(text), LastIndex(text))
  {
  }

  lemma GoodEndShift(length: nat, symbols: nat, last: int)
    requires length >= 4 && symbols >= 4
    ensures GoodEnd(length, symbols, last) <==> GoodEnd(length - 4, symbols - 4, last)
  {
    assert (symbols - 4) % 4 == symbols % 4 && (length - 4) % 4 == length % 4;
  }

  lemma CheckShift(text: string)
    requires |text| > 4 && |text| % 4 == 0 && FourSymbols(text)
    ensures Check(text).None? <==> Check(text[4..]).None?
  {
    SymbolsShift(text);
    FirstInvalidShift(text, Symbols(text));
    CheckIs(text);
    CheckIs(text[4..]);
    GoodEndShift(|text|, Symbols(text), LastIndex(text));
  }

  /** The decoder accepts exactly the canonical strings. */
  lemma {:induction false} CheckAcceptsCanonical(text: string)
    ensures Check(text).None? <==> Canonical(text)
    decreases |text|
  {
    PaddingIsNoSymbol();
    if |text| > 4 {
      CheckByGroups(text);
      CheckAcceptsCanonical(text[4..]);
    } else if |text| == 4 {
      CheckOneGroup(text);
    } else if text != "" {
      assert |text| % 4 != 0;
    }
  }

  lemma CheckOneGroup(g: string)
    requires |g| == 4
    ensures Check(g).None? <==> LastGroup(g)
  {
    PaddingIsNoSymbol();
  }

  // ---------------------------------------------------------------------------------------------
  // Which failure a refused text has

  predicate EndsWith(text: string, end: string) {
    |end| <= |text| && text[|text| - |end|..] == end
  }

  /** The `=` at the end that are padding. */
  function Pads(text: string): (pads: nat)
    ensures pads <= |text|
  {
    if EndsWith(text, "==") then 2 else if EndsWith(text, "=") then 1 else 0
  }

  predicate SymbolsUpTo(text: string, n: nat)
    requires n <= |text|
  {
    forall i :: 0 <= i < n ==> IsSymbol(text[i])
  }

  lemma SymbolsComeBeforePads(text: string)
    ensures Symbols(text) == |text| - Pads(text)
  {
    var n := |text|;
    if n >= 2 { assert text[n - 2..] == [text[n - 2], text[n - 1]]; }
    if n >= 1 { assert text[n - 1..] == [text[n - 1]]; }
  }

  lemma ValidUpTo(text: string, n: nat)
    requires n <= |text|
    ensures FirstInvalid(text, 0, n) == n <==> SymbolsUpTo(text, n)
    ensures forall i: nat :: i < n ==> (FirstInvalid(text, 0, n) == i <==> !IsSymbol(text[i]) && SymbolsUpTo(text, i))
  {
    var bad := FirstInvalid(text, 0, n);
    forall i: nat | i < n && !IsSymbol(text[i]) && SymbolsUpTo(text, i) ensures bad == i {
      assert bad <= i;
    }
  }

  /** A byte outside the alphabet is reported, with its offset, exactly when it is the first one before the padding. */
  lemma BadBytesAreReported(text: string, c: char, i: nat)
    ensures Check(text) == Some(InvalidByte(c, i)) <==>
            i < |text| - Pads(text) && c == text[i] && !IsSymbol(c) && SymbolsUpTo(text, i)
  {
    SymbolsComeBeforePads(text);
    ValidUpTo(text, |text| - Pads(text));
  }

  /** The padding that completes `n` symbols to groups of four; one symbol over completes to none. */
  function PadsFor(n: nat): nat {
    if n % 4 == 0 then 0 else 4 - n % 4
  }

  /**
   With every symbol in the alphabet: the length is at fault exactly with one symbol over, the padding with any but the
   one that completes.
   */
  lemma BadLengthsAreReported(text: string, k: nat)
    ensures var n: nat := |text| - Pads(text);
            && (Check(text) == Some(InvalidLength(k)) <==> SymbolsUpTo(text, n) && k == n && n % 4 == 1)
            && (Check(text) == Some(InvalidPadding) <==> SymbolsUpTo(text, n) && n % 4 != 1 && Pads(text) != PadsFor(n))
  {
    SymbolsComeBeforePads(text);
    ValidUpTo(text, |text| - Pads(text));
  }

  /** And the last symbol exactly when it holds bits the padded group has no room for. */
  lemma StrayBitsAreReported(text: string, c: char, i: nat)
    ensures var n: nat := |text| - Pads(text);
            Check(text) == Some(InvalidLastSymbol(c, i)) <==>
            && SymbolsUpTo(text, n) && n % 4 >= 2 && Pads(text) == PadsFor(n) && i + 1 == n && c == text[i]
            && IndexOf(c) % (if n % 4 == 2 then 16 else 4) != 0
  {
    SymbolsComeBeforePads(text);
    ValidUpTo(text, |text| - Pads(text));
  }

  function Decode(text: string): Result<seq<Byte>, Failure> {
    match Check(text)
    case Some(failure) => Err(failure)
    case None => CheckAcceptsCanonical(text); Ok(Bytes(text))
  }

  /** Three bytes are four sextets and back. */
  lemma BytesToSextets(a: Byte, b: Byte, c: Byte)
    ensures var w, x, y, z := a / 4, a % 4 * 16 + b / 16, b % 16 * 4 + c / 64, c % 64;
            w * 4 + x / 16 == a && x % 16 * 16 + y / 4 == b && y % 4 * 64 + z == c
  {
  }

  lemma SextetsToBytes(w: Sextet, x: Sextet, y: Sextet, z: Sextet)
    ensures var a, b, c := w * 4 + x / 16, x % 16 * 16 + y / 4, y % 4 * 64 + z;
            0 <= a < 256 && 0 <= b < 256 && 0 <= c < 256 &&
            a / 4 == w && a % 4 * 16 + b / 16 == x && b % 16 * 4 + c / 64 == y && c % 64 == z
  {
  }

  lemma FullGroup(g: string, rest: string)
    requires |g| == 4 && FourSymbols(g) && Canonical(rest)
    ensures Canonical(g + rest) && (g + rest)[4..] == rest
    ensures var a, b, c, d := IndexOf(g[0]), IndexOf(g[1]), IndexOf(g[2]), IndexOf(g[3]);
            Bytes(g + rest) == [a * 4 + b / 16, b % 16 * 16 + c / 4, c % 4 * 64 + d] + Bytes(rest)
  {
    PaddingIsNoSymbol();
    assert (g + rest)[4..] == rest;
    if rest == "" { assert g + rest == g; }
  }

  lemma EncodeFullGroup(a: Byte, b: Byte, c: Byte, rest: seq<Byte>)
    ensures Encode([a, b, c] + rest) == EncodeGroup(a, b, c) + Encode(rest)
  {
    assert ([a, b, c] + rest)[3..] == rest;
  }

  lemma EncodeOne(a: Byte)
    ensures Canonical(Encode([a])) && Bytes(Encode([a])) == [a]
  {
    PaddingIsNoSymbol();
    BytesToSextets(a, 0, 0);
    var g := Encode([a]);
    assert g == [Symbol(a / 4), Symbol(a % 4 * 16), '=', '='];
    assert IndexOf(g[0]) == a / 4 && IndexOf(g[1]) == a % 4 * 16;
  }

  lemma EncodeTwo(a: Byte, b: Byte)
    ensures Canonical(Encode([a, b])) && Bytes(Encode([a, b])) == [a, b]
  {
    PaddingIsNoSymbol();
    BytesToSextets(a, b, 0);
    var g := Encode([a, b]);
    assert g == [Symbol(a / 4), Symbol(a % 4 * 16 + b / 16), Symbol(b % 16 * 4), '='];
    assert IndexOf(g[0]) == a / 4 && IndexOf(g[1]) == a % 4 * 16 + b / 16 && IndexOf(g[2]) == b % 16 * 4;
    assert b % 16 * 4 % 4 == 0;
  }

  lemma GroupIsSymbols(a: Byte, b: Byte, c: Byte)
    ensures var g := EncodeGroup(a, b, c);
            && FourSymbols(g)
            && IndexOf(g[0]) == a / 4 && IndexOf(g[1]) == a % 4 * 16 + b / 16
            && IndexOf(g[2]) == b % 16 * 4 + c / 64 && IndexOf(g[3]) == c % 64
  {
  }

  lemma EncodeThree(a: Byte, b: Byte, c: Byte, rest: string)
    requires Canonical(rest)
    ensures Canonical(EncodeGroup(a, b, c) + rest) && Bytes(EncodeGroup(a, b, c) + rest) == [a, b, c] + Bytes(rest)
  {
    GroupIsSymbols(a, b, c);
    FullGroup(EncodeGroup(a, b, c), rest);
    BytesToSextets(a, b, c);
  }

  lemma {:induction false} FirstThree(bytes: seq<Byte>)
    requires |bytes| >= 3 && Canonical(Encode(bytes[3..])) && Bytes(Encode(bytes[3..])) == bytes[3..]
    ensures Canonical(Encode(bytes)) && Bytes(Encode(bytes)) == bytes
  {
    var rest := Encode(bytes[3..]);
    EncodeThree(bytes[0], bytes[1], bytes[2], rest);
    assert bytes == [bytes[0], bytes[1], bytes[2]] + bytes[3..];
  }

  lemma {:induction false} EncodingIsCanonical(bytes: seq<Byte>)
    ensures Canonical(Encode(bytes)) && Bytes(Encode(bytes)) == bytes
    decreases |bytes|
  {
    if |bytes| >= 3 {
      EncodingIsCanonical(bytes[3..]);
      FirstThree(bytes);
    } else if |bytes| == 2 {
      EncodeTwo(bytes[0], bytes[1]);
      assert bytes == [bytes[0], bytes[1]];
    } else if |bytes| == 1 {
      EncodeOne(bytes[0]);
      assert bytes == [bytes[0]];
    }
  }

  lemma DecodeTwoSymbols(g: string)
    requires |g| == 4 && LastGroup(g) && g[2] == '='
    ensures Encode(Bytes(g)) == g
  {
    PaddingIsNoSymbol();
    SextetsToBytes(IndexOf(g[0]), IndexOf(g[1]), 0, 0);
    assert Bytes(g) == [IndexOf(g[0]) * 4 + IndexOf(g[1]) / 16];
    assert g == [g[0], g[1], '=', '='];
  }

  lemma DecodeThreeSymbols(g: string)
    requires |g| == 4 && LastGroup(g) && g[2] != '=' && g[3] == '='
    ensures Encode(Bytes(g)) == g
  {
    PaddingIsNoSymbol();
    var w, x, y := IndexOf(g[0]), IndexOf(g[1]), IndexOf(g[2]);
    SextetsToBytes(w, x, y, 0);
    assert Bytes(g) == [w * 4 + x / 16, x % 16 * 16 + y / 4];
    assert g == [g[0], g[1], g[2], '='];
    ThreeSymbolsOf(w, x, y);
  }

  lemma ThreeSymbolsOf(w: Sextet, x: Sextet, y: Sextet)
    requires y % 4 == 0
    ensures var a, b := w * 4 + x / 16, x % 16 * 16 + y / 4;
            0 <= a < 256 && 0 <= b < 256 && Encode([a, b]) == [Symbol(w), Symbol(x), Symbol(y), '=']
  {
    SextetsToBytes(w, x, y, 0);
  }

  lemma SymbolsAreGroup(w: Sextet, x: Sextet, y: Sextet, z: Sextet)
    ensures var a, b, c := w * 4 + x / 16, x % 16 * 16 + y / 4, y % 4 * 64 + z;
            0 <= a < 256 && 0 <= b < 256 && 0 <= c < 256
            && EncodeGroup(a, b, c) == [Symbol(w), Symbol(x), Symbol(y), Symbol(z)]
  {
    SextetsToBytes(w, x, y, z);
  }

  /** The three bytes of a full group encode to it. */
  lemma GroupEncodes(g: string) returns (a: Byte, b: Byte, c: Byte)
    requires |g| == 4 && FourSymbols(g)
    ensures var w, x, y, z := IndexOf(g[0]), IndexOf(g[1]), IndexOf(g[2]), IndexOf(g[3]);
            [a, b, c] == [w * 4 + x / 16, x % 16 * 16 + y / 4, y % 4 * 64 + z]
    ensures EncodeGroup(a, b, c) == g
  {
    var w: Sextet, x: Sextet, y: Sextet, z: Sextet := IndexOf(g[0]), IndexOf(g[1]), IndexOf(g[2]), IndexOf(g[3]);
    SymbolsAreGroup(w, x, y, z);
    a, b, c := w * 4 + x / 16, x % 16 * 16 + y / 4, y % 4 * 64 + z;
    assert [g[0], g[1], g[2], g[3]] == g;
  }

  /** And they are what the group adds in front of the rest. */
  lemma GroupOfBytes(g: string, rest: string) returns (a: Byte, b: Byte, c: Byte)
    requires |g| == 4 && FourSymbols(g) && Canonical(rest)
    ensures EncodeGroup(a, b, c) == g && Canonical(g + rest) && Bytes(g + rest) == [a, b, c] + Bytes(rest)
  {
    FullGroup(g, rest);
    a, b, c := GroupEncodes(g);
  }

  lemma {:induction false} DecodingIsCanonical(text: string)
    requires Canonical(text)
    ensures Encode(Bytes(text)) == text
    decreases |text|
  {
    if text == "" {
    } else if |text| == 4 && !FourSymbols(text) {
      if text[2] == '=' { DecodeTwoSymbols(text); } else { DecodeThreeSymbols(text); }
    } else {
      assert text == text[..4] + text[4..];
      DecodingIsCanonical(text[4..]);
      var a, b, c := GroupOfBytes(text[..4], text[4..]);
      EncodeFullGroup(a, b, c, Bytes(text[4..]));
    }
  }

  /** Decoding any encoded bytes gives them back. */
  lemma DecodeInvertsEncode(bytes: seq<Byte>)
    ensures Decode(Encode(bytes)) == Ok(bytes)
  {
    EncodingIsCanonical(bytes);
    CheckAcceptsCanonical(Encode(bytes));
  }

  /** Encoding any accepted text's bytes gives that text back, so a text is accepted exactly when it is an encoding. */
  lemma EncodeInvertsDecode(text: string)
    ensures Decode(text).Ok? ==> Encode(Decode(text).value) == text
    ensures Decode(text).Ok? <==> exists bytes :: Encode(bytes) == text
  {
    CheckAcceptsCanonical(text);
    if Decode(text).Ok? {
      DecodingIsCanonical(text);
      assert Encode(Bytes(text)) == text;
    }
    if bytes :| Encode(bytes) == text {
      EncodingIsCanonical(bytes);
    }
  }
}
