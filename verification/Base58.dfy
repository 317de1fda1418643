/**
  Base58, Base58Check and the packed account addresses shown by the explorer.
  Digits are numbers below their base; a vector of digits is least significant
  first while it is being computed, and most significant first when it is text.
 */
module Base58 {
  import opened Common

  type Byte = x: nat | x < 256

  // ---------- positional notation ----------

  function Pow(base: nat, k: nat): nat {
    if k == 0 then 1 else base * Pow(base, k - 1)
  }

  /** The value of a vector, least significant digit first. */
  function Value(digits: seq<nat>, base: nat): nat {
    if digits == [] then 0 else digits[0] + base * Value(digits[1..], base)
  }

  predicate Digits(digits: seq<nat>, base: nat) {
    forall i :: 0 <= i < |digits| ==> digits[i] < base
  }

  /** A vector without superfluous digits. */
  predicate Normal(digits: seq<nat>, base: nat) {
    Digits(digits, base) && (digits != [] ==> digits[|digits| - 1] != 0)
  }

  /** The value of a text, most significant digit first. */
  function Number(text: seq<nat>, base: nat): nat {
    if text == [] then 0 else Number(text[..|text| - 1], base) * base + text[|text| - 1]
  }

  lemma Associates(a: nat, b: nat, c: nat)
    ensures (a * b) * c == a * (b * c) == b * (a * c)
  {
  }

  lemma Distributes(a: nat, b: nat, c: nat)
    ensures a * (b + c) == a * b + a * c
  {
  }

  lemma {:induction false} ValueConcat(a: seq<nat>, b: seq<nat>, base: nat)
    ensures Value(a + b, base) == Value(a, base) + Pow(base, |a|) * Value(b, base)
  {
    if a == [] {
      assert a + b == b;
    } else {
      ValueConcat(a[1..], b, base);
      assert (a + b)[1..] == a[1..] + b;
      Distributes(base, Value(a[1..], base), Pow(base, |a| - 1) * Value(b, base));
      Associates(base, Pow(base, |a| - 1), Value(b, base));
    }
  }

  /** Reading a text most significant first is reading its reverse least significant first. */
  lemma {:induction false} NumberIsValue(text: seq<nat>, base: nat)
    ensures Number(text, base) == Value(Reverse(text), base)
  {
    if text != [] {
      NumberIsValue(text[..|text| - 1], base);
      assert Reverse(text)[1..] == Reverse(text[..|text| - 1]);
    }
  }

  lemma MulMonotone(a: nat, b: nat, c: nat)
    requires a <= b
    ensures c * a <= c * b
  {
    assert c * b == c * a + c * (b - a);
  }

  lemma DivisionIsUnique(a: nat, q: nat, b: nat, r: nat, base: nat)
    requires a < base && b < base && a + base * q == b + base * r
    ensures a == b && q == r
  {
    if q < r {
      MulMonotone(q + 1, r, base);
    } else if q > r {
      MulMonotone(r + 1, q, base);
    }
  }

  lemma {:induction false} NormalPositive(digits: seq<nat>, base: nat)
    requires base >= 2 && Normal(digits, base) && digits != []
    ensures Value(digits, base) > 0
  {
    if |digits| > 1 {
      NormalPositive(digits[1..], base);
      assert base * Value(digits[1..], base) >= 1;
    }
  }

  /** A number has one normal vector. */
  lemma {:induction false} NormalIsUnique(a: seq<nat>, b: seq<nat>, base: nat)
    requires base >= 2 && Normal(a, base) && Normal(b, base) && Value(a, base) == Value(b, base)
    ensures a == b
    decreases |a|
  {
    if a != [] && b != [] {
      DivisionIsUnique(a[0], Value(a[1..], base), b[0], Value(b[1..], base), base);
      NormalIsUnique(a[1..], b[1..], base);
      assert a == [a[0]] + a[1..] && b == [b[0]] + b[1..];
    } else if a != [] {
      NormalPositive(a, base);
    } else if b != [] {
      NormalPositive(b, base);
    }
  }

  // ---------- leading zeros ----------

  function Lead(text: seq<nat>): (n: nat)
    ensures n <= |text|
    ensures forall i :: 0 <= i < n ==> text[i] == 0
    ensures n < |text| ==> text[n] != 0
  {
    if text == [] || text[0] != 0 then 0 else 1 + Lead(text[1..])
  }

  lemma {:induction false} LeadIs(text: seq<nat>, n: nat)
    requires n <= |text| && (forall i :: 0 <= i < n ==> text[i] == 0) && (n < |text| ==> text[n] != 0)
    ensures Lead(text) == n
  {
    if n > 0 {
      LeadIs(text[1..], n - 1);
    }
  }

  function Zeros(n: nat): (s: seq<nat>)
    ensures |s| == n && forall i :: 0 <= i < n ==> s[i] == 0
  {
    if n == 0 then [] else [0] + Zeros(n - 1)
  }

  lemma {:induction false} ZerosAddNothing(n: nat, text: seq<nat>, base: nat)
    ensures Number(Zeros(n) + text, base) == Number(text, base)
    decreases |text|
  {
    if text == [] {
      assert Zeros(n) + text == Zeros(n);
      ZerosAreZero(n, base);
    } else {
      ZerosAddNothing(n, text[..|text| - 1], base);
      assert (Zeros(n) + text)[..n + |text| - 1] == Zeros(n) + text[..|text| - 1];
    }
  }

  lemma {:induction false} ZerosAreZero(n: nat, base: nat)
    ensures Number(Zeros(n), base) == 0
  {
    if n > 0 {
      assert Zeros(n)[..n - 1] == Zeros(n - 1);
      ZerosAreZero(n - 1, base);
    }
  }

  lemma SignificantIsNormal(text: seq<nat>, base: nat)
    requires Digits(text, base)
    ensures Normal(Reverse(text[Lead(text)..]), base)
  {
    var x := text[Lead(text)..];
    assert x != [] ==> Reverse(x)[|x| - 1] == x[0] == text[Lead(text)];
  }

  /** Past its leading zeros a text is the normal vector of its number. */
  lemma Significant(text: seq<nat>, base: nat)
    requires Digits(text, base)
    ensures var x := text[Lead(text)..];
      text == Zeros(Lead(text)) + x && x == Reverse(Reverse(x))
      && Normal(Reverse(x), base) && Value(Reverse(x), base) == Number(text, base)
  {
    var x := text[Lead(text)..];
    assert text == Zeros(Lead(text)) + x;
    SignificantIsNormal(text, base);
    PartsNumber(Lead(text), x, base);
    ReverseTwice(x);
  }

  lemma PartsNumber(zeros: nat, x: seq<nat>, base: nat)
    ensures Number(Zeros(zeros) + x, base) == Value(Reverse(x), base)
  {
    ZerosAddNothing(zeros, x, base);
    NumberIsValue(x, base);
  }

  lemma ReverseTwice(x: seq<nat>)
    ensures Reverse(Reverse(x)) == x
  {
  }

  /** How many leading zeros a text has and what number it is determine the text. */
  lemma TextIsDetermined(a: seq<nat>, b: seq<nat>, base: nat)
    requires base >= 2 && Digits(a, base) && Digits(b, base)
    requires Lead(a) == Lead(b) && Number(a, base) == Number(b, base)
    ensures a == b
  {
    Significant(a, base);
    Significant(b, base);
    NormalIsUnique(Reverse(a[Lead(a)..]), Reverse(b[Lead(b)..]), base);
  }

  /** The normal vector of a number. */
  function Represent(n: nat, base: nat): seq<nat>
    requires base >= 2
  {
    if n == 0 then [] else [n % base] + Represent(n / base, base)
  }

  lemma QuotientSmaller(n: nat, base: nat)
    requires base >= 2 && n > 0
    ensures n == n % base + base * (n / base) && n % base < base && n / base < n
    ensures n / base == 0 ==> n % base != 0
  {
    MulMonotone(2, base, n / base);
  }

  lemma {:induction false} RepresentIsNormal(n: nat, base: nat)
    requires base >= 2
    ensures Normal(Represent(n, base), base) && Value(Represent(n, base), base) == n
  {
    if n > 0 {
      var low, high := n % base, n / base;
      QuotientSmaller(n, base);
      RepresentIsNormal(high, base);
      var rest := Represent(high, base);
      assert Represent(n, base) == [low] + rest;
      assert ([low] + rest)[1..] == rest;
      assert rest == [] ==> high == 0;
    }
  }

  /** The text of the same number in another base, leading zeros kept one for one. */
  function Translation(text: seq<nat>, from: nat, to: nat): seq<nat>
    requires to >= 2
  {
    Zeros(Lead(text)) + Reverse(Represent(Number(text, from), to))
  }

  lemma TranslationKeeps(text: seq<nat>, from: nat, to: nat)
    requires to >= 2
    ensures var out := Translation(text, from, to);
      Digits(out, to) && Lead(out) == Lead(text) && Number(out, to) == Number(text, from)
  {
    var digits := Represent(Number(text, from), to);
    RepresentIsNormal(Number(text, from), to);
    ZerosAddNothing(Lead(text), Reverse(digits), to);
    NumberIsValue(Reverse(digits), to);
    assert Reverse(Reverse(digits)) == digits;
    LeadIs(Translation(text, from, to), Lead(text));
  }

  /** Translating there and back gives the text, whichever base it started in. */
  lemma TranslationBack(text: seq<nat>, from: nat, to: nat)
    requires from >= 2 && to >= 2 && Digits(text, from)
    ensures Translation(Translation(text, from, to), to, from) == text
  {
    TranslationKeeps(text, from, to);
    TranslationKeeps(Translation(text, from, to), to, from);
    TextIsDetermined(Translation(Translation(text, from, to), to, from), text, from);
  }

  // ---------- the carry loops ----------

  lemma PowNext(base: nat, k: nat, digit: nat, rest: nat)
    ensures Pow(base, k) * (digit + base * rest) == Pow(base, k) * digit + Pow(base, k + 1) * rest
  {
    var p := Pow(base, k);
    assert p * (digit + base * rest) == p * digit + p * (base * rest);
    assert p * (base * rest) == (base * p) * rest;
  }

  lemma ValueSnoc(digits: seq<nat>, digit: nat, base: nat)
    ensures Value(digits + [digit], base) == Value(digits, base) + Pow(base, |digits|) * digit
  {
    ValueConcat(digits, [digit], base);
    assert [digit][1..] == [];
    assert Value([digit], base) == digit + base * 0;
  }

  /** What the sweep holds after `k` digits: done below, carry and untouched digits above. */
  predicate Swept(was: seq<nat>, digits: seq<nat>, k: nat, carry: nat, base: nat, factor: nat, add: nat)
    requires k <= |was| == |digits|
  {
    Value(digits[..k], base) + Pow(base, k) * (carry + factor * Value(was[k..], base))
      == factor * Value(was, base) + add
  }

  /** One digit of the sweep, as plain arithmetic. */
  lemma SweepArithmetic(low: nat, p: nat, digit: nat, carry: nat, rest: nat, base: nat, factor: nat, d: nat, q: nat)
    requires digit * factor + carry == d + base * q
    ensures low + p * d + (base * p) * (q + factor * rest) == low + p * (carry + factor * (digit + base * rest))
  {
    Associates(base, p, q + factor * rest);
    Distributes(p, d, base * (q + factor * rest));
    Distributes(base, q, factor * rest);
    Associates(base, factor, rest);
    Distributes(factor, digit, base * rest);
    assert carry + factor * (digit + base * rest) == d + base * (q + factor * rest);
  }

  lemma SweepStep(was: seq<nat>, digits: seq<nat>, k: nat, carry: nat, base: nat, factor: nat, add: nat, d: nat, q: nat)
    requires k < |was| == |digits| && was[k] * factor + carry == d + base * q
    requires Swept(was, digits, k, carry, base, factor, add)
    ensures Swept(was, digits[k := d], k + 1, q, base, factor, add)
  {
    var after := digits[k := d];
    assert was[k..][1..] == was[k + 1..];
    assert after[..k + 1] == digits[..k] + [d];
    ValueSnoc(digits[..k], d, base);
    SweepArithmetic(Value(digits[..k], base), Pow(base, k), was[k], carry, Value(was[k + 1..], base),
                    base, factor, d, q);
  }

  /** What a vector and the carry above it amount to. */
  function Held(digits: seq<nat>, carry: nat, base: nat): nat {
    Value(digits, base) + Pow(base, |digits|) * carry
  }

  lemma PushStep(digits: seq<nat>, carry: nat, base: nat)
    requires base >= 2 && carry > 0
    ensures Held(digits + [carry % base], carry / base, base) == Held(digits, carry, base)
    ensures carry % base < base && carry / base < carry && (carry / base == 0 ==> carry % base != 0)
  {
    var low, high := carry % base, carry / base;
    QuotientSmaller(carry, base);
    ValueSnoc(digits, low, base);
    PowNext(base, |digits|, low, high);
  }

  /** Carry `add` through every digit in place; the carry never reaches `factor`. */
  method Sweep(was: seq<nat>, base: nat, factor: nat, add: nat) returns (digits: seq<nat>, carry: nat)
    requires Bases(base, factor) && add < factor && Normal(was, base)
    ensures |digits| == |was| && Digits(digits, base) && carry < factor
    ensures digits != [] ==> carry > 0 || digits[|digits| - 1] != 0
    ensures Held(digits, carry, base) == factor * Value(was, base) + add
  {
    digits, carry := was, add;
    assert was[0..] == was && was[..0] == [];
    for k := 0 to |was|
      invariant |digits| == |was| && carry < factor && Digits(digits, base)
      invariant forall i :: k <= i < |was| ==> digits[i] == was[i]
      invariant k > 0 && k == |was| ==> carry > 0 || digits[k - 1] != 0
      invariant Swept(was, digits, k, carry, base, factor, add)
    {
      var d, q := SweepDigit(digits[k], carry, base, factor);
      SweepStep(was, digits, k, carry, base, factor, add, d, q);
      digits, carry := digits[k := d], q;
    }
    assert digits[..|was|] == digits && was[|was|..] == [];
  }

  /** The two conversions: to Base58 digits from bytes, and to bytes from Base58 digits. */
  predicate Bases(base: nat, factor: nat) {
    (base == 58 && factor == 256) || (base == 256 && factor == 58)
  }

  /** One turn of the inner loop, in 32-bit arithmetic. */
  method SweepDigit(digit: nat, carry: nat, base: nat, factor: nat) returns (d: nat, q: nat)
    requires Bases(base, factor) && digit < base && carry < factor
    ensures digit * factor + carry == d + base * q < 0x1_0000_0000
    ensures d < base && q < factor && (digit > 0 ==> q > 0 || d != 0)
  {
    if base == 58 {
      var next := digit * 256 + carry;
      return next % 58, next / 58;
    } else {
      var next := digit * 58 + carry;
      return next % 256, next / 256;
    }
  }

  /** Push what is left of the carry. */
  method Push(swept: seq<nat>, left: nat, base: nat) returns (digits: seq<nat>)
    requires base >= 2 && Digits(swept, base) && (swept != [] ==> left > 0 || swept[|swept| - 1] != 0)
    ensures Normal(digits, base) && Value(digits, base) == Held(swept, left, base)
  {
    digits := swept;
    var carry: nat := left;
    while carry > 0
      invariant Digits(digits, base)
      invariant digits != [] ==> carry > 0 || digits[|digits| - 1] != 0
      invariant Held(digits, carry, base) == Held(swept, left, base)
      decreases carry
    {
      PushStep(digits, carry, base);
      digits := digits + [carry % base];
      carry := carry / base;
    }
  }

  /** Multiply a vector by `factor` and add one digit, the way both conversions do. */
  method MultiplyAdd(was: seq<nat>, base: nat, factor: nat, add: nat) returns (digits: seq<nat>)
    requires Bases(base, factor) && add < factor && Normal(was, base)
    ensures Normal(digits, base) && Value(digits, base) == factor * Value(was, base) + add
  {
    var swept, carry := Sweep(was, base, factor, add);
    digits := Push(swept, carry, base);
  }

  /** The vector built so far is that of the part read; the whole text follows from it. */
  lemma BuiltIsTranslation(text: seq<nat>, digits: seq<nat>, from: nat, to: nat)
    requires to >= 2 && Normal(digits, to) && Value(digits, to) == Number(text, from)
    ensures Zeros(Lead(text)) + Reverse(digits) == Translation(text, from, to)
  {
    RepresentIsNormal(Number(text, from), to);
    NormalIsUnique(digits, Represent(Number(text, from), to), to);
  }

  // ---------- spelling digits in an alphabet ----------

  predicate Distinct(alphabet: string) {
    forall i, j :: 0 <= i < j < |alphabet| ==> alphabet[i] != alphabet[j]
  }

  /** Where a character stands in the alphabet. */
  function Index(alphabet: string, c: char): (k: Option<nat>)
    ensures k.None? <==> c !in alphabet
    ensures k.Some? ==> k.value < |alphabet| && alphabet[k.value] == c
  {
    if alphabet == "" then None
    else if alphabet[0] == c then Some(0)
    else
      match Index(alphabet[1..], c)
      case None => None
      case Some(k) => Some(k + 1)
  }

  function Spell(alphabet: string, digits: seq<nat>): string
    requires Digits(digits, |alphabet|)
  {
    seq(|digits|, i requires 0 <= i < |digits| => alphabet[digits[i]])
  }

  function Read(alphabet: string, text: string): Option<seq<nat>> {
    if text == "" then Some([])
    else
      match (Read(alphabet, text[..|text| - 1]), Index(alphabet, text[|text| - 1]))
      case (Some(digits), Some(k)) => Some(digits + [k])
      case _ => None
  }

  lemma {:induction false} ReadSpelled(alphabet: string, digits: seq<nat>)
    requires Distinct(alphabet) && Digits(digits, |alphabet|)
    ensures Read(alphabet, Spell(alphabet, digits)) == Some(digits)
  {
    if digits != [] {
      var n := |digits| - 1;
      assert Spell(alphabet, digits)[..n] == Spell(alphabet, digits[..n]);
      ReadSpelled(alphabet, digits[..n]);
      assert Spell(alphabet, digits)[n] == alphabet[digits[n]];
      assert Index(alphabet, alphabet[digits[n]]) == Some(digits[n]);
      assert digits == digits[..n] + [digits[n]];
    }
  }

  lemma {:induction false} SpellRead(alphabet: string, text: string)
    requires Read(alphabet, text).Some?
    ensures Digits(Read(alphabet, text).value, |alphabet|) && Spell(alphabet, Read(alphabet, text).value) == text
  {
    if text != "" {
      SpellRead(alphabet, text[..|text| - 1]);
    }
  }

  predicate Spelled(alphabet: string, text: string) {
    forall i :: 0 <= i < |text| ==> text[i] in alphabet
  }

  /** A text can be read exactly when every character is in the alphabet. */
  lemma {:induction false} ReadableIff(alphabet: string, text: string)
    ensures Read(alphabet, text).Some? <==> Spelled(alphabet, text)
  {
    if text != "" {
      var n := |text| - 1;
      ReadableIff(alphabet, text[..n]);
      assert Spelled(alphabet, text) <==> Spelled(alphabet, text[..n]) && text[n] in alphabet by {
        assert forall i :: 0 <= i < n ==> text[..n][i] == text[i];
      }
    }
  }

  // ---------- Base58 ----------

  const ALPHABET: string := "123456789" + "ABCDEFGH" + "JKLMN" + "PQRSTUVWXYZ" + "abcdefghijk" + "mnopqrstuvwxyz"

  lemma AlphabetAscends(i: nat)
    requires i < 57
    ensures |ALPHABET| == 58 && ALPHABET[i] < ALPHABET[i + 1]
  {
  }

  lemma {:induction false} AlphabetOrdered(i: nat, j: nat)
    requires i < j < 58
    ensures |ALPHABET| == 58 && ALPHABET[i] < ALPHABET[j]
    decreases j
  {
    AlphabetAscends(j - 1);
    if i < j - 1 {
      AlphabetOrdered(i, j - 1);
    }
  }

  /** The alphabet is in character order, so no character occurs twice. */
  lemma AlphabetDistinct()
    ensures |ALPHABET| == 58 && Distinct(ALPHABET)
  {
    forall i, j | 0 <= i < j < |ALPHABET|
      ensures ALPHABET[i] != ALPHABET[j]
    {
      AlphabetOrdered(i, j);
    }
  }

  function Encode(value: seq<Byte>): string {
    TranslationKeeps(value, 256, 58);
    Spell(ALPHABET, Translation(value, 256, 58))
  }

  function Decode(text: string): Result<seq<Byte>> {
    match Read(ALPHABET, text)
    case None => Failure(Invalid)
    case Some(digits) =>
      TranslationKeeps(digits, 58, 256);
      Success(Translation(digits, 58, 256))
  }

  /** Decoding an encoded byte string gives it back, leading zeros included. */
  lemma DecodeEncoded(value: seq<Byte>)
    ensures Decode(Encode(value)) == Success(value)
  {
    TranslationKeeps(value, 256, 58);
    AlphabetDistinct();
    ReadSpelled(ALPHABET, Translation(value, 256, 58));
    TranslationBack(value, 256, 58);
  }

  /** Every valid Base58 text is the encoding of exactly what it decodes to. */
  lemma EncodeDecoded(text: string)
    ensures Decode(text).Success? <==> Spelled(ALPHABET, text)
    ensures Decode(text).Success? ==> Encode(Decode(text).value) == text
  {
    ReadableIff(ALPHABET, text);
    if Read(ALPHABET, text).Some? {
      SpellRead(ALPHABET, text);
      TranslationBack(Read(ALPHABET, text).value, 58, 256);
    }
  }

  method EncodeBytes(value: seq<Byte>) returns (encoded: string)
    ensures encoded == Encode(value)
  {
    var digits: seq<nat> := [];
    for i := 0 to |value|
      invariant Normal(digits, 58) && Value(digits, 58) == Number(value[..i], 256)
    {
      assert value[..i + 1][..i] == value[..i];
      digits := MultiplyAdd(digits, 58, 256, value[i]);
    }
    assert value[..|value|] == value;
    BuiltIsTranslation(value, digits, 256, 58);
    encoded := Spell(ALPHABET, Zeros(Lead(value)) + Reverse(digits));
  }

  function LeadingOnes(text: string): (n: nat)
    ensures n <= |text| && (forall i :: 0 <= i < n ==> text[i] == '1') && (n < |text| ==> text[n] != '1')
  {
    if text == "" || text[0] != '1' then 0 else 1 + LeadingOnes(text[1..])
  }

  /** The character '1' is the digit zero. */
  lemma OnesAreZeros(text: string)
    requires Read(ALPHABET, text).Some?
    ensures Lead(Read(ALPHABET, text).value) == LeadingOnes(text)
  {
    var digits := Read(ALPHABET, text).value;
    SpellRead(ALPHABET, text);
    assert ALPHABET[0] == '1';
    forall i | 0 <= i < |text|
      ensures digits[i] == 0 <==> text[i] == '1'
    {
      assert text[i] == ALPHABET[digits[i]];
      if digits[i] > 0 {
        AlphabetOrdered(0, digits[i]);
      }
    }
    LeadIs(digits, LeadingOnes(text));
  }

  method DecodeText(text: string) returns (r: Result<seq<Byte>>)
    ensures r == Decode(text)
  {
    var zeros := LeadingOnes(text);
    var bytes: seq<nat> := [];
    ghost var digits: seq<nat> := [];
    for i := 0 to |text|
      invariant Read(ALPHABET, text[..i]) == Some(digits) && Digits(digits, 58)
      invariant Normal(bytes, 256) && Value(bytes, 256) == Number(digits, 58)
    {
      assert text[..i + 1][..i] == text[..i];
      var k := Index(ALPHABET, text[i]);
      if k.None? {
        ReadableIff(ALPHABET, text);
        return Failure(Invalid);
      }
      bytes := MultiplyAdd(bytes, 256, 58, k.value);
      NumberSnoc(digits, k.value, 58);
      digits := digits + [k.value];
    }
    assert text[..|text|] == text;
    OnesAreZeros(text);
    BuiltIsTranslation(digits, bytes, 58, 256);
    return Success(Zeros(zeros) + Reverse(bytes));
  }

  lemma NumberSnoc(text: seq<nat>, digit: nat, base: nat)
    ensures Number(text + [digit], base) == Number(text, base) * base + digit
  {
    assert (text + [digit])[..|text|] == text;
  }

  // ---------- Base58Check ----------

  /** The four-byte double hash; only its length matters here. */
  type Checksum = seq<Byte> -> seq<Byte>

  ghost predicate FourBytes(sum: Checksum) {
    forall body :: |sum(body)| == 4
  }

  function CheckEncode(sum: Checksum, version: Byte, payload: seq<Byte>): string {
    var body := [version] + payload;
    Encode(body + sum(body))
  }

  datatype Versioned = Versioned(version: Byte, payload: seq<Byte>)

  function CheckDecode(sum: Checksum, text: string): Result<Versioned> {
    var bytes :- Decode(text);
    if |bytes| < 5 then Failure(Invalid) else
    var body := bytes[..|bytes| - 4];
    if bytes[|bytes| - 4..] != sum(body) then Failure(Mismatch)
    else Success(Versioned(body[0], body[1..]))
  }

  lemma CheckDecodeEncoded(sum: Checksum, version: Byte, payload: seq<Byte>)
    requires FourBytes(sum)
    ensures CheckDecode(sum, CheckEncode(sum, version, payload)) == Success(Versioned(version, payload))
  {
    var body := [version] + payload;
    var bytes := body + sum(body);
    DecodeEncoded(bytes);
    assert bytes[..|bytes| - 4] == body && bytes[|bytes| - 4..] == sum(body);
  }

  /** Only its own encoding is accepted for a payload: a changed checksum or character is refused. */
  lemma CheckEncodeDecoded(sum: Checksum, text: string, version: Byte, payload: seq<Byte>)
    requires FourBytes(sum)
    ensures CheckDecode(sum, text) == Success(Versioned(version, payload)) <==>
      text == CheckEncode(sum, version, payload)
  {
    CheckDecodeEncoded(sum, version, payload);
    EncodeDecoded(text);
    if CheckDecode(sum, text) == Success(Versioned(version, payload)) {
      var bytes := Decode(text).value;
      assert bytes[..|bytes| - 4] == [version] + payload;
      assert bytes == bytes[..|bytes| - 4] + bytes[|bytes| - 4..];
    }
  }

  // ---------- packed addresses ----------

  const MINA_PUBLIC_KEY_VERSION: Byte := 203
  const MINA_PUBLIC_KEY_PAYLOAD_LEN: nat := 35

  /** The parity travels in the top bit of the packed form and in a byte of its own in the payload. */
  function PayloadOf(packed: seq<Byte>): (payload: seq<Byte>)
    requires |packed| == 32
    ensures |payload| == MINA_PUBLIC_KEY_PAYLOAD_LEN
  {
    [1, 1] + Reverse(packed[0 := packed[0] % 128]) + [if packed[0] >= 128 then 1 else 0]
  }

  predicate WellFormedPayload(payload: seq<Byte>) {
    |payload| == MINA_PUBLIC_KEY_PAYLOAD_LEN && payload[0] == 1 && payload[1] == 1
      && (payload[34] == 0 || payload[34] == 1)
  }

  function PackedOf(payload: seq<Byte>): (packed: seq<Byte>)
    requires WellFormedPayload(payload)
    ensures |packed| == 32
  {
    var x := Reverse(payload[2..34]);
    if payload[34] == 1 && x[0] < 128 then x[0 := x[0] + 128] else x
  }

  function PackedToBase58(sum: Checksum, packed: seq<Byte>): Result<string> {
    if |packed| != 32 then Failure(Invalid)
    else Success(CheckEncode(sum, MINA_PUBLIC_KEY_VERSION, PayloadOf(packed)))
  }

  function PackedFromBase58(sum: Checksum, address: string): Result<seq<Byte>> {
    var decoded :- CheckDecode(sum, address);
    if decoded.version != MINA_PUBLIC_KEY_VERSION || !WellFormedPayload(decoded.payload) then Failure(Invalid)
    else Success(PackedOf(decoded.payload))
  }

  lemma PayloadRoundTrip(packed: seq<Byte>)
    requires |packed| == 32
    ensures WellFormedPayload(PayloadOf(packed)) && PackedOf(PayloadOf(packed)) == packed
  {
    var x := packed[0 := packed[0] % 128];
    assert PayloadOf(packed)[2..34] == Reverse(x);
    assert Reverse(Reverse(x)) == x;
  }

  /**
    Two leading ones, the coordinate least significant byte first without its
    top bit, and the parity, under the version of a public key.
   */
  predicate LaidOut(decoded: Versioned, packed: seq<Byte>) {
    |packed| == 32 && |decoded.payload| == 35 &&
    var payload: seq<Byte> := decoded.payload;
    && decoded.version as int == 203 && payload[0] as int == 1 && payload[1] as int == 1
    && (forall i :: 1 <= i < 32 ==> payload[33 - i] == packed[i])
    && payload[33] as int < 128 && payload[34] as int < 2
    && packed[0] as int == payload[33] as int + payload[34] as int * 128
  }

  lemma PayloadLayout(packed: seq<Byte>)
    requires |packed| == 32
    ensures LaidOut(Versioned(203, PayloadOf(packed)), packed)
  {
    var payload := PayloadOf(packed);
    PayloadEnds(packed);
    forall i | 1 <= i < 32
      ensures payload[33 - i] == packed[i]
    {
      assert payload[2..33][31 - i] == Reverse(packed[1..])[31 - i];
    }
  }

  /** An address is the Base58Check text of a payload laid out like this. */
  lemma AddressLayout(sum: Checksum, packed: seq<Byte>, text: string)
    requires FourBytes(sum) && PackedToBase58(sum, packed) == Success(text)
    ensures CheckDecode(sum, text).Success? && LaidOut(CheckDecode(sum, text).value, packed)
  {
    CheckDecodeEncoded(sum, MINA_PUBLIC_KEY_VERSION, PayloadOf(packed));
    PayloadLayout(packed);
  }

  /** Every 32-byte packed address survives the trip through its Base58 form. */
  lemma AddressRoundTrip(sum: Checksum, packed: seq<Byte>)
    requires FourBytes(sum) && |packed| == 32
    ensures PackedToBase58(sum, packed).Success?
    ensures PackedFromBase58(sum, PackedToBase58(sum, packed).value) == Success(packed)
  {
    CheckDecodeEncoded(sum, MINA_PUBLIC_KEY_VERSION, PayloadOf(packed));
    PayloadRoundTrip(packed);
  }

  /** The first packed byte, from the top byte of the coordinate and the parity. */
  lemma PackedTop(payload: seq<Byte>)
    requires WellFormedPayload(payload)
    ensures var packed := PackedOf(payload);
      && packed[0] == (if payload[34] == 1 && payload[33] < 128 then payload[33] + 128 else payload[33])
      && packed[1..] == Reverse(payload[2..33])
  {
    var x := Reverse(payload[2..34]);
    assert x[0] == payload[33];
    assert forall i :: 1 <= i < 32 ==> x[i] == payload[34 - 1 - i];
    assert PackedOf(payload)[1..] == x[1..] == Reverse(payload[2..33]);
  }

  lemma PayloadEnds(packed: seq<Byte>)
    requires |packed| == 32
    ensures var payload := PayloadOf(packed);
      && payload[0] == 1 && payload[1] == 1 && payload[33] == packed[0] % 128
      && payload[34] == (if packed[0] >= 128 then 1 else 0) && payload[2..33] == Reverse(packed[1..])
  {
    var x := packed[0 := packed[0] % 128];
    assert Reverse(x)[31] == x[0];
    assert PayloadOf(packed)[2..33] == Reverse(x)[..31] == Reverse(packed[1..]);
  }

  /** A payload is rebuilt exactly when its coordinate leaves the top bit free for the parity. */
  lemma PayloadRebuilt(payload: seq<Byte>)
    requires WellFormedPayload(payload)
    ensures PayloadOf(PackedOf(payload)) == payload <==> payload[33] < 128
  {
    var again := PayloadOf(PackedOf(payload));
    PackedTop(payload);
    PayloadEnds(PackedOf(payload));
    assert Reverse(Reverse(payload[2..33])) == payload[2..33];
    SameParts(again, payload);
  }

  lemma SameParts(a: seq<Byte>, b: seq<Byte>)
    requires |a| == |b| == 35 && a[0] == b[0] && a[1] == b[1] && a[2..33] == b[2..33]
    ensures a == b <==> a[33] == b[33] && a[34] == b[34]
  {
    assert a == [a[0], a[1]] + a[2..33] + [a[33], a[34]];
    assert b == [b[0], b[1]] + b[2..33] + [b[33], b[34]];
  }

  /**
    The other direction: an address that decodes is what its packed form
    encodes to exactly when its x coordinate is below 2^255, for otherwise the
    top bit of the coordinate is taken for the parity.
   */
  lemma AddressRebuilt(sum: Checksum, address: string)
    requires FourBytes(sum) && PackedFromBase58(sum, address).Success?
    ensures PackedToBase58(sum, PackedFromBase58(sum, address).value) == Success(address)
      <==> CheckDecode(sum, address).value.payload[33] < 128
  {
    var payload := CheckDecode(sum, address).value.payload;
    CheckEncodeDecoded(sum, address, MINA_PUBLIC_KEY_VERSION, payload);
    PayloadRebuilt(payload);
    var again := PayloadOf(PackedOf(payload));
    CheckDecodeEncoded(sum, MINA_PUBLIC_KEY_VERSION, again);
  }

  /** A payload whose coordinate has its top bit set, with the parity of an even key. */
  function HighPayload(): seq<Byte> {
    [1, 1] + seq(31, _ => 0) + [128, 0]
  }

  /**
    A concrete failure, whatever the checksum: the address of a coordinate of
    2^255 decodes, to the packed form of another address.
   */
  lemma HighCoordinateIsLost(sum: Checksum)
    requires FourBytes(sum)
    ensures var address := CheckEncode(sum, MINA_PUBLIC_KEY_VERSION, HighPayload());
      && PackedFromBase58(sum, address).Success?
      && PackedToBase58(sum, PackedFromBase58(sum, address).value).Success?
      && PackedToBase58(sum, PackedFromBase58(sum, address).value).value != address
  {
    var payload := HighPayload();
    assert payload[33] == 128 && payload[34] == 0;
    var address := CheckEncode(sum, MINA_PUBLIC_KEY_VERSION, payload);
    CheckDecodeEncoded(sum, MINA_PUBLIC_KEY_VERSION, payload);
    AddressRebuilt(sum, address);
  }

  method PackedAddressToBase58(sum: Checksum, packed: seq<Byte>) returns (r: Result<string>)
    ensures r == PackedToBase58(sum, packed)
  {
    if |packed| != 32 {
      return Failure(Invalid);
    }
    var bytes := packed;
    var isOdd := bytes[0] >= 0x80;
    bytes := bytes[0 := bytes[0] % 0x80];
    var payload: seq<Byte> := [1, 1];
    payload := payload + Reverse(bytes);
    payload := payload + [if isOdd then 1 else 0];
    var body := [MINA_PUBLIC_KEY_VERSION] + payload;
    var text := EncodeBytes(body + sum(body));
    return Success(text);
  }

  method PackedAddressFromBase58(sum: Checksum, address: string) returns (r: Result<seq<Byte>>)
    ensures r == PackedFromBase58(sum, address)
  {
    var bytes :- DecodeText(address);
    if |bytes| < 5 {
      return Failure(Invalid);
    }
    var body := bytes[..|bytes| - 4];
    if bytes[|bytes| - 4..] != sum(body) {
      return Failure(Mismatch);
    }
    if body[0] != MINA_PUBLIC_KEY_VERSION {
      return Failure(Invalid);
    }
    r := Unpack(body[1..]);
  }

  /** The payload's own checks, and its bytes in packed order. */
  method Unpack(payload: seq<Byte>) returns (r: Result<seq<Byte>>)
    ensures r == if WellFormedPayload(payload) then Success(PackedOf(payload)) else Failure(Invalid)
  {
    if |payload| != MINA_PUBLIC_KEY_PAYLOAD_LEN || payload[0] != 1 || payload[1] != 1 || payload[34] > 1 {
      return Failure(Invalid);
    }
    var packed := Reverse(payload[2..34]);
    if payload[34] == 1 && packed[0] < 0x80 {
      packed := packed[0 := packed[0] + 0x80];
    }
    return Success(packed);
  }
}
