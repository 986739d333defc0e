/**
 * The record shapes of the `products` and `cart_items` tables and the Zod
 * schemas that decide which request bodies are accepted (shared/schema.ts).
 *
 * Strings are sequences of Unicode scalar values; Zod's `min`/`max` on a
 * string count UTF-16 code units, which `Utf16Length` reproduces. JSON numbers
 * are `real`s. A price is compared in whole cents, which is exact for every
 * string the price pattern admits.
 */
module Schema {
  import opened Wrappers

  /** A stored product: exactly an id, a name, a price string and an image URL. */
  datatype Product = Product(id: int, name: string, price: string, image: string)

  /** A stored cart line. The quantity is a JSON number, so it may be fractional. */
  datatype CartItem = CartItem(id: int, productId: int, quantity: real)

  /** A product as accepted by `insertProductSchema`: the fields without an id. */
  datatype InsertProduct = InsertProduct(name: string, price: string, image: string)

  /** A cart line request as accepted by `insertCartItemSchema`. */
  datatype InsertCartItem = InsertCartItem(productId: int, quantity: real)

  /** The outcome of a Zod `parse`: the parsed value, or a thrown ZodError. */
  datatype Parse<+T> = Parsed(value: T) | ZodError

  /**
   * Request bodies. A field is `None` when it is absent or holds a JSON value
   * of the wrong type (Zod reports `invalid_type` for both).
   */
  datatype ProductBody = ProductBody(name: Option<string>, price: Option<string>, image: Option<string>)
  datatype CartItemBody = CartItemBody(productId: Option<int>, quantity: Option<real>)

  // ---------------------------------------------------------------------------
  // String measures and character classes

  /** The number of UTF-16 code units of `s` (JavaScript's `length`). */
  function Utf16Length(s: string): (n: nat)
    ensures |s| <= n <= 2 * |s|
  {
    if s == [] then 0 else (if s[0] as int >= 0x1_0000 then 2 else 1) + Utf16Length(s[1..])
  }

  /** A string of Basic Multilingual Plane characters has one code unit per character. */
  lemma {:induction false} BmpLength(s: string)
    requires forall i :: 0 <= i < |s| ==> s[i] as int < 0x1_0000
    ensures Utf16Length(s) == |s|
  {
    if s != [] {
      BmpLength(s[1..]);
    }
  }

  predicate IsDigit(c: char) {
    '0' <= c <= '9'
  }

  predicate IsAsciiLetter(c: char) {
    'a' <= c <= 'z' || 'A' <= c <= 'Z'
  }

  /** The class `\s` of a JavaScript regular expression without the `u` flag. */
  predicate IsJsWhitespace(c: char) {
    c == '\t' || c == '\n' || c == '\U{B}' || c == '\U{C}' || c == '\r' || c == ' '
    || c == '\U{A0}' || c == '\U{1680}' || ('\U{2000}' <= c <= '\U{200A}')
    || c == '\U{2028}' || c == '\U{2029}' || c == '\U{202F}' || c == '\U{205F}'
    || c == '\U{3000}' || c == '\U{FEFF}'
  }

  /** The class `[a-zA-Z0-9\s\-_]` of the product name pattern. */
  predicate IsNameChar(c: char) {
    IsAsciiLetter(c) || IsDigit(c) || IsJsWhitespace(c) || c == '-' || c == '_'
  }

  predicate StartsWith(s: string, prefix: string) {
    |prefix| <= |s| && s[..|prefix|] == prefix
  }

  // ---------------------------------------------------------------------------
  // name: z.string().min(3).max(100).regex(/^[a-zA-Z0-9\s\-_]+$/)

  predicate ValidName(s: string) {
    3 <= Utf16Length(s) <= 100 && forall i :: 0 <= i < |s| ==> IsNameChar(s[i])
  }

  /** A name is accepted iff it has 3 to 100 characters, each from the name class. */
  lemma NameAccepted(s: string)
    ensures ValidName(s) <==> 3 <= |s| <= 100 && forall i :: 0 <= i < |s| ==> IsNameChar(s[i])
  {
    if forall i :: 0 <= i < |s| ==> IsNameChar(s[i]) {
      BmpLength(s);
    }
  }

  // ---------------------------------------------------------------------------
  // price: z.string().regex(/^\d+(\.\d{1,2})?$/).transform(...).refine(...)

  /** The length of the run of digits at the start of `s`. */
  function LeadingDigits(s: string): (n: nat)
    ensures n <= |s|
    ensures forall i :: 0 <= i < n ==> IsDigit(s[i])
    ensures n < |s| ==> !IsDigit(s[n])
  {
    if s == [] || !IsDigit(s[0]) then 0 else 1 + LeadingDigits(s[1..])
  }

  /** The price pattern: one or more digits, optionally '.' and one or two digits. */
  predicate PriceFormat(s: string) {
    var n := LeadingDigits(s);
    n >= 1 && (n == |s| || (s[n] == '.' && 2 <= |s| - n <= 3 && LeadingDigits(s[n + 1..]) == |s| - n - 1))
  }

  function DigitValue(c: char): nat
    requires IsDigit(c)
  {
    c as int - '0' as int
  }

  /** The value of a string of decimal digits. */
  function DigitsValue(d: string): nat
    requires forall i :: 0 <= i < |d| ==> IsDigit(d[i])
  {
    if d == [] then 0 else DigitsValue(d[..|d| - 1]) * 10 + DigitValue(d[|d| - 1])
  }

  /** The value of a well-formed price string in cents (what `parseFloat` reads, times 100). */
  function Cents(s: string): nat
    requires PriceFormat(s)
  {
    var n := LeadingDigits(s);
    var whole := DigitsValue(s[..n]) * 100;
    if n == |s| then whole
    else if |s| - n == 2 then whole + DigitValue(s[n + 1]) * 10
    else whole + DigitValue(s[n + 1]) * 10 + DigitValue(s[n + 2])
  }

  /** `parseFloat(val) >= 0.01 && parseFloat(val) <= 999999.99`, in cents. */
  predicate PriceInRange(s: string)
    requires PriceFormat(s)
  {
    1 <= Cents(s) <= 99_999_999
  }

  /** The transform: an in-range price is kept, any other is rewritten to "0". */
  function TransformPrice(s: string): string
    requires PriceFormat(s)
  {
    if PriceInRange(s) then s else "0"
  }

  /** The three steps of the price schema in order: pattern, transform, refine. */
  function ParsePrice(s: string): Parse<string> {
    if !PriceFormat(s) then ZodError
    else
      var t := TransformPrice(s);
      if PriceFormat(t) && PriceInRange(t) then Parsed(t) else ZodError
  }

  lemma ZeroPrice()
    ensures PriceFormat("0") && Cents("0") == 0
  {
    assert LeadingDigits("0"[1..]) == 0;
    assert "0"[..1] == "0";
    assert DigitsValue("0") == DigitsValue("0"[..0]) * 10 + 0;
  }

  /**
   * A price is accepted iff it matches the pattern and lies in
   * [0.01, 999999.99]; an accepted price comes out of the transform unchanged,
   * and an out-of-range one is rewritten to "0", which the refine rejects.
   */
  lemma PriceAccepted(s: string)
    ensures ParsePrice(s).Parsed? <==> PriceFormat(s) && 1 <= Cents(s) <= 99_999_999
    ensures ParsePrice(s).Parsed? ==> ParsePrice(s).value == s
    ensures PriceFormat(s) && !PriceInRange(s) ==> TransformPrice(s) == "0" && !PriceInRange("0")
  {
    ZeroPrice();
  }

  // A decimal rendering of an amount of cents, to show the range is reached.

  function DigitChar(d: nat): (c: char)
    requires d < 10
    ensures IsDigit(c) && DigitValue(c) == d
  {
    ('0' as int + d) as char
  }

  /** The decimal digits of `n`, without leading zeros. */
  function NatDigits(n: nat): (d: string)
    ensures |d| >= 1 && forall i :: 0 <= i < |d| ==> IsDigit(d[i])
  {
    if n < 10 then [DigitChar(n)] else NatDigits(n / 10) + [DigitChar(n % 10)]
  }

  lemma {:induction false} NatDigitsValue(n: nat)
    ensures DigitsValue(NatDigits(n)) == n
  {
    var d := NatDigits(n);
    if n >= 10 {
      NatDigitsValue(n / 10);
      assert d[..|d| - 1] == NatDigits(n / 10);
    }
  }

  /** `c` cents written as "<whole>.<two digits>". */
  function PriceString(c: nat): string {
    NatDigits(c / 100) + ['.', DigitChar(c / 10 % 10), DigitChar(c % 10)]
  }

  /** Every amount from one cent to 999999.99 has a price string that is accepted with that value. */
  lemma PriceStringAccepted(c: nat)
    requires 1 <= c <= 99_999_999
    ensures PriceFormat(PriceString(c)) && Cents(PriceString(c)) == c
    ensures ParsePrice(PriceString(c)) == Parsed(PriceString(c))
  {
    PriceStringCents(c);
    PriceAccepted(PriceString(c));
  }

  /** `PriceString(c)` matches the pattern and reads back as `c` cents. */
  lemma PriceStringCents(c: nat)
    ensures PriceFormat(PriceString(c)) && Cents(PriceString(c)) == c
  {
    var w := NatDigits(c / 100);
    var s := PriceString(c);
    var n := |w|;
    assert s[..n] == w;
    assert s[n] == '.' && |s| == n + 3;
    LeadingDigitsExact(s, n);
    LeadingDigitsExact(s[n + 1..], 2);
    NatDigitsValue(c / 100);
    assert DigitValue(s[n + 1]) == c / 10 % 10 && DigitValue(s[n + 2]) == c % 10;
    assert c % 100 == c / 10 % 10 * 10 + c % 10;
    assert c == c / 100 * 100 + c % 100;
  }

  /** `LeadingDigits` is the first position that does not hold a digit. */
  lemma LeadingDigitsExact(s: string, n: nat)
    requires n <= |s|
    requires forall i :: 0 <= i < n ==> IsDigit(s[i])
    requires n < |s| ==> !IsDigit(s[n])
    ensures LeadingDigits(s) == n
  {

  }

  // ---------------------------------------------------------------------------
  // image: z.string().url().startsWith("https://").min(5).max(500)

  /** `isUrl` stands for Zod's `url()` check, which is not modelled. */
  predicate ValidImage(s: string, isUrl: string -> bool) {
    isUrl(s) && StartsWith(s, "https://") && 5 <= Utf16Length(s) <= 500
  }

  /** The minimum of five code units never decides: the required prefix already has eight. */
  lemma ImageAccepted(s: string, isUrl: string -> bool)
    ensures ValidImage(s, isUrl) <==> isUrl(s) && StartsWith(s, "https://") && Utf16Length(s) <= 500
  {
  }

  // ---------------------------------------------------------------------------
  // quantity: z.number().int().min(1).max(100)

  /** The whole number `n` as a JSON number. */
  function Whole(n: int): real {
    n as real
  }

  predicate IsInteger(q: real) {
    q.Floor as real == q
  }

  predicate ValidCartQuantity(q: real) {
    IsInteger(q) && 1.0 <= q <= 100.0
  }

  /** A cart quantity is accepted iff it is one of the whole numbers 1 to 100. */
  lemma CartQuantityAccepted(q: real)
    ensures ValidCartQuantity(q) <==> exists n: int :: 1 <= n <= 100 && q == Whole(n)
  {
    if ValidCartQuantity(q) {
      var n := q.Floor;
      assert 1 <= n <= 100 && q == Whole(n);
    }
  }

  // ---------------------------------------------------------------------------
  // Whole schemas

  /** `insertProductSchema.parse(body)`; Zod's `url()` is the parameter `isUrl`. */
  function ParseProduct(body: ProductBody, isUrl: string -> bool): (r: Parse<InsertProduct>)
    ensures r.Parsed? <==>
      && body.name.Some? && ValidName(body.name.value)
      && body.price.Some? && PriceFormat(body.price.value) && PriceInRange(body.price.value)
      && body.image.Some? && ValidImage(body.image.value, isUrl)
    ensures r.Parsed? ==> r.value == InsertProduct(body.name.value, body.price.value, body.image.value)
  {
    if body.name.None? || body.price.None? || body.image.None? then ZodError
    else
      var price := ParsePrice(body.price.value);
      PriceAccepted(body.price.value);
      if ValidName(body.name.value) && price.Parsed? && ValidImage(body.image.value, isUrl)
      then Parsed(InsertProduct(body.name.value, price.value, body.image.value))
      else ZodError
  }

  /**
   * `insertCartItemSchema.parse(body)`: a body is accepted iff it names a
   * product and asks for a whole number of units from 1 to 100, and the
   * parsed item carries both unchanged.
   */
  function ParseCartItem(body: CartItemBody): (r: Parse<InsertCartItem>)
    ensures r.Parsed? <==> body.productId.Some? && exists n: int :: 1 <= n <= 100 && body.quantity == Some(Whole(n))
    ensures r.Parsed? ==> r.value == InsertCartItem(body.productId.value, body.quantity.value)
  {
    match body.quantity
    case None => ZodError
    case Some(q) =>
      CartQuantityAccepted(q);
      if body.productId.Some? && ValidCartQuantity(q) then Parsed(InsertCartItem(body.productId.value, q)) else ZodError
  }
}
