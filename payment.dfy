/** The card-payment form of the checkout (components/PaymentForm.tsx): the card number, name,
    expiry and CVV fields, their per-keystroke filters and formatters, card-type detection, the
    Luhn check and whole-form validation. */
module Payment {
  import opened Wrappers
  import opened Seqs
  import opened Text

  // ---------------------------------------------------------------------------------------------
  // Card number formatting: `numbers.match(/.{1,4}/g)?.join(" ") || numbers`
  // ---------------------------------------------------------------------------------------------

  /** All groups glued back together. */
  function Concat(groups: seq<string>): string {
    if groups == [] then "" else groups[0] + Concat(groups[1..])
  }

  /** `numbers.match(/.{1,4}/g)` on a string without line terminators: the greedy global match of
      one to four characters, or no groups (`null`) for the empty string. */
  function Chunks(s: string): (groups: seq<string>)
    ensures Concat(groups) == s
    ensures forall i :: 0 <= i < |groups| ==> 1 <= |groups[i]| <= 4
    ensures forall i :: 0 <= i < |groups| - 1 ==> |groups[i]| == 4
    decreases |s|
  {
    if s == [] then []
    else if |s| <= 4 then [s]
    else [s[..4]] + Chunks(s[4..])
  }

  /** `groups.join(" ")`. */
  function Join(groups: seq<string>): string {
    if groups == [] then ""
    else if |groups| == 1 then groups[0]
    else groups[0] + " " + Join(groups[1..])
  }

  /** `formatCardNumber`: spaces removed, then groups of four separated by one space. */
  function FormatCardNumber(value: string): string {
    var numbers := RemoveSpaces(value);
    var groups := Chunks(numbers);
    if groups == [] then numbers else Join(groups)
  }

  /** Joining the four-character groups of a space-free string and deleting the spaces again gives
      the string back. */
  lemma {:induction false} JoinChunksRemoveSpaces(s: string)
    requires NoSpaces(s)
    ensures RemoveSpaces(Join(Chunks(s))) == s
    decreases |s|
  {
    if s == [] {
    } else if |s| <= 4 {
      RemoveSpacesNoSpaces(s);
    } else {
      var rest := Chunks(s[4..]);
      assert Chunks(s) == [s[..4]] + rest;
      assert rest != [] by { assert Concat(rest) == s[4..]; }
      assert Join(Chunks(s)) == s[..4] + " " + Join(rest);
      RemoveSpacesConcat(s[..4] + " ", Join(rest));
      RemoveSpacesConcat(s[..4], " ");
      RemoveSpacesNoSpaces(s[..4]);
      JoinChunksRemoveSpaces(s[4..]);
      assert s[..4] + s[4..] == s;
    }
  }

  /** Deleting the spaces of a formatted card number gives the spaces-free input back: the
      formatter only inserts separators. */
  lemma FormatRemoveSpaces(value: string)
    ensures RemoveSpaces(FormatCardNumber(value)) == RemoveSpaces(value)
  {
    var numbers := RemoveSpaces(value);
    if Chunks(numbers) == [] {
      FilterIdempotent(value, IsNotSpace);
    } else {
      JoinChunksRemoveSpaces(numbers);
    }
  }

  /** For a spaces-free input (what `handleCardNumberChange` passes) the round trip is exact. */
  lemma FormatRoundTrip(digits: string)
    requires NoSpaces(digits)
    ensures RemoveSpaces(FormatCardNumber(digits)) == digits
  {
    FormatRemoveSpaces(digits);
    RemoveSpacesNoSpaces(digits);
  }

  /** Formatting an already formatted number changes nothing. */
  lemma FormatIdempotent(value: string)
    ensures FormatCardNumber(FormatCardNumber(value)) == FormatCardNumber(value)
  {
    FormatRemoveSpaces(value);
  }

  /** The formatted length: one separator per complete group of four except the last. */
  lemma {:induction false} JoinChunksLength(s: string)
    requires s != []
    ensures |Join(Chunks(s))| == |s| + (|s| - 1) / 4
    decreases |s|
  {
    if |s| > 4 {
      var rest := Chunks(s[4..]);
      assert rest != [] by { assert Concat(rest) == s[4..]; }
      JoinChunksLength(s[4..]);
    }
  }

  /** Sixteen digits are shown in 19 characters: four groups and three spaces. */
  lemma FormattedSixteenDigits(digits: string)
    requires NoSpaces(digits) && |digits| == 16
    ensures |FormatCardNumber(digits)| == 19
  {
    RemoveSpacesNoSpaces(digits);
    JoinChunksLength(digits);
  }

  // ---------------------------------------------------------------------------------------------
  // The Luhn check (ISO/IEC 7812-1, Annex B): `validateCardNumber`
  // ---------------------------------------------------------------------------------------------

  /** What one digit adds to the Luhn sum: a doubled digit above 9 loses 9. */
  function LuhnTerm(d: nat, doubled: bool): (t: nat)
    requires d <= 9
    ensures t <= 9
    ensures !doubled ==> t == d
  {
    if doubled then (if 2 * d > 9 then 2 * d - 9 else 2 * d) else d
  }

  /** The Luhn sum of `ds`, the rightmost digit doubled iff `doubleLast`, alternating leftwards. */
  function LuhnSumFrom(ds: string, doubleLast: bool): nat
    requires AllDigits(ds)
    decreases |ds|
  {
    if ds == [] then 0
    else LuhnTerm(DigitValue(ds[|ds| - 1]), doubleLast) + LuhnSumFrom(ds[..|ds| - 1], !doubleLast)
  }

  /** The Luhn sum of a full number: the rightmost digit (the check digit) is not doubled. */
  function LuhnSum(ds: string): nat
    requires AllDigits(ds)
  {
    LuhnSumFrom(ds, false)
  }

  /** What `validateCardNumber` accepts: with whitespace removed, exactly sixteen ASCII digits whose
      Luhn sum is a multiple of ten. */
  predicate CardNumberAccepted(number: string) {
    var digits := RemoveSpaces(number);
    |digits| == 16 && AllDigits(digits) && LuhnSum(digits) % 10 == 0
  }

  /** The Luhn sum of a concatenation: the left part's parity shifts by the right part's length. */
  lemma {:induction false} LuhnSumConcat(a: string, c: string, doubleLast: bool)
    requires AllDigits(a) && AllDigits(c)
    ensures AllDigits(a + c)
    ensures LuhnSumFrom(a + c, doubleLast)
         == LuhnSumFrom(a, if |c| % 2 == 0 then doubleLast else !doubleLast) + LuhnSumFrom(c, doubleLast)
    decreases |c|
  {
    assert AllDigits(a + c) by {
      forall i | 0 <= i < |a + c| ensures IsDigit((a + c)[i]) {
        if i < |a| { assert (a + c)[i] == a[i]; } else { assert (a + c)[i] == c[i - |a|]; }
      }
    }
    if c == [] {
      assert a + c == a;
    } else {
      var c' := c[..|c| - 1];
      assert (a + c)[..|a + c| - 1] == a + c';
      assert (a + c)[|a + c| - 1] == c[|c| - 1];
      LuhnSumConcat(a, c', !doubleLast);
    }
  }

  /** Processing one more digit on the left, as the source's loop does. */
  lemma LuhnSumPrepend(c: char, t: string)
    requires IsDigit(c) && AllDigits(t)
    ensures AllDigits([c] + t)
    ensures LuhnSum([c] + t) == LuhnTerm(DigitValue(c), |t| % 2 == 1) + LuhnSum(t)
  {
    LuhnSumConcat([c], t, false);
    assert [c][..0] == [];
  }

  /** `validateCardNumber`: strips whitespace, rejects anything but sixteen digits, then walks the
      digits right to left, doubling every second one. */
  method ValidateCardNumber(number: string) returns (valid: bool)
    ensures valid == CardNumberAccepted(number)
  {
    var digits := RemoveSpaces(number);
    if !(|digits| == 16 && AllDigits(digits)) {
      return false;
    }
    var sum := 0;
    var isEven := false;
    var i := |digits| - 1;
    while i >= 0
      invariant -1 <= i < |digits|
      invariant sum == LuhnSum(digits[i + 1..])
      invariant isEven == ((|digits| - 1 - i) % 2 == 1)
      decreases i
    {
      var digit := DigitValue(digits[i]);
      if isEven {
        digit := digit * 2;
        if digit > 9 {
          digit := digit - 9;
        }
      }
      LuhnSumPrepend(digits[i], digits[i + 1..]);
      assert [digits[i]] + digits[i + 1..] == digits[i..];
      sum := sum + digit;
      isEven := !isEven;
      i := i - 1;
    }
    assert digits[0..] == digits;
    valid := sum % 10 == 0;
  }

  /** The check digit ISO/IEC 7812-1 assigns to a payload: the digit that brings the Luhn sum to a
      multiple of ten. */
  function CheckDigit(payload: string): (d: nat)
    requires AllDigits(payload)
    ensures d <= 9
  {
    (10 - LuhnSumFrom(payload, true) % 10) % 10
  }

  /** A sixteen-digit number is accepted exactly when its last digit is the check digit of the
      first fifteen. */
  lemma AcceptedIffCheckDigit(digits: string)
    requires NoSpaces(digits) && |digits| == 16 && AllDigits(digits)
    ensures CardNumberAccepted(digits) <==> DigitValue(digits[15]) == CheckDigit(digits[..15])
  {
    RemoveSpacesNoSpaces(digits);
    assert digits[..|digits| - 1] == digits[..15];
    var s := LuhnSumFrom(digits[..15], true);
    assert LuhnSum(digits) == DigitValue(digits[15]) + s;
    CompletesToTen(DigitValue(digits[15]), s);
  }

  /** The one digit that brings a sum to a multiple of ten. */
  lemma CompletesToTen(d: nat, s: nat)
    requires d <= 9
    ensures (d + s) % 10 == 0 <==> d == (10 - s % 10) % 10
  {
    var q, r := s / 10, s % 10;
    assert s == 10 * q + r;
    assert d + s == 10 * q + (d + r);
  }

  /** Doubling with the Luhn rule is a permutation of the digits modulo ten: distinct digits give
      distinct terms. */
  lemma LuhnTermInjective(d1: nat, d2: nat, doubled: bool)
    requires d1 <= 9 && d2 <= 9 && d1 != d2
    ensures LuhnTerm(d1, doubled) != LuhnTerm(d2, doubled)
  {
  }

  /** The parity `doubleLast` shifted left by `n` digits. */
  function Shifted(doubleLast: bool, n: nat): bool {
    if n % 2 == 0 then doubleLast else !doubleLast
  }

  /** The Luhn sum split around one digit. */
  lemma LuhnSumAround(pre: string, c: char, post: string, doubleLast: bool)
    requires AllDigits(pre) && IsDigit(c) && AllDigits(post)
    ensures AllDigits(pre + [c] + post)
    ensures LuhnSumFrom(pre + [c] + post, doubleLast)
         == LuhnSumFrom(pre, Shifted(doubleLast, |post| + 1))
            + LuhnTerm(DigitValue(c), Shifted(doubleLast, |post|))
            + LuhnSumFrom(post, doubleLast)
  {
    LuhnSumConcat(pre + [c], post, doubleLast);
    LuhnSumConcat(pre, [c], Shifted(doubleLast, |post|));
    assert [c][..0] == [];
  }

  /** Changing one digit changes the Luhn sum modulo ten. */
  lemma LuhnSumChangesWithDigit(pre: string, x: char, y: char, post: string)
    requires AllDigits(pre) && IsDigit(x) && IsDigit(y) && AllDigits(post) && x != y
    ensures AllDigits(pre + [x] + post) && AllDigits(pre + [y] + post)
    ensures LuhnSum(pre + [x] + post) % 10 != LuhnSum(pre + [y] + post) % 10
  {
    LuhnSumAround(pre, x, post, false);
    LuhnSumAround(pre, y, post, false);
    var parity := Shifted(false, |post|);
    LuhnTermInjective(DigitValue(x), DigitValue(y), parity);
    TermsDifferModTen(LuhnTerm(DigitValue(x), parity), LuhnTerm(DigitValue(y), parity),
                      LuhnSumFrom(pre, Shifted(false, |post| + 1)) + LuhnSumFrom(post, false));
  }

  /** Luhn detects every single-digit error: two sixteen-digit numbers that differ in exactly one
      position are never both accepted. */
  lemma SingleDigitErrorDetected(a: string, b: string, k: nat)
    requires NoSpaces(a) && NoSpaces(b) && AllDigits(a) && AllDigits(b)
    requires |a| == |b| == 16 && k < 16 && a[k] != b[k]
    requires forall i :: 0 <= i < 16 && i != k ==> a[i] == b[i]
    ensures !(CardNumberAccepted(a) && CardNumberAccepted(b))
  {
    RemoveSpacesNoSpaces(a);
    RemoveSpacesNoSpaces(b);
    var pre, post := a[..k], a[k + 1..];
    assert b[..k] == pre && b[k + 1..] == post;
    assert a == pre + [a[k]] + post;
    assert b == pre + [b[k]] + post;
    LuhnSumChangesWithDigit(pre, a[k], b[k], post);
  }

  lemma TermsDifferModTen(ta: nat, tb: nat, rest: nat)
    requires ta <= 9 && tb <= 9 && ta != tb
    ensures (ta + rest) % 10 != (tb + rest) % 10
  {
  }

  /** One step of the Luhn sum over a prefix of a concrete number. */
  lemma LuhnPrefixStep(s: string, n: nat, doubleLast: bool)
    requires 0 < n <= |s| && AllDigits(s)
    ensures AllDigits(s[..n]) && AllDigits(s[..n - 1])
    ensures LuhnSumFrom(s[..n], doubleLast)
         == LuhnTerm(DigitValue(s[n - 1]), doubleLast) + LuhnSumFrom(s[..n - 1], !doubleLast)
  {
    assert s[..n][..n - 1] == s[..n - 1];
  }

  /** The Luhn sum of five digits, term by term. */
  lemma LuhnSumFive(s: string, doubleLast: bool)
    requires |s| == 5 && AllDigits(s)
    ensures LuhnSumFrom(s, doubleLast)
         == LuhnTerm(DigitValue(s[4]), doubleLast) + LuhnTerm(DigitValue(s[3]), !doubleLast)
            + LuhnTerm(DigitValue(s[2]), doubleLast) + LuhnTerm(DigitValue(s[1]), !doubleLast)
            + LuhnTerm(DigitValue(s[0]), doubleLast)
  {
    assert s[..5] == s;
    LuhnPrefixStep(s, 5, doubleLast);
    var rest3 := LuhnSumFrom(s[..3], doubleLast);
    LuhnPrefixStep(s, 4, !doubleLast);
    LuhnPrefixStep(s, 3, doubleLast);
    LuhnPrefixStep(s, 2, !doubleLast);
    LuhnPrefixStep(s, 1, doubleLast);
    assert s[..0] == [];
    assert rest3 == LuhnTerm(DigitValue(s[2]), doubleLast) + LuhnTerm(DigitValue(s[1]), !doubleLast)
                    + LuhnTerm(DigitValue(s[0]), doubleLast);
  }

  /** The Luhn sum of the first fifteen digits of the example numbers, 453201511283036, the last
      of them doubled. */
  lemma ExamplePayloadSum(p: string)
    requires ExamplePayload(p)
    ensures LuhnSumFrom(p, true) == 44
  {
    var a, c, e := p[..5], p[5..10], p[10..];
    assert p == (a + c) + e && a + c == p[..10];
    LuhnSumConcat(a + c, e, true);
    LuhnSumConcat(a, c, false);
    LuhnSumFive(a, true);
    LuhnSumFive(c, false);
    LuhnSumFive(e, true);
  }

  /** The verdict on a space-free sixteen-digit number is its Luhn sum modulo ten. */
  lemma VerdictFromSum(s: string)
    requires NoSpaces(s) && AllDigits(s) && |s| == 16
    ensures CardNumberAccepted(s) <==> LuhnSum(s) % 10 == 0
  {
    RemoveSpacesNoSpaces(s);
  }

  /** The verdict on sixteen digits from the check digit and the sum over the other fifteen. */
  lemma VerdictFromPayload(s: string)
    requires AllDigits(s) && |s| == 16
    ensures AllDigits(s[..15])
    ensures CardNumberAccepted(s) <==> (DigitValue(s[15]) + LuhnSumFrom(s[..15], true)) % 10 == 0
  {
    DigitsHaveNoSpaces(s);
    LuhnPrefixStep(s, 16, false);
    assert s[..16] == s;
    VerdictFromSum(s);
  }

  /** The example numbers are sixteen digits each. */
  lemma ExampleDigits(good: string, bad: string)
    requires good == "4532015112830366" && bad == "4532015112830367"
    ensures AllDigits(good) && AllDigits(bad) && |good| == |bad| == 16
  {
  }

  /** The two example numbers share their first fifteen digits. */
  lemma ExampleShapes(good: string, bad: string)
    requires good == "4532015112830366" && bad == "4532015112830367"
    ensures good[..15] == bad[..15] && good[15] == '6' && bad[15] == '7'
    ensures ExamplePayload(good[..15])
  {
    ExampleDigits(good, bad);
  }

  /** The first fifteen digits of the example numbers: 453201511283036. */
  ghost predicate ExamplePayload(p: string) {
    && |p| == 15 && AllDigits(p)
    && p[0] == '4' && p[1] == '5' && p[2] == '3' && p[3] == '2' && p[4] == '0'
    && p[5] == '1' && p[6] == '5' && p[7] == '1' && p[8] == '1' && p[9] == '2'
    && p[10] == '8' && p[11] == '3' && p[12] == '0' && p[13] == '3' && p[14] == '6'
  }

  /** Two standard test numbers: "4532015112830366" is accepted, and changing its check digit to 7
      makes it rejected. */
  lemma LuhnExamples(good: string, bad: string)
    requires good == "4532015112830366" && bad == "4532015112830367"
    ensures CardNumberAccepted(good)
    ensures !CardNumberAccepted(bad)
  {
    ExampleDigits(good, bad);
    ExampleShapes(good, bad);
    ExamplePayloadSum(good[..15]);
    VerdictFromPayload(good);
    VerdictFromPayload(bad);
  }

  /** Spaces do not matter to validation, so the formatted field validates as the raw digits do. */
  lemma FormatPreservesAcceptance(value: string)
    ensures CardNumberAccepted(FormatCardNumber(value)) == CardNumberAccepted(value)
  {
    FormatRemoveSpaces(value);
  }

  // ---------------------------------------------------------------------------------------------
  // Card type: `getCardType`
  // ---------------------------------------------------------------------------------------------

  datatype CardType = Visa | Mastercard | Amex | Unknown

  /** The brand for a leading digit. */
  function BrandOf(c: char): CardType {
    if c == '4' then Visa else if c == '5' then Mastercard else if c == '3' then Amex else Unknown
  }

  /** `getCardType`: decided by the first character after whitespace is removed. */
  function GetCardType(number: string): CardType {
    var digits := RemoveSpaces(number);
    if |digits| > 0 && digits[0] == '4' then Visa
    else if |digits| > 0 && digits[0] == '5' then Mastercard
    else if |digits| > 0 && digits[0] == '3' then Amex
    else Unknown
  }

  /** The type depends only on the first non-space character of the raw text, and is unknown for
      a blank one. */
  lemma CardTypeByFirstNonSpace(number: string, k: nat)
    requires k <= |number|
    requires forall j :: 0 <= j < k ==> IsSpace(number[j])
    requires k < |number| ==> !IsSpace(number[k])
    ensures GetCardType(number) == if k < |number| then BrandOf(number[k]) else Unknown
  {
    assert number == number[..k] + number[k..];
    RemoveSpacesConcat(number[..k], number[k..]);
    RemoveSpacesAllSpaces(number[..k]);
    if k < |number| {
      assert number[k..] == [number[k]] + number[k + 1..];
      RemoveSpacesConcat([number[k]], number[k + 1..]);
      assert RemoveSpaces([number[k]]) == [number[k]];
    }
  }

  /** Typing further characters after the first digit never changes the detected type. */
  lemma CardTypeStableWhileTyping(typed: string, more: string)
    requires RemoveSpaces(typed) != ""
    ensures GetCardType(typed + more) == GetCardType(typed)
  {
    RemoveSpacesConcat(typed, more);
  }

  /** The formatted field shows the same card type as the raw input. */
  lemma CardTypeOfFormatted(value: string)
    ensures GetCardType(FormatCardNumber(value)) == GetCardType(value)
  {
    FormatRemoveSpaces(value);
  }

  // ---------------------------------------------------------------------------------------------
  // Expiry formatting: `formatExpiry`
  // ---------------------------------------------------------------------------------------------

  function Min(a: int, b: int): int {
    if a <= b then a else b
  }

  /** `formatExpiry`: only the digits; from two digits on, "MM/" followed by at most two more. */
  function FormatExpiry(value: string): string {
    var numbers := KeepDigits(value);
    if |numbers| >= 2 then numbers[..2] + "/" + numbers[2..Min(4, |numbers|)] else numbers
  }

  /** The digits of the formatted text are the first four digits of the input; the slash is the
      only other character, directly after the month. */
  lemma FormatExpiryDigits(value: string)
    ensures KeepDigits(FormatExpiry(value)) == KeepDigits(value)[..Min(4, |KeepDigits(value)|)]
    ensures var n := |KeepDigits(value)|;
      |FormatExpiry(value)| == (if n >= 2 then Min(4, n) + 1 else n)
    ensures |KeepDigits(value)| >= 2 ==> FormatExpiry(value)[2] == '/'
  {
    var numbers := KeepDigits(value);
    KeepDigitsAllDigits(numbers);
    if |numbers| >= 2 {
      var mm, yy := numbers[..2], numbers[2..Min(4, |numbers|)];
      assert AllDigits(mm) && AllDigits(yy);
      FilterConcat(mm + "/", yy, IsDigit);
      FilterConcat(mm, "/", IsDigit);
      KeepDigitsAllDigits(mm);
      KeepDigitsAllDigits(yy);
      assert KeepDigits("/") == "";
      assert mm + yy == numbers[..Min(4, |numbers|)];
    }
  }

  /** Every value `handleExpiryChange` lets through (at most four digits) is shown in at most five
      characters. */
  lemma FormatExpiryLength(value: string)
    requires |KeepDigits(value)| <= 4
    ensures |FormatExpiry(value)| <= 5
  {
    FormatExpiryDigits(value);
  }

  /** Re-formatting formatted expiry text changes nothing. */
  lemma FormatExpiryIdempotent(value: string)
    ensures FormatExpiry(FormatExpiry(value)) == FormatExpiry(value)
  {
    FormatExpiryDigits(value);
    var numbers := KeepDigits(value);
    var taken := numbers[..Min(4, |numbers|)];
    assert taken[..Min(4, |taken|)] == taken;
    if |taken| >= 2 {
      assert taken[..2] == numbers[..2];
      assert taken[2..Min(4, |taken|)] == numbers[2..Min(4, |numbers|)];
    }
  }

  /** Backspace on "MM/" hands the two digits back to the handler, which formats them to "MM/"
      again: the trailing slash cannot be deleted on its own. */
  lemma TrailingSlashReappears(month: string)
    requires |month| == 2 && AllDigits(month)
    ensures FormatExpiry(month + "/") == month + "/"
    ensures FormatExpiry(month) == month + "/"
  {
    KeepDigitsAllDigits(month);
    KeepDigitsConcat(month, "/");
    assert KeepDigits("/") == [];
    assert month[..2] == month;
  }

  // ---------------------------------------------------------------------------------------------
  // Whole-form validation: `validateForm`
  // ---------------------------------------------------------------------------------------------

  const CardNumberMessage := "Geçersiz kart numarası"
  const CardNameMessage := "Kart üzerindeki ismi girin"
  const ExpiryFormatMessage := "Geçerli tarih girin (AA/YY)"
  const MonthMessage := "Geçersiz ay"
  const ExpiredMessage := "Kartın süresi dolmuş"
  const CvvMessage := "3 haneli CVV girin"

  /** The `errors` record: one optional message per field. */
  datatype PaymentErrors = PaymentErrors(
    cardNumber: Option<string>,
    cardName: Option<string>,
    expiry: Option<string>,
    cvv: Option<string>)

  const NoPaymentErrors := PaymentErrors(None, None, None, None)

  /** `!cardName.trim() || cardName.length < 3`. */
  function CardNameError(name: string): Option<string> {
    if IsBlank(name) || |name| < 3 then Some(CardNameMessage) else None
  }

  /** The shape of a five-character expiry the field can hold: two digits, "/", two digits. */
  predicate ExpiryParsable(expiry: string) {
    |expiry| == 5 ==>
      IsDigit(expiry[0]) && IsDigit(expiry[1]) && expiry[2] == '/' && IsDigit(expiry[3]) && IsDigit(expiry[4])
  }

  /** The month of "MM/YY" (`Number` of the part before the slash). */
  function ExpiryMonth(expiry: string): nat
    requires |expiry| == 5 && ExpiryParsable(expiry)
  {
    10 * DigitValue(expiry[0]) + DigitValue(expiry[1])
  }

  /** The two-digit year of "MM/YY". */
  function ExpiryYear(expiry: string): nat
    requires |expiry| == 5 && ExpiryParsable(expiry)
  {
    10 * DigitValue(expiry[3]) + DigitValue(expiry[4])
  }

  /** The expiry rules, with the clock read as `currentYear` (full year) and `currentMonth`
      (1 to 12): length five, then a month in 1..12, then not before the current month. */
  function ExpiryError(expiry: string, currentYear: nat, currentMonth: int): Option<string>
    requires ExpiryParsable(expiry)
  {
    if expiry == "" || |expiry| != 5 then Some(ExpiryFormatMessage)
    else
      var month, year := ExpiryMonth(expiry), ExpiryYear(expiry);
      var thisYear := currentYear % 100;
      if month < 1 || month > 12 then Some(MonthMessage)
      else if year < thisYear || (year == thisYear && month < currentMonth) then Some(ExpiredMessage)
      else None
  }

  /** `!cvv || cvv.length !== 3`. */
  function CvvError(cvv: string): Option<string> {
    if cvv == "" || |cvv| != 3 then Some(CvvMessage) else None
  }

  /** The error record `validateForm` builds from the four fields. */
  function PaymentErrorsFor(cardNumber: string, cardName: string, expiry: string, cvv: string,
                            currentYear: nat, currentMonth: int): PaymentErrors
    requires ExpiryParsable(expiry)
  {
    PaymentErrors(
      if CardNumberAccepted(cardNumber) then None else Some(CardNumberMessage),
      CardNameError(cardName),
      ExpiryError(expiry, currentYear, currentMonth),
      CvvError(cvv))
  }

  /** Months counted from year 0 of the two-digit century, to compare (year, month) pairs. */
  function MonthIndex(year: int, month: int): int {
    12 * year + month
  }

  /** The expiry is accepted exactly when it is "MM/YY" with a real month and that month is not
      before the current one; a card expiring in the current month still passes. */
  lemma ExpiryAcceptedIff(expiry: string, currentYear: nat, currentMonth: int)
    requires ExpiryParsable(expiry) && 1 <= currentMonth <= 12
    ensures ExpiryError(expiry, currentYear, currentMonth) == None
        <==> |expiry| == 5 && 1 <= ExpiryMonth(expiry) <= 12
             && MonthIndex(ExpiryYear(expiry), ExpiryMonth(expiry)) >= MonthIndex(currentYear % 100, currentMonth)
  {
  }

  /** A card valid now was valid at every earlier month of the same century. */
  lemma ExpiryValidEarlier(expiry: string, year: nat, month: int, earlierYear: nat, earlierMonth: int)
    requires ExpiryParsable(expiry) && 1 <= month <= 12 && 1 <= earlierMonth <= 12
    requires MonthIndex(earlierYear % 100, earlierMonth) <= MonthIndex(year % 100, month)
    requires ExpiryError(expiry, year, month) == None
    ensures ExpiryError(expiry, earlierYear, earlierMonth) == None
  {
    ExpiryAcceptedIff(expiry, year, month);
    ExpiryAcceptedIff(expiry, earlierYear, earlierMonth);
  }

  /** The form passes exactly when every field passes on its own. */
  lemma FormAcceptedIff(cardNumber: string, cardName: string, expiry: string, cvv: string,
                        currentYear: nat, currentMonth: int)
    requires ExpiryParsable(expiry) && 1 <= currentMonth <= 12
    ensures PaymentErrorsFor(cardNumber, cardName, expiry, cvv, currentYear, currentMonth) == NoPaymentErrors
        <==> && CardNumberAccepted(cardNumber)
             && (exists i :: 0 <= i < |cardName| && !IsSpace(cardName[i])) && |cardName| >= 3
             && |expiry| == 5 && 1 <= ExpiryMonth(expiry) <= 12
             && MonthIndex(ExpiryYear(expiry), ExpiryMonth(expiry)) >= MonthIndex(currentYear % 100, currentMonth)
             && |cvv| == 3
  {
    BlankIffAllSpaces(cardName);
    ExpiryAcceptedIff(expiry, currentYear, currentMonth);
  }

  // ---------------------------------------------------------------------------------------------
  // The form state and its keystroke handlers
  // ---------------------------------------------------------------------------------------------

  /** `handleCardNumberChange` accepts: at most sixteen characters once whitespace is removed, all
      of them digits. */
  predicate CardNumberInputAccepted(input: string) {
    var value := RemoveSpaces(input);
    |value| <= 16 && AllDigits(value)
  }

  /** `handleCardNameChange` accepts: the upper-cased text is made of A-Z and whitespace. */
  predicate CardNameInputAccepted(input: string) {
    var value := ToUpper(input);
    forall i :: 0 <= i < |value| ==> IsUpperOrSpace(value[i])
  }

  /** `handleExpiryChange` accepts: at most four digits (non-digits are dropped first). */
  predicate ExpiryInputAccepted(input: string) {
    |KeepDigits(input)| <= 4
  }

  /** `handleCvvChange` accepts: at most three characters, all digits. */
  predicate CvvInputAccepted(input: string) {
    |input| <= 3 && AllDigits(input)
  }

  /** What the card-number field can hold: the formatted form of at most sixteen digits. */
  predicate CardNumberField(s: string) {
    var digits := RemoveSpaces(s);
    |digits| <= 16 && AllDigits(digits) && s == FormatCardNumber(digits)
  }

  /** What the name field can hold: upper-case letters and whitespace. */
  predicate CardNameField(s: string) {
    forall i :: 0 <= i < |s| ==> IsUpperOrSpace(s[i])
  }

  /** What the expiry field can hold: the formatted form of at most four digits. */
  predicate ExpiryField(s: string) {
    |KeepDigits(s)| <= 4 && s == FormatExpiry(KeepDigits(s))
  }

  /** What the CVV field can hold: at most three digits. */
  predicate CvvField(s: string) {
    |s| <= 3 && AllDigits(s)
  }

  /** The card-number field is at most 19 characters long. */
  lemma CardNumberFieldLength(s: string)
    requires CardNumberField(s)
    ensures |s| <= 19
  {
    var digits := RemoveSpaces(s);
    if digits != [] {
      RemoveSpacesNoSpaces(digits);
      JoinChunksLength(digits);
    }
  }

  /** The expiry field is at most five characters long, and five exactly when it is "MM/YY". */
  lemma ExpiryFieldShape(s: string)
    requires ExpiryField(s)
    ensures |s| <= 5
    ensures ExpiryParsable(s)
  {
    var numbers := KeepDigits(s);
    FormatExpiryDigits(numbers);
    KeepDigitsAllDigits(numbers);
    if |s| == 5 {
      assert |numbers| == 4;
      assert s == numbers[..2] + "/" + numbers[2..4];
      assert s[0] == numbers[0] && s[1] == numbers[1] && s[3] == numbers[2] && s[4] == numbers[3];
    }
  }

  /** The state of `PaymentForm`: the four `useState` text fields and the `errors` record. */
  class PaymentForm {
    var cardNumber: string
    var cardName: string
    var expiry: string
    var cvv: string
    var errors: PaymentErrors

    /** Every field holds only what its keystroke handler can put there. */
    ghost predicate Valid()
      reads this
    {
      CardNumberField(cardNumber) && CardNameField(cardName) && ExpiryField(expiry) && CvvField(cvv)
    }

    /** All fields start empty, with no errors. */
    constructor ()
      ensures Valid()
      ensures cardNumber == "" && cardName == "" && expiry == "" && cvv == ""
      ensures errors == NoPaymentErrors
    {
      cardNumber, cardName, expiry, cvv := "", "", "", "";
      errors := NoPaymentErrors;
    }

    /** `handleCardNumberChange`: an accepted keystroke stores the formatted digits and clears the
        field's error; a rejected one changes nothing. */
    method CardNumberChange(input: string)
      requires Valid()
      modifies this
      ensures Valid()
      ensures if CardNumberInputAccepted(input)
              then cardNumber == FormatCardNumber(RemoveSpaces(input)) && errors == old(errors).(cardNumber := None)
              else cardNumber == old(cardNumber) && errors == old(errors)
      ensures cardName == old(cardName) && expiry == old(expiry) && cvv == old(cvv)
    {
      var value := RemoveSpaces(input);
      if |value| <= 16 && AllDigits(value) {
        var formatted := FormatCardNumber(value);
        FormatRoundTrip(value);
        cardNumber := formatted;
        if errors.cardNumber.Some? {
          errors := errors.(cardNumber := None);
        }
      }
    }

    /** `handleCardNameChange`: the upper-cased text is stored if it is only A-Z and whitespace. */
    method CardNameChange(input: string)
      requires Valid()
      modifies this
      ensures Valid()
      ensures if CardNameInputAccepted(input)
              then cardName == ToUpper(input) && errors == old(errors).(cardName := None)
              else cardName == old(cardName) && errors == old(errors)
      ensures cardNumber == old(cardNumber) && expiry == old(expiry) && cvv == old(cvv)
    {
      var value := ToUpper(input);
      if forall i :: 0 <= i < |value| ==> IsUpperOrSpace(value[i]) {
        cardName := value;
        if errors.cardName.Some? {
          errors := errors.(cardName := None);
        }
      }
    }

    /** `handleExpiryChange`: at most four digits are formatted as "MM/YY" and stored. */
    method ExpiryChange(input: string)
      requires Valid()
      modifies this
      ensures Valid()
      ensures if ExpiryInputAccepted(input)
              then expiry == FormatExpiry(KeepDigits(input)) && errors == old(errors).(expiry := None)
              else expiry == old(expiry) && errors == old(errors)
      ensures cardNumber == old(cardNumber) && cardName == old(cardName) && cvv == old(cvv)
    {
      var value := KeepDigits(input);
      if |value| <= 4 {
        FormatExpiryDigits(value);
        KeepDigitsAllDigits(value);
        assert value[..Min(4, |value|)] == value;
        FormatExpiryIdempotent(value);
        expiry := FormatExpiry(value);
        assert KeepDigits(value) == value;
        if errors.expiry.Some? {
          errors := errors.(expiry := None);
        }
      }
    }

    /** `handleCvvChange`: at most three digits are stored as typed. */
    method CvvChange(input: string)
      requires Valid()
      modifies this
      ensures Valid()
      ensures if CvvInputAccepted(input)
              then cvv == input && errors == old(errors).(cvv := None)
              else cvv == old(cvv) && errors == old(errors)
      ensures cardNumber == old(cardNumber) && cardName == old(cardName) && expiry == old(expiry)
    {
      if |input| <= 3 && AllDigits(input) {
        cvv := input;
        if errors.cvv.Some? {
          errors := errors.(cvv := None);
        }
      }
    }

    /** `validateForm`, with the clock passed in: builds a fresh error record field by field,
        stores it, and reports whether it is empty. */
    method ValidateForm(currentYear: nat, currentMonth: int) returns (ok: bool)
      requires Valid()
      modifies this`errors
      ensures Valid()
      ensures ExpiryParsable(expiry)
      ensures errors == PaymentErrorsFor(cardNumber, cardName, expiry, cvv, currentYear, currentMonth)
      ensures ok <==> errors == NoPaymentErrors
    {
      ExpiryFieldShape(expiry);
      var newErrors := NoPaymentErrors;
      var cardOk := ValidateCardNumber(cardNumber);
      if !cardOk {
        newErrors := newErrors.(cardNumber := Some(CardNumberMessage));
      }
      if IsBlank(cardName) || |cardName| < 3 {
        newErrors := newErrors.(cardName := Some(CardNameMessage));
      }
      if expiry == "" || |expiry| != 5 {
        newErrors := newErrors.(expiry := Some(ExpiryFormatMessage));
      } else {
        var month, year := ExpiryMonth(expiry), ExpiryYear(expiry);
        var thisYear := currentYear % 100;
        if month < 1 || month > 12 {
          newErrors := newErrors.(expiry := Some(MonthMessage));
        } else if year < thisYear || (year == thisYear && month < currentMonth) {
          newErrors := newErrors.(expiry := Some(ExpiredMessage));
        }
      }
      if cvv == "" || |cvv| != 3 {
        newErrors := newErrors.(cvv := Some(CvvMessage));
      }
      errors := newErrors;
      ok := newErrors == NoPaymentErrors;
    }
  }
}
