/** The card payment form of a training purchase: how each field is
    formatted as it is typed, the validation messages, and the gate in
    front of the confirmation. */
module PaymentModal {
  import opened Wrappers

  // ---------------------------------------------------------------- characters

  predicate IsDigit(c: char)
  {
    '0' <= c <= '9'
  }

  /** The characters of the `\s` class, which `trim` also strips. */
  predicate IsSpace(c: char)
  {
    c == '\t' || c == '\n' || c == '\U{000B}' || c == '\U{000C}' || c == '\r' || c == ' '
    || c == '\U{00A0}' || c == '\U{1680}' || ('\U{2000}' <= c <= '\U{200A}')
    || c == '\U{2028}' || c == '\U{2029}' || c == '\U{202F}' || c == '\U{205F}'
    || c == '\U{3000}' || c == '\U{FEFF}'
  }

  predicate AllDigits(s: string)
  {
    forall i :: 0 <= i < |s| ==> IsDigit(s[i])
  }

  /** `value.replace(/\D/g, '')`. */
  function Digits(s: string): (r: string)
    ensures AllDigits(r) && |r| <= |s|
    ensures AllDigits(s) ==> r == s
  {
    if s == [] then []
    else (if IsDigit(s[0]) then [s[0]] else []) + Digits(s[1..])
  }

  lemma {:induction false} DigitsAppend(a: string, b: string)
    ensures Digits(a + b) == Digits(a) + Digits(b)
  {
    if a == [] {
      assert a + b == b;
    } else {
      assert (a + b)[0] == a[0] && (a + b)[1..] == a[1..] + b;
      DigitsAppend(a[1..], b);
    }
  }

  /** `value.replace(/\s/g, '')`. */
  function StripSpaces(s: string): (r: string)
    ensures |r| <= |s|
    ensures forall i :: 0 <= i < |r| ==> !IsSpace(r[i])
  {
    if s == [] then []
    else (if IsSpace(s[0]) then [] else [s[0]]) + StripSpaces(s[1..])
  }

  /** `s.slice(0, n)`. */
  function Take(s: string, n: nat): (r: string)
    ensures |r| == if |s| <= n then |s| else n
    ensures r <= s
  {
    if |s| <= n then s else s[..n]
  }

  // ---------------------------------------------------------------- card number

  /** `cleaned.match(/.{1,4}/g).join(' ')`, and the empty string when there
      is nothing to match. */
  function Group4(s: string): (r: string)
    ensures |s| <= 4 ==> r == s
  {
    if |s| <= 4 then s else s[..4] + " " + Group4(s[4..])
  }

  /** `formatCardNumber`. */
  function FormatCardNumber(value: string): string
  {
    Group4(StripSpaces(value))
  }

  /** A shown card number: digits with a single space after every fourth. */
  predicate CardShaped(s: string)
  {
    (forall i :: 0 <= i < |s| ==> (s[i] == ' ' <==> i % 5 == 4))
    && (forall i :: 0 <= i < |s| && s[i] != ' ' ==> IsDigit(s[i]))
    && (|s| == 0 || s[|s| - 1] != ' ')
  }

  lemma {:induction false} Group4Shape(d: string)
    requires AllDigits(d)
    ensures CardShaped(Group4(d))
  {
    if |d| > 4 {
      var tail := Group4(d[4..]);
      Group4Shape(d[4..]);
      var r := d[..4] + " " + tail;
      assert Group4(d) == r;
      forall i | 0 <= i < |r|
        ensures (r[i] == ' ' <==> i % 5 == 4) && (r[i] != ' ' ==> IsDigit(r[i]))
      {
        if i < 4 {
          assert r[i] == d[i];
        } else if i > 4 {
          assert r[i] == tail[i - 5];
          assert (i - 5) % 5 == i % 5;
        }
      }
      assert d[4..] != [];
    }
  }

  /** Removing the spaces gives back the grouped digits. */
  lemma {:induction false} StripGroup4(d: string)
    requires AllDigits(d)
    ensures StripSpaces(Group4(d)) == d
  {
    if |d| <= 4 {
      StripDigits(d);
    } else {
      var head, tail := d[..4], Group4(d[4..]);
      StripGroup4(d[4..]);
      assert AllDigits(head);
      StripDigits(head);
      StripAppend(head + " ", tail);
      StripAppend(head, " ");
      assert StripSpaces(" ") == [] by { assert IsSpace(' '); }
      calc {
        StripSpaces(Group4(d));
        StripSpaces(head + " " + tail);
        StripSpaces(head) + StripSpaces(" ") + StripSpaces(tail);
        head + d[4..];
        { assert d == d[..4] + d[4..]; }
        d;
      }
    }
  }

  /** Dropping the non-digits of a grouped card number gives back its digits. */
  lemma {:induction false} DigitsGroup4(d: string)
    requires AllDigits(d)
    ensures Digits(Group4(d)) == d
  {
    if |d| > 4 {
      var head, tail := d[..4], Group4(d[4..]);
      DigitsGroup4(d[4..]);
      assert AllDigits(head);
      DigitsAppend(head + " ", tail);
      DigitsAppend(head, " ");
      assert Digits(" ") == [];
      calc {
        Digits(Group4(d));
        Digits(head + " " + tail);
        Digits(head) + Digits(" ") + Digits(tail);
        head + d[4..];
        { assert d == d[..4] + d[4..]; }
        d;
      }
    }
  }

  lemma {:induction false} StripDigits(d: string)
    requires AllDigits(d)
    ensures StripSpaces(d) == d
  {
    if d != [] {
      StripDigits(d[1..]);
      assert !IsSpace(d[0]);
      assert d == [d[0]] + d[1..];
    }
  }

  lemma {:induction false} StripAppend(a: string, b: string)
    ensures StripSpaces(a + b) == StripSpaces(a) + StripSpaces(b)
  {
    if a == [] {
      assert a + b == b;
    } else {
      assert (a + b)[0] == a[0] && (a + b)[1..] == a[1..] + b;
      StripAppend(a[1..], b);
    }
  }

  /** A string with no spaces left unchanged by stripping. */
  lemma {:induction false} StripSpaceFree(s: string)
    requires forall i :: 0 <= i < |s| ==> !IsSpace(s[i])
    ensures StripSpaces(s) == s
  {
    if s != [] {
      StripSpaceFree(s[1..]);
      assert s == [s[0]] + s[1..];
    }
  }

  /** Grouping is stable on its own output. */
  lemma {:induction false} Group4Idempotent(s: string)
    requires forall i :: 0 <= i < |s| ==> !IsSpace(s[i])
    ensures StripSpaces(Group4(s)) == s
  {
    if |s| <= 4 {
      StripSpaceFree(s);
    } else {
      Group4Idempotent(s[4..]);
      StripSpaceFree(s[..4]);
      StripAppend(s[..4] + " ", Group4(s[4..]));
      StripAppend(s[..4], " ");
      assert s == s[..4] + s[4..];
    }
  }

  /** `formatCardNumber` is idempotent. */
  lemma FormatCardNumberIdempotent(value: string)
    ensures FormatCardNumber(FormatCardNumber(value)) == FormatCardNumber(value)
  {
    Group4Idempotent(StripSpaces(value));
  }

  // ---------------------------------------------------------------- expiry and cvv

  /** `formatExpiryDate`: the digits, with a slash after the first two and at
      most two after it. */
  function FormatExpiryDate(value: string): (r: string)
    ensures var c := Digits(value);
      |c| >= 2 ==> r == c[..2] + "/" + Take(c[2..], 2)
    ensures |Digits(value)| < 2 ==> r == Digits(value)
  {
    var cleaned := Digits(value);
    if |cleaned| >= 2 then cleaned[..2] + "/" + Take(cleaned[2..], 2) else cleaned
  }

  /** A shown expiry: up to one digit, or two digits, a slash and up to two
      digits. */
  predicate ExpiryShaped(e: string)
  {
    (|e| <= 1 && AllDigits(e))
    || (3 <= |e| <= 5 && e[2] == '/' && AllDigits(e[..2]) && AllDigits(e[3..]))
  }

  lemma FormatExpiryShape(value: string)
    ensures ExpiryShaped(FormatExpiryDate(value))
  {
    var c := Digits(value);
    if |c| >= 2 {
      var r := FormatExpiryDate(value);
      assert r[..2] == c[..2] && r[3..] == Take(c[2..], 2);
    }
  }

  lemma FormatExpiryIdempotent(value: string)
    ensures FormatExpiryDate(FormatExpiryDate(value)) == FormatExpiryDate(value)
  {
    var c := Digits(value);
    if |c| >= 2 {
      var t := Take(c[2..], 2);
      DigitsAppend(c[..2] + "/", t);
      DigitsAppend(c[..2], "/");
      assert Digits("/") == [];
      assert Digits(FormatExpiryDate(value)) == c[..2] + t;
      assert (c[..2] + t)[..2] == c[..2] && (c[..2] + t)[2..] == t;
    }
  }

  /** Deleting the slash of "12/" brings it back: the shown value cannot be
      edited below two digits by one deletion. */
  lemma SlashComesBack()
    ensures FormatExpiryDate("12") == "12/"
  {
    assert Digits("12") == "12";
  }

  // ---------------------------------------------------------------- parsing

  /** `s.split(sep)`. */
  function Split(s: string, sep: char): (r: seq<string>)
    ensures |r| >= 1
    ensures forall k :: 0 <= k < |r| ==> sep !in r[k]
    decreases |s|
  {
    if sep !in s then [s]
    else
      var i := IndexOf(s, sep);
      [s[..i]] + Split(s[i + 1..], sep)
  }

  function IndexOf(s: string, c: char): (i: nat)
    requires c in s
    ensures i < |s| && s[i] == c && c !in s[..i]
  {
    if s[0] == c then 0
    else
      assert c in s[1..];
      1 + IndexOf(s[1..], c)
  }

  /** `parts.join(sep)`. */
  function Join(parts: seq<string>, sep: char): string
    requires |parts| >= 1
  {
    if |parts| == 1 then parts[0] else parts[0] + [sep] + Join(parts[1..], sep)
  }

  /** Splitting loses nothing: joining the parts rebuilds the string. */
  lemma {:induction false} JoinSplit(s: string, sep: char)
    ensures Join(Split(s, sep), sep) == s
    decreases |s|
  {
    if sep in s {
      var i := IndexOf(s, sep);
      JoinSplit(s[i + 1..], sep);
      assert Split(s, sep)[1..] == Split(s[i + 1..], sep);
      assert s == s[..i] + [sep] + s[i + 1..];
    }
  }

  /** `parseInt(s)` on the leading decimal digits; NaN (`None`) when there
      are none. */
  function ParseInt(s: string): (r: Option<int>)
    ensures r.Some? <==> s != [] && IsDigit(s[0])
  {
    var d := LeadingDigits(s);
    if d == [] then None else Some(Value(d))
  }

  function LeadingDigits(s: string): (r: string)
    ensures r <= s && AllDigits(r)
    ensures r == [] <==> s == [] || !IsDigit(s[0])
    ensures AllDigits(s) ==> r == s
  {
    if s != [] && IsDigit(s[0]) then [s[0]] + LeadingDigits(s[1..]) else []
  }

  function Value(d: string): nat
  {
    if d == [] then 0 else 10 * Value(d[..|d| - 1]) + Digit(d[|d| - 1])
  }

  function Digit(c: char): nat
  {
    if IsDigit(c) then (c as int - '0' as int) else 0
  }

  /** The two-digit month and year of an `MM/AA` string. */
  lemma TwoDigitValues(p: string)
    requires |p| == 2 && AllDigits(p)
    ensures ParseInt(p) == Some(10 * Digit(p[0]) + Digit(p[1]))
    ensures ParseInt("20" + p) == Some(2000 + 10 * Digit(p[0]) + Digit(p[1]))
  {
    assert LeadingDigits(p) == p;
    assert p[..2 - 1] == [p[0]] && [p[0]][..0] == [];
    assert Value([p[0]]) == Digit(p[0]);
    assert Value(p) == 10 * Digit(p[0]) + Digit(p[1]);
    var q := "20" + p;
    assert AllDigits(q);
    assert LeadingDigits(q) == q;
    assert q[..3] == "20" + [p[0]] && q[..3][..2] == "20" && q[..3][..2][..1] == "2" && "2"[..0] == [];
    assert Value("2") == 2;
    assert Value("20") == 20;
    assert Value(q[..3]) == 200 + Digit(p[0]);
    assert Value(q) == 10 * Value(q[..3]) + Digit(p[1]);
  }

  // ---------------------------------------------------------------- validation

  datatype Field = CardNumber | CardHolder | ExpiryDate | Cvv

  datatype PaymentData = PaymentData(cardNumber: string, cardHolder: string, expiryDate: string, cvv: string)

  /** `!value.trim()`. */
  predicate Blank(s: string)
  {
    forall i :: 0 <= i < |s| ==> IsSpace(s[i])
  }

  /** `a < b` where `a` may be NaN, which compares false. */
  predicate Below(a: Option<int>, b: int)
  {
    a.Some? && a.value < b
  }

  /** The expiry message, if any. */
  function ExpiryError(expiry: string, currentYear: int, currentMonth: int): Option<string>
  {
    var parts := Split(expiry, '/');
    if |parts| != 2 || |parts[0]| != 2 || |parts[1]| != 2 then Some("Date invalide (MM/AA)")
    else
      var month := ParseInt(parts[0]);
      var year := ParseInt("20" + parts[1]);
      if Below(month, 1) || (month.Some? && month.value > 12) then Some("Mois invalide (01-12)")
      else if Below(year, currentYear) || (year == Some(currentYear) && Below(month, currentMonth)) then
        Some("Carte expirée")
      else None
  }

  /** Adds a field's message when there is one. */
  function Put(e: map<Field, string>, f: Field, x: Option<string>): map<Field, string>
  {
    if x.Some? then e[f := x.value] else e
  }

  function CardError(cardNumber: string): Option<string>
  {
    if |StripSpaces(cardNumber)| != 16 then Some("Numéro de carte invalide (16 chiffres requis)") else None
  }

  function HolderError(cardHolder: string): Option<string>
  {
    if Blank(cardHolder) then Some("Nom du titulaire requis") else None
  }

  function CvvError(cvv: string): Option<string>
  {
    if |cvv| != 3 then Some("CVV invalide (3 chiffres)") else None
  }

  /** The messages `validate` collects, one per failing field. */
  function Errors(d: PaymentData, currentYear: int, currentMonth: int): (e: map<Field, string>)
    ensures CardNumber in e <==> |StripSpaces(d.cardNumber)| != 16
    ensures CardHolder in e <==> Blank(d.cardHolder)
    ensures ExpiryDate in e <==> ExpiryError(d.expiryDate, currentYear, currentMonth).Some?
    ensures Cvv in e <==> |d.cvv| != 3
    ensures forall f :: f in e ==> e[f] != ""
  {
    var e1 := Put(map[], CardNumber, CardError(d.cardNumber));
    assert e1.Keys <= {CardNumber} && (CardNumber in e1 <==> CardError(d.cardNumber).Some?);
    var e2 := Put(e1, CardHolder, HolderError(d.cardHolder));
    assert e2.Keys <= {CardNumber, CardHolder} && (CardHolder in e2 <==> HolderError(d.cardHolder).Some?);
    var x := ExpiryError(d.expiryDate, currentYear, currentMonth);
    ExpiryMessage(d.expiryDate, currentYear, currentMonth);
    var e3 := Put(e2, ExpiryDate, x);
    assert e3.Keys <= {CardNumber, CardHolder, ExpiryDate} && (ExpiryDate in e3 <==> x.Some?);
    Put(e3, Cvv, CvvError(d.cvv))
  }

  /** Every expiry message is a real message. */
  lemma ExpiryMessage(expiry: string, currentYear: int, currentMonth: int)
    ensures ExpiryError(expiry, currentYear, currentMonth).Some? ==> ExpiryError(expiry, currentYear, currentMonth).value != ""
  {
  }

  /** An expiry on or after the current month, written as `MM/AA` with a
      month from 01 to 12. */
  predicate ExpiryAccepted(e: string, currentYear: int, currentMonth: int)
  {
    |e| == 5 && e[2] == '/' && IsDigit(e[0]) && IsDigit(e[1]) && IsDigit(e[3]) && IsDigit(e[4])
    && var month := 10 * Digit(e[0]) + Digit(e[1]);
    var year := 2000 + 10 * Digit(e[3]) + Digit(e[4]);
    1 <= month <= 12 && (year > currentYear || (year == currentYear && month >= currentMonth))
  }

  /** The month and year of an accepted-looking expiry. */
  lemma ExpiryFields(e: string)
    requires |e| == 5 && e[2] == '/' && IsDigit(e[0]) && IsDigit(e[1]) && IsDigit(e[3]) && IsDigit(e[4])
    ensures Split(e, '/') == [e[..2], e[3..]]
    ensures ParseInt(e[..2]) == Some(10 * Digit(e[0]) + Digit(e[1]))
    ensures ParseInt("20" + e[3..]) == Some(2000 + 10 * Digit(e[3]) + Digit(e[4]))
  {
    assert IndexOf(e, '/') == 2 by {
      assert e[0] != '/' && e[1] != '/';
    }
    assert '/' !in e[3..];
    TwoDigitValues(e[..2]);
    TwoDigitValues(e[3..]);
  }

  /** Over digits and slashes, the three length tests pass exactly for two
      digits, a slash and two digits. */
  lemma ExpiryFormat(e: string)
    requires forall i :: 0 <= i < |e| ==> IsDigit(e[i]) || e[i] == '/'
    ensures var parts := Split(e, '/');
      (|parts| == 2 && |parts[0]| == 2 && |parts[1]| == 2) <==>
      (|e| == 5 && e[2] == '/' && IsDigit(e[0]) && IsDigit(e[1]) && IsDigit(e[3]) && IsDigit(e[4]))
  {
    var parts := Split(e, '/');
    if |parts| == 2 && |parts[0]| == 2 && |parts[1]| == 2 {
      JoinSplit(e, '/');
      assert parts[1..] == [parts[1]];
      assert e == parts[0] + "/" + parts[1];
      assert e[0] == parts[0][0] && e[1] == parts[0][1] && e[3] == parts[1][0] && e[4] == parts[1][1];
      assert '/' !in parts[0] && '/' !in parts[1];
    }
    if |e| == 5 && e[2] == '/' && IsDigit(e[0]) && IsDigit(e[1]) && IsDigit(e[3]) && IsDigit(e[4]) {
      ExpiryFields(e);
    }
  }

  /** Validation passes exactly when the number has 16 digits, the holder
      is not blank, the expiry is a valid `MM/AA` not before the current
      month, and the CVV has three characters. */
  lemma {:induction false} ValidateIff(d: PaymentData, currentYear: int, currentMonth: int)
    requires forall i :: 0 <= i < |d.expiryDate| ==> IsDigit(d.expiryDate[i]) || d.expiryDate[i] == '/'
    ensures Errors(d, currentYear, currentMonth) == map[] <==>
      |StripSpaces(d.cardNumber)| == 16 && !Blank(d.cardHolder)
      && ExpiryAccepted(d.expiryDate, currentYear, currentMonth) && |d.cvv| == 3
  {
    var e := d.expiryDate;
    ExpiryFormat(e);
    if |e| == 5 && e[2] == '/' && IsDigit(e[0]) && IsDigit(e[1]) && IsDigit(e[3]) && IsDigit(e[4]) {
      ExpiryFields(e);
    }
    var m := Errors(d, currentYear, currentMonth);
    if m != map[] {
      var f :| f in m;
    }
  }

  /** A month outside 01..12 is reported as such, even on a date that is
      also past: the field holds one message. */
  lemma InvalidMonthFirst(e: string, currentYear: int, currentMonth: int)
    requires |e| == 5 && e[2] == '/' && IsDigit(e[0]) && IsDigit(e[1]) && IsDigit(e[3]) && IsDigit(e[4])
    requires !(1 <= 10 * Digit(e[0]) + Digit(e[1]) <= 12)
    ensures ExpiryError(e, currentYear, currentMonth) == Some("Mois invalide (01-12)")
  {
    ExpiryFields(e);
  }

  // ---------------------------------------------------------------- the form

  /** `handleInputChange`'s formatting of one field. */
  function Formatted(field: Field, value: string): string
  {
    match field
    case CardNumber => FormatCardNumber(Take(Digits(value), 16))
    case ExpiryDate => FormatExpiryDate(Take(value, 5))
    case Cvv => Take(Digits(value), 3)
    case CardHolder => value
  }

  /** A card number the form can hold: grouped digits, at most 16. */
  predicate StoredCard(c: string)
  {
    CardShaped(c) && |StripSpaces(c)| <= 16 && StripSpaces(c) == Digits(c)
  }

  predicate StoredCvv(v: string)
  {
    AllDigits(v) && |v| <= 3
  }

  /** What the form can hold after any sequence of edits. */
  predicate Stored(d: PaymentData)
  {
    StoredCard(d.cardNumber) && ExpiryShaped(d.expiryDate) && StoredCvv(d.cvv)
  }

  /** The card field keeps the first 16 digits typed, grouped, and
      formatting it again changes nothing. */
  lemma CardField(value: string)
    ensures var c := Formatted(CardNumber, value);
      StoredCard(c) && Digits(c) == Take(Digits(value), 16) && Formatted(CardNumber, c) == c
  {
    var t := Take(Digits(value), 16);
    assert AllDigits(t);
    StripDigits(t);
    Group4Shape(t);
    StripGroup4(t);
    DigitsGroup4(t);
  }

  lemma ExpiryField(value: string)
    ensures var x := Formatted(ExpiryDate, value);
      ExpiryShaped(x) && Formatted(ExpiryDate, x) == x
  {
    FormatExpiryShape(Take(value, 5));
    FormatExpiryIdempotent(Take(value, 5));
    var x := Formatted(ExpiryDate, value);
    assert |x| <= 5;
  }

  lemma CvvField(value: string)
    ensures var v := Formatted(Cvv, value);
      StoredCvv(v) && Formatted(Cvv, v) == v
  {
  }

  class PaymentForm {
    var data: PaymentData
    var errors: map<Field, string>

    ghost predicate Valid()
      reads this
    {
      Stored(data)
    }

    constructor ()
      ensures Valid() && data == PaymentData("", "", "", "") && errors == map[]
    {
      data := PaymentData("", "", "", "");
      errors := map[];
    }

    /** `handleInputChange(field, value)`: store the formatted value and
        blank that field's message if it had one; no other field changes. */
    method HandleInputChange(field: Field, value: string)
      requires Valid()
      modifies this
      ensures Valid()
      ensures data == match field
        case CardNumber => old(data).(cardNumber := Formatted(field, value))
        case CardHolder => old(data).(cardHolder := Formatted(field, value))
        case ExpiryDate => old(data).(expiryDate := Formatted(field, value))
        case Cvv => old(data).(cvv := Formatted(field, value))
      ensures errors == if field in old(errors) && old(errors)[field] != "" then old(errors)[field := ""] else old(errors)
    {
      var formattedValue := value;
      if field == CardNumber {
        CardField(value);
        formattedValue := FormatCardNumber(Take(Digits(value), 16));
        data := data.(cardNumber := formattedValue);
      } else if field == ExpiryDate {
        ExpiryField(value);
        formattedValue := FormatExpiryDate(Take(value, 5));
        data := data.(expiryDate := formattedValue);
      } else if field == Cvv {
        CvvField(value);
        formattedValue := Take(Digits(value), 3);
        data := data.(cvv := formattedValue);
      } else {
        data := data.(cardHolder := formattedValue);
      }
      if field in errors && errors[field] != "" {
        errors := errors[field := ""];
      }
    }

    /** `validate`: collect one message per failing field, replace the old
        messages, and pass when there are none. */
    method Validate(currentYear: int, currentMonth: int) returns (ok: bool)
      requires Valid()
      modifies this
      ensures Valid() && data == old(data)
      ensures errors == Errors(data, currentYear, currentMonth)
      ensures ok <==> errors == map[]
    {
      var newErrors: map<Field, string> := map[];
      if |StripSpaces(data.cardNumber)| != 16 {
        newErrors := newErrors[CardNumber := "Numéro de carte invalide (16 chiffres requis)"];
      }
      ghost var e1 := newErrors;
      assert e1 == Put(map[], CardNumber, CardError(data.cardNumber));
      if Blank(data.cardHolder) {
        newErrors := newErrors[CardHolder := "Nom du titulaire requis"];
      }
      ghost var e2 := newErrors;
      assert e2 == Put(e1, CardHolder, HolderError(data.cardHolder));
      newErrors := CheckExpiry(newErrors, data.expiryDate, currentYear, currentMonth);
      ghost var e3 := newErrors;
      if |data.cvv| != 3 {
        newErrors := newErrors[Cvv := "CVV invalide (3 chiffres)"];
      }
      assert newErrors == Put(e3, Cvv, CvvError(data.cvv));
      errors := newErrors;
      ok := |errors.Keys| == 0;
      assert errors != map[] ==> exists f :: f in errors.Keys;
    }

    /** The expiry block of `validate`: split at '/', check the shape, then
        the month, then the date against the current month. */
    static method CheckExpiry(newErrors: map<Field, string>, expiry: string, currentYear: int, currentMonth: int)
      returns (r: map<Field, string>)
      ensures r == Put(newErrors, ExpiryDate, ExpiryError(expiry, currentYear, currentMonth))
    {
      r := newErrors;
      var expiryParts := Split(expiry, '/');
      if |expiryParts| != 2 || |expiryParts[0]| != 2 || |expiryParts[1]| != 2 {
        r := r[ExpiryDate := "Date invalide (MM/AA)"];
      } else {
        var month := ParseInt(expiryParts[0]);
        var year := ParseInt("20" + expiryParts[1]);
        if Below(month, 1) || (month.Some? && month.value > 12) {
          r := r[ExpiryDate := "Mois invalide (01-12)"];
        } else if Below(year, currentYear) || (year == Some(currentYear) && Below(month, currentMonth)) {
          r := r[ExpiryDate := "Carte expirée"];
        }
      }
    }

    /** `handleSubmit`: the payment is confirmed only when validation passes. */
    method Submit(currentYear: int, currentMonth: int) returns (confirmed: bool)
      requires Valid()
      modifies this
      ensures Valid() && data == old(data)
      ensures errors == Errors(data, currentYear, currentMonth)
      ensures confirmed <==> (|StripSpaces(data.cardNumber)| == 16 && !Blank(data.cardHolder)
                              && ExpiryAccepted(data.expiryDate, currentYear, currentMonth) && |data.cvv| == 3)
    {
      confirmed := Validate(currentYear, currentMonth);
      StoredExpiryChars(data.expiryDate);
      ValidateIff(data, currentYear, currentMonth);
    }
  }

  /** A stored expiry holds only digits and slashes. */
  lemma StoredExpiryChars(e: string)
    requires ExpiryShaped(e)
    ensures forall i :: 0 <= i < |e| ==> IsDigit(e[i]) || e[i] == '/'
  {
    if |e| >= 3 {
      forall i | 0 <= i < |e|
        ensures IsDigit(e[i]) || e[i] == '/'
      {
        if i < 2 {
          assert e[..2][i] == e[i];
        } else if i > 2 {
          assert e[3..][i - 3] == e[i];
        }
      }
    }
  }
}
