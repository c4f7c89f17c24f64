/** The input masks of the checkout form (`src/pages/Checkout.tsx`): each
    keystroke's raw text is reformatted before it is stored. */
module Masks {
  import opened Text

  /** The country prefix the phone field starts with. */
  const PhonePrefix: string := "+48 "

  // ---------------------------------------------------------------------
  // Postal code: NN-NNN
  // ---------------------------------------------------------------------

  /** `formatZip`: the digits, with a hyphen after the second one once there
      is a third; at most five digits are kept. */
  function FormatZip(value: string): (r: string)
    ensures |r| <= 6
    ensures forall i :: 0 <= i < |r| ==> IsDigit(r[i]) || (i == 2 && r[i] == '-')
    ensures Digits(r) == Take(Digits(value), 5)
    ensures (|r| > 2 && r[2] == '-') <==> |Digits(value)| > 2
  {
    var digits := Digits(value);
    if |digits| > 2 then
      var head, tail := Slice(digits, 0, 2), Slice(digits, 2, 5);
      DigitsAround(head, '-', tail);
      assert head + tail == Take(digits, 5);
      head + "-" + tail
    else
      DigitsOfDigits(digits);
      digits
  }

  /** Masking a masked postal code changes nothing. */
  lemma FormatZipIdempotent(value: string)
    ensures FormatZip(FormatZip(value)) == FormatZip(value)
  {
    var d := Digits(value);
    var r := FormatZip(value);
    if |d| > 2 {
      assert Take(d, 5)[..2] == d[..2];
      assert Slice(Take(d, 5), 2, 5) == Slice(d, 2, 5);
    } else {
      DigitsOfDigits(d);
    }
  }

  // ---------------------------------------------------------------------
  // Phone: +48 NNN NNN NNN
  // ---------------------------------------------------------------------

  /** The groups `formatPhone` appends after the prefix: up to three digits,
      then a space and up to three more once there are four, then a space
      and up to three more once there are seven. */
  function PhoneGroups(raw: string): string {
    (if |raw| > 0 then Slice(raw, 0, 3) else "")
      + (if |raw| > 3 then " " + Slice(raw, 3, 6) else "")
      + (if |raw| > 6 then " " + Slice(raw, 6, 9) else "")
  }

  /** `formatPhone`: without the prefix the text is left alone; with it, the
      digits after the prefix are kept (nine at most) in groups of three. */
  function FormatPhone(value: string): (r: string)
    ensures !StartsWith(value, PhonePrefix) ==> r == value
    ensures StartsWith(value, PhonePrefix) ==> StartsWith(r, PhonePrefix) && |r| <= 15
  {
    if !StartsWith(value, PhonePrefix) then value
    else PhonePrefix + PhoneGroups(Digits(ReplaceFirst(value, PhonePrefix, "")))
  }

  /** The digits typed after the prefix. */
  function PhoneDigits(value: string): string
    requires StartsWith(value, PhonePrefix)
  {
    Digits(value[|PhonePrefix|..])
  }

  /** Up to three characters make one group. */
  lemma OneGroup(raw: string)
    requires |raw| <= 3
    ensures PhoneGroups(raw) == Grouped(Take(raw, 9), 3)
  {
    GroupedUnfold(raw, 3);
  }

  /** Four to six characters make two groups. */
  lemma TwoGroups(raw: string)
    requires 3 < |raw| <= 6
    ensures PhoneGroups(raw) == Grouped(Take(raw, 9), 3)
  {
    GroupedUnfold(raw, 3);
    GroupedUnfold(raw[3..], 3);
    assert Slice(raw, 0, 3) == raw[..3];
    assert Slice(raw, 3, 6) == raw[3..];
  }

  /** Seven characters or more make three groups, the rest is dropped. */
  lemma ThreeGroups(raw: string)
    requires |raw| > 6
    ensures PhoneGroups(raw) == Grouped(Take(raw, 9), 3)
  {
    var t := Take(raw, 9);
    GroupedUnfold(t, 3);
    GroupedUnfold(t[3..], 3);
    GroupedUnfold(t[6..], 3);
    assert t[3..][3..] == t[6..];
    assert t[3..][..3] == t[3..6];
    assert Slice(raw, 0, 3) == t[..3];
    assert Slice(raw, 3, 6) == t[3..6];
    assert Slice(raw, 6, 9) == t[6..];
  }

  /** With the prefix, the mask is the prefix followed by the first nine
      digits after it, grouped by three. */
  lemma FormatPhoneGroups(value: string)
    requires StartsWith(value, PhonePrefix)
    ensures FormatPhone(value) == PhonePrefix + Grouped(Take(PhoneDigits(value), 9), 3)
  {
    ReplaceFirstPrefix(value, PhonePrefix, "");
    assert "" + value[|PhonePrefix|..] == value[|PhonePrefix|..];
    var raw := PhoneDigits(value);
    if |raw| <= 3 {
      OneGroup(raw);
    } else if |raw| <= 6 {
      TwoGroups(raw);
    } else {
      ThreeGroups(raw);
    }
  }

  /** What the masked phone holds: the prefix, then the kept digits. */
  lemma FormatPhoneDigits(value: string)
    requires StartsWith(value, PhonePrefix)
    ensures var r := FormatPhone(value);
      StartsWith(r, PhonePrefix) && Digits(r[|PhonePrefix|..]) == Take(PhoneDigits(value), 9)
  {
    FormatPhoneGroups(value);
    var r := FormatPhone(value);
    assert r[|PhonePrefix|..] == Grouped(Take(PhoneDigits(value), 9), 3);
    DigitsOfGrouped(Take(PhoneDigits(value), 9), 3);
  }

  /** Masking a masked phone number changes nothing. */
  lemma FormatPhoneIdempotent(value: string)
    ensures FormatPhone(FormatPhone(value)) == FormatPhone(value)
  {
    if StartsWith(value, PhonePrefix) {
      var r := FormatPhone(value);
      FormatPhoneDigits(value);
      FormatPhoneGroups(value);
      FormatPhoneGroups(r);
    }
  }

  // ---------------------------------------------------------------------
  // Card number: NNNN NNNN NNNN NNNN
  // ---------------------------------------------------------------------

  /** The card number's digits: `value.replace(/\s+/g, "").replace(/[^0-9]/gi, "")`. */
  function CardDigits(value: string): (v: string)
    ensures v == Digits(value)
  {
    DigitsOfStripped(value);
    Digits(StripWhitespace(value))
  }

  /** `(v.match(/\d{4,16}/g) || [])[0] || ""` for a string `v` of digits:
      the leftmost run of four to sixteen digits is `v` itself, cut at
      sixteen, when `v` has four digits or more. */
  function FirstDigitRun(v: string): (m: string)
    requires AllDigits(v)
    ensures m == [] || 4 <= |m| <= 16
  {
    if |v| >= 4 then Take(v, 16) else ""
  }

  /** `formatCardNumber`, as a function of the keystroke's text: the first
      sixteen digits in groups of four, or the text itself while it holds
      fewer than four digits. */
  function CardMask(value: string): string
  {
    var run := FirstDigitRun(CardDigits(value));
    if run != [] then Grouped(run, 4) else value
  }

  /** `formatCardNumber`: the loop collects the groups of four into `parts`
      and joins them with spaces; with no part, the text is returned as
      typed. */
  method FormatCardNumber(value: string) returns (r: string)
    ensures r == CardMask(value)
  {
    var v := CardDigits(value);
    var run := FirstDigitRun(v);
    var parts: seq<string> := [];
    var i := 0;
    while i < |run|
      invariant i <= |run| ==> parts + Chunks(run[i..], 4) == Chunks(run, 4)
      invariant i > |run| ==> parts == Chunks(run, 4)
      decreases |run| - i
    {
      var rest := run[i..];
      if i + 4 < |run| {
        assert rest[..4] == Slice(run, i, i + 4);
        assert rest[4..] == run[i + 4..];
        assert Chunks(rest, 4) == [Slice(run, i, i + 4)] + Chunks(run[i + 4..], 4);
      } else {
        assert rest == Slice(run, i, i + 4);
        assert Chunks(rest, 4) == [rest];
        assert i + 4 == |run| ==> run[i + 4..] == [];
      }
      parts := parts + [Slice(run, i, i + 4)];
      i := i + 4;
    }
    if i == |run| {
      assert run[i..] == [];
    }
    assert parts == Chunks(run, 4);
    if |parts| > 0 {
      r := Join(parts, " ");
    } else {
      r := value;
    }
  }

  /** The two ways the card mask behaves. */
  lemma CardMaskCases(value: string)
    ensures |Digits(value)| >= 4 ==>
      var m := CardMask(value);
      && m == Grouped(Take(Digits(value), 16), 4)
      && Digits(m) == Take(Digits(value), 16)
      && |m| <= 19
      && forall i :: 0 <= i < |m| ==> IsDigit(m[i]) || m[i] == ' '
    ensures |Digits(value)| < 4 ==> CardMask(value) == value
  {
    var d := Digits(value);
    if |d| >= 4 {
      var t := Take(d, 16);
      var m := CardMask(value);
      DigitsOfGrouped(t, 4);
      GroupedLength(t, 4);
      ChunksCount(t, 4);
      forall i | 0 <= i < |m|
        ensures IsDigit(m[i]) || m[i] == ' '
      {
        GroupedChars(t, 4, i);
      }
    }
  }

  /** Masking a masked card number changes nothing. */
  lemma CardMaskIdempotent(value: string)
    ensures CardMask(CardMask(value)) == CardMask(value)
  {
    CardMaskCases(value);
    if |Digits(value)| >= 4 {
      var m := CardMask(value);
      var t := Take(Digits(value), 16);
      assert Digits(m) == t;
      assert Take(t, 16) == t;
    }
  }

  /** A masked card number is nineteen characters long exactly when sixteen
      digits or more were typed. */
  lemma CardMaskFull(value: string)
    requires |Digits(value)| >= 4
    ensures |CardMask(value)| == 19 <==> |Digits(value)| >= 16
  {
    var t := Take(Digits(value), 16);
    CardMaskCases(value);
    GroupedLength(t, 4);
    ChunksCount(t, 4);
    var n := |Chunks(t, 4)|;
    if |t| == 16 {
      assert n == 4;
    } else {
      assert n <= 4;
    }
  }

  // ---------------------------------------------------------------------
  // Expiry date: MM/YY
  // ---------------------------------------------------------------------

  /** `formatExpiry`: with two digits or more, the first two, a slash and up
      to two more; otherwise the digits. */
  function FormatExpiry(value: string): (r: string)
    ensures |r| <= 5
    ensures forall i :: 0 <= i < |r| ==> IsDigit(r[i]) || (i == 2 && r[i] == '/')
    ensures Digits(r) == Take(Digits(value), 4)
    ensures (|r| > 2 && r[2] == '/') <==> |Digits(value)| >= 2
  {
    var digits := Digits(value);
    if |digits| >= 2 then
      var month, year := Slice(digits, 0, 2), Slice(digits, 2, 4);
      DigitsAround(month, '/', year);
      assert month + year == Take(digits, 4);
      month + "/" + year
    else
      DigitsOfDigits(digits);
      digits
  }

  /** Masking a masked expiry date changes nothing. */
  lemma FormatExpiryIdempotent(value: string)
    ensures FormatExpiry(FormatExpiry(value)) == FormatExpiry(value)
  {
    var d := Digits(value);
    if |d| >= 2 {
      assert Take(d, 4)[..2] == d[..2];
      assert Slice(Take(d, 4), 2, 4) == Slice(d, 2, 4);
    } else {
      DigitsOfDigits(d);
    }
  }

  /** Deleting the slash of "MM/" gives "MM", which the mask turns back into
      "MM/": the slash can only go together with a digit. */
  lemma ExpirySlashReturns(month: string)
    requires |month| == 2 && AllDigits(month)
    ensures FormatExpiry(month) == month + "/"
  {
    DigitsOfDigits(month);
  }

  // ---------------------------------------------------------------------
  // CVC and BLIK: digits only, capped
  // ---------------------------------------------------------------------

  /** `value.replace(/\D/g, '').slice(0, 3)`. */
  function CvcMask(value: string): (r: string)
    ensures AllDigits(r) && r <= Digits(value)
    ensures |r| == if |Digits(value)| < 3 then |Digits(value)| else 3
  {
    Take(Digits(value), 3)
  }

  /** `e.target.value.replace(/\D/g, '').slice(0, 6)`. */
  function BlikMask(value: string): (r: string)
    ensures AllDigits(r) && r <= Digits(value)
    ensures |r| == if |Digits(value)| < 6 then |Digits(value)| else 6
  {
    Take(Digits(value), 6)
  }

  lemma CodeMasksIdempotent(value: string)
    ensures CvcMask(CvcMask(value)) == CvcMask(value)
    ensures BlikMask(BlikMask(value)) == BlikMask(value)
  {
    DigitsOfDigits(CvcMask(value));
    DigitsOfDigits(BlikMask(value));
  }
}
