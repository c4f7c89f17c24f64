/** The cart store of `src/context/CartContext.tsx`: an ordered list of line
    items keyed by `id`, a sidebar flag, and the two totals derived from the
    list. Every list update is a pure transform of the previous list (the
    functions below); the store itself is the class `CartStore`. */
module Cart {
  import opened Text

  datatype Option<T> = None | Some(value: T)

  /** A menu entry as the add-to-cart button hands it over: a line item
      without its quantity. */
  datatype MenuItem = MenuItem(id: int, name: string, price: string, image: string)

  datatype CartItem = CartItem(id: int, name: string, price: string, image: string, quantity: int)

  // ---------------------------------------------------------------------
  // Prices: "59 PLN" and friends
  // ---------------------------------------------------------------------

  const Currency: string := " PLN"

  /** The value of a digit character. */
  function DigitValue(c: char): nat
    requires IsDigit(c)
  {
    c as int - '0' as int
  }

  function DigitChar(d: nat): (c: char)
    requires d < 10
    ensures IsDigit(c) && DigitValue(c) == d
  {
    ('0' as int + d) as char
  }

  /** The number a string of decimal digits denotes, read left to right. */
  function DecimalValue(s: string): nat
    requires AllDigits(s)
  {
    if s == [] then 0
    else DecimalValue(s[..|s| - 1]) * 10 + DigitValue(s[|s| - 1])
  }

  /** The decimal numeral of `n`, without leading zeros. */
  function Decimal(n: nat): (s: string)
    ensures s != [] && AllDigits(s)
  {
    if n < 10 then [DigitChar(n)] else Decimal(n / 10) + [DigitChar(n % 10)]
  }

  lemma {:induction false} DecimalValueOfDecimal(n: nat)
    ensures DecimalValue(Decimal(n)) == n
  {
    if n >= 10 {
      var s := Decimal(n);
      assert s[..|s| - 1] == Decimal(n / 10);
      DecimalValueOfDecimal(n / 10);
    }
  }

  /** The longest prefix of `s` made of digits. */
  function LeadingDigits(s: string): (r: string)
    ensures r <= s && AllDigits(r)
    ensures |r| < |s| ==> !IsDigit(s[|r|])
  {
    if s == [] || !IsDigit(s[0]) then [] else [s[0]] + LeadingDigits(s[1..])
  }

  /** The white space `parseFloat` skips before the number: every removed
      character is white space, and the rest does not start with any. */
  function TrimStart(s: string): (r: string)
    ensures r == [] || !IsWhitespace(r[0])
    ensures |r| <= |s| && r == s[|s| - |r|..]
    ensures forall i :: 0 <= i < |s| - |r| ==> IsWhitespace(s[i])
  {
    if s != [] && IsWhitespace(s[0]) then TrimStart(s[1..]) else s
  }

  /** `parseFloat(priceStr.replace(' PLN', ''))` for whole-number prices: the
      first " PLN" is removed, leading white space skipped, and the number is
      the run of digits that follows. `None` stands for `NaN`, the result when
      no digit follows. */
  function ParsePrice(price: string): (r: Option<nat>)
    ensures r.None? <==> LeadingDigits(TrimStart(ReplaceFirst(price, Currency, ""))) == []
  {
    var digits := LeadingDigits(TrimStart(ReplaceFirst(price, Currency, "")));
    if digits == [] then None else Some(DecimalValue(digits))
  }

  /** How the menu writes a price: the numeral, a space, "PLN". */
  function PriceLabel(amount: nat): string {
    Decimal(amount) + Currency
  }

  predicate AllWhitespace(s: string) {
    forall i :: 0 <= i < |s| ==> IsWhitespace(s[i])
  }

  /** The first " PLN" after a numeral is the one removed. */
  lemma {:induction false} StripCurrency(digits: string, rest: string)
    requires AllDigits(digits)
    ensures ReplaceFirst(digits + Currency + rest, Currency, "") == digits + rest
  {
    if digits == [] {
      assert digits + Currency + rest == Currency + rest;
    } else {
      ReplaceFirstSkip(digits + Currency + rest, Currency, "");
      assert (digits + Currency + rest)[1..] == digits[1..] + Currency + rest;
      StripCurrency(digits[1..], rest);
    }
  }

  /** White space before a numeral holds no " PLN": the first one comes later. */
  lemma {:induction false} StripCurrencyAfterBlanks(blanks: string, tail: string)
    requires AllWhitespace(blanks) && tail != [] && IsDigit(tail[0])
    ensures ReplaceFirst(blanks + tail, Currency, "") == blanks + ReplaceFirst(tail, Currency, "")
  {
    if blanks == [] {
      assert blanks + tail == tail;
    } else {
      var s := blanks + tail;
      var next := if |blanks| > 1 then blanks[1] else tail[0];
      assert s[1] == next;
      assert !StartsWith(s, Currency) by {
        assert Currency[1] == 'P' && next != 'P';
      }
      assert s[1..] == blanks[1..] + tail;
      StripCurrencyAfterBlanks(blanks[1..], tail);
      assert blanks == [blanks[0]] + blanks[1..];
    }
  }

  /** `parseFloat` skips exactly the white space in front. */
  lemma {:induction false} TrimBlanks(blanks: string, rest: string)
    requires AllWhitespace(blanks) && (rest == [] || !IsWhitespace(rest[0]))
    ensures TrimStart(blanks + rest) == rest
  {
    if blanks == [] {
      assert blanks + rest == rest;
    } else {
      assert (blanks + rest)[1..] == blanks[1..] + rest;
      TrimBlanks(blanks[1..], rest);
    }
  }

  /** The number ends where the digits end. */
  lemma {:induction false} LeadingDigitsBefore(digits: string, rest: string)
    requires AllDigits(digits) && (rest == [] || !IsDigit(rest[0]))
    ensures LeadingDigits(digits + rest) == digits
  {
    if digits == [] {
      assert digits + rest == rest;
    } else {
      assert (digits + rest)[1..] == digits[1..] + rest;
      LeadingDigitsBefore(digits[1..], rest);
    }
  }

  /** A price with white space in front of its numeral, " PLN" after it, and
      then anything that does not continue the number, parses to that
      numeral's value. */
  lemma ParsePriceOf(blanks: string, amount: nat, rest: string)
    requires AllWhitespace(blanks) && (rest == [] || !IsDigit(rest[0]))
    ensures ParsePrice(blanks + Decimal(amount) + Currency + rest) == Some(amount)
  {
    var d := Decimal(amount);
    assert blanks + d + Currency + rest == blanks + (d + Currency + rest);
    StripCurrencyAfterBlanks(blanks, d + Currency + rest);
    StripCurrency(d, rest);
    assert (d + rest)[0] == d[0];
    TrimBlanks(blanks, d + rest);
    LeadingDigitsBefore(d, rest);
    DecimalValueOfDecimal(amount);
  }

  /** Every price written the menu's way parses back to its amount. */
  lemma ParsePriceLabel(amount: nat)
    ensures ParsePrice(PriceLabel(amount)) == Some(amount)
  {
    var written := PriceLabel(amount);
    var empty: string := [];
    assert empty + Decimal(amount) == Decimal(amount);
    assert written + empty == written;
    ParsePriceOf(empty, amount, empty);
  }

  // ---------------------------------------------------------------------
  // The totals: two left-to-right `reduce` folds
  // ---------------------------------------------------------------------

  /** JavaScript addition where `None` is `NaN`: `NaN` absorbs everything. */
  function Plus(x: Option<int>, y: Option<int>): Option<int> {
    if x.Some? && y.Some? then Some(x.value + y.value) else None
  }

  /** `parsePrice(item.price) * item.quantity`. */
  function LinePrice(item: CartItem): Option<int> {
    match ParsePrice(item.price)
    case None => None
    case Some(p) => Some(p * item.quantity)
  }

  /** `items.reduce((sum, item) => sum + parsePrice(item.price) * item.quantity, 0)`. */
  function TotalPrice(items: seq<CartItem>): Option<int>
  {
    if items == [] then Some(0)
    else Plus(TotalPrice(items[..|items| - 1]), LinePrice(items[|items| - 1]))
  }

  predicate AllPricesParse(items: seq<CartItem>) {
    forall i :: 0 <= i < |items| ==> ParsePrice(items[i].price).Some?
  }

  /** The total is a number exactly when every line's price parses: one
      `NaN` makes the whole sum `NaN`. */
  lemma {:induction false} TotalPriceDefined(items: seq<CartItem>)
    ensures TotalPrice(items).Some? <==> AllPricesParse(items)
    decreases |items|
  {
    if items != [] {
      var front := items[..|items| - 1];
      TotalPriceDefined(front);
      assert AllPricesParse(items) <==> AllPricesParse(front) && ParsePrice(items[|items| - 1].price).Some? by {
        if AllPricesParse(front) && ParsePrice(items[|items| - 1].price).Some? {
          forall i | 0 <= i < |items| ensures ParsePrice(items[i].price).Some? {
            if i < |items| - 1 { assert items[i] == front[i]; }
          }
        }
      }
    }
  }

  /** `items.reduce((sum, item) => sum + item.quantity, 0)`. */
  function ItemsCount(items: seq<CartItem>): int
  {
    if items == [] then 0
    else ItemsCount(items[..|items| - 1]) + items[|items| - 1].quantity
  }

  /** Both folds distribute over concatenation. */
  lemma {:induction false} TotalsAppend(a: seq<CartItem>, b: seq<CartItem>)
    ensures ItemsCount(a + b) == ItemsCount(a) + ItemsCount(b)
    ensures TotalPrice(a + b) == Plus(TotalPrice(a), TotalPrice(b))
    decreases |b|
  {
    if b == [] {
      assert a + b == a;
    } else {
      var b' := b[..|b| - 1];
      var last := b[|b| - 1];
      assert (a + b)[..|a + b| - 1] == a + b';
      assert (a + b)[|a + b| - 1] == last;
      TotalsAppend(a, b');
      PlusAssociative(TotalPrice(a), TotalPrice(b'), LinePrice(last));
    }
  }

  lemma PlusAssociative(x: Option<int>, y: Option<int>, z: Option<int>)
    ensures Plus(Plus(x, y), z) == Plus(x, Plus(y, z))
  {
  }

  lemma TotalsSingle(item: CartItem)
    ensures ItemsCount([item]) == item.quantity
    ensures TotalPrice([item]) == LinePrice(item)
  {
    assert [item][..0] == [];
  }

  /** Replacing one line changes each total by that line's difference. */
  lemma TotalsUpdate(items: seq<CartItem>, k: nat, item: CartItem)
    requires k < |items|
    ensures ItemsCount(items) == ItemsCount(items[..k]) + items[k].quantity + ItemsCount(items[k + 1..])
    ensures ItemsCount(items[k := item]) == ItemsCount(items) - items[k].quantity + item.quantity
    ensures TotalPrice(items) == Plus(Plus(TotalPrice(items[..k]), LinePrice(items[k])), TotalPrice(items[k + 1..]))
    ensures TotalPrice(items[k := item]) == Plus(Plus(TotalPrice(items[..k]), LinePrice(item)), TotalPrice(items[k + 1..]))
  {
    assert items == items[..k] + [items[k]] + items[k + 1..];
    assert items[k := item] == items[..k] + [item] + items[k + 1..];
    TotalsAppend(items[..k] + [items[k]], items[k + 1..]);
    TotalsAppend(items[..k], [items[k]]);
    TotalsAppend(items[..k] + [item], items[k + 1..]);
    TotalsAppend(items[..k], [item]);
    TotalsSingle(items[k]);
    TotalsSingle(item);
  }

  // ---------------------------------------------------------------------
  // Invariants of the list
  // ---------------------------------------------------------------------

  predicate HasId(items: seq<CartItem>, id: int) {
    exists i :: 0 <= i < |items| && items[i].id == id
  }

  predicate UniqueIds(items: seq<CartItem>) {
    forall i, j :: 0 <= i < j < |items| ==> items[i].id != items[j].id
  }

  predicate PositiveQuantities(items: seq<CartItem>) {
    forall i :: 0 <= i < |items| ==> items[i].quantity >= 1
  }

  /** What every operation keeps: one line per id, and no line below one. */
  predicate WellFormed(items: seq<CartItem>) {
    UniqueIds(items) && PositiveQuantities(items)
  }

  /** With at least one piece per line, there are at least as many pieces as
      lines (the navbar badge is never below the number of lines). */
  lemma {:induction false} CountAtLeastLines(items: seq<CartItem>)
    requires PositiveQuantities(items)
    ensures ItemsCount(items) >= |items|
    decreases |items|
  {
    if items != [] {
      CountAtLeastLines(items[..|items| - 1]);
    }
  }

  // ---------------------------------------------------------------------
  // The list transforms
  // ---------------------------------------------------------------------

  /** `item.id === id ? { ...item, quantity: item.quantity + 1 } : item`. */
  function Incremented(item: CartItem, id: int): CartItem {
    if item.id == id then item.(quantity := item.quantity + 1) else item
  }

  /** `item.id === id && item.quantity > 1 ? { ...item, quantity: item.quantity - 1 } : item`. */
  function Decremented(item: CartItem, id: int): CartItem {
    if item.id == id && item.quantity > 1 then item.(quantity := item.quantity - 1) else item
  }

  /** `prev.map(...)` with `Incremented`: every line with the id gains one
      piece, every other line is kept. */
  function AfterIncrease(items: seq<CartItem>, id: int): (r: seq<CartItem>)
    ensures |r| == |items|
    ensures forall i :: 0 <= i < |r| ==> r[i] == Incremented(items[i], id)
  {
    seq(|items|, i requires 0 <= i < |items| => Incremented(items[i], id))
  }

  /** `prev.map(...)` with `Decremented`. */
  function AfterDecrease(items: seq<CartItem>, id: int): (r: seq<CartItem>)
    ensures |r| == |items|
    ensures forall i :: 0 <= i < |r| ==> r[i] == Decremented(items[i], id)
  {
    seq(|items|, i requires 0 <= i < |items| => Decremented(items[i], id))
  }

  /** The new line `{ ...newItem, quantity: 1 }`. */
  function NewLine(m: MenuItem): CartItem {
    CartItem(m.id, m.name, m.price, m.image, 1)
  }

  /** The update of `addToCart`: when `find` sees the id, the lines with it
      are incremented (the same map as `increaseQuantity`); otherwise a new
      line is appended. */
  function AfterAdd(items: seq<CartItem>, m: MenuItem): (r: seq<CartItem>)
    ensures HasId(r, m.id)
    ensures |r| == if HasId(items, m.id) then |items| else |items| + 1
  {
    if HasId(items, m.id) then AfterIncrease(items, m.id)
    else
      var appended := items + [NewLine(m)];
      assert appended[|items|].id == m.id;
      appended
  }

  /** `prev.filter((item) => item.id !== id)`. */
  function AfterRemove(items: seq<CartItem>, id: int): (r: seq<CartItem>)
    ensures |r| <= |items|
    ensures !HasId(r, id)
    ensures forall i :: 0 <= i < |r| ==> r[i] in items
  {
    if items == [] then []
    else (if items[0].id == id then [] else [items[0]]) + AfterRemove(items[1..], id)
  }

  // ---------------------------------------------------------------------
  // What the transforms do
  // ---------------------------------------------------------------------

  /** Adding an id already in the cart adds one piece to that line only:
      length and order stay, and the stored name, price and image are kept. */
  lemma AddExisting(items: seq<CartItem>, m: MenuItem, k: nat)
    requires UniqueIds(items) && k < |items| && items[k].id == m.id
    ensures AfterAdd(items, m) == items[k := items[k].(quantity := items[k].quantity + 1)]
  {
    var r := AfterAdd(items, m);
    assert r == AfterIncrease(items, m.id);
    forall i | 0 <= i < |items| && i != k
      ensures r[i] == items[i]
    {
      assert items[i].id != m.id;
    }
  }

  /** Adding an id not in the cart appends one piece of it at the end. */
  lemma AddNew(items: seq<CartItem>, m: MenuItem)
    requires !HasId(items, m.id)
    ensures AfterAdd(items, m) == items + [CartItem(m.id, m.name, m.price, m.image, 1)]
  {
  }

  /** `increaseQuantity` changes the matching line only, by one. */
  lemma IncreaseOnly(items: seq<CartItem>, k: nat)
    requires UniqueIds(items) && k < |items|
    ensures AfterIncrease(items, items[k].id) == items[k := items[k].(quantity := items[k].quantity + 1)]
  {
    var r := AfterIncrease(items, items[k].id);
    forall i | 0 <= i < |items| && i != k
      ensures r[i] == items[i]
    {
      assert items[i].id != items[k].id;
    }
  }

  /** `decreaseQuantity` changes the matching line only, by one, and only
      when it holds more than one piece. */
  lemma DecreaseOnly(items: seq<CartItem>, k: nat)
    requires UniqueIds(items) && k < |items|
    ensures items[k].quantity > 1 ==>
      AfterDecrease(items, items[k].id) == items[k := items[k].(quantity := items[k].quantity - 1)]
    ensures items[k].quantity <= 1 ==> AfterDecrease(items, items[k].id) == items
  {
    var r := AfterDecrease(items, items[k].id);
    forall i | 0 <= i < |items| && i != k
      ensures r[i] == items[i]
    {
      assert items[i].id != items[k].id;
    }
  }

  /** Removing an id that is not in the cart keeps every line. */
  lemma {:induction false} RemoveAbsent(items: seq<CartItem>, id: int)
    requires !HasId(items, id)
    ensures AfterRemove(items, id) == items
  {
    if items != [] {
      var tail := items[1..];
      assert !HasId(tail, id) by {
        forall i | 0 <= i < |tail| ensures tail[i].id != id {
          assert tail[i] == items[i + 1];
        }
      }
      RemoveAbsent(tail, id);
      assert items == [items[0]] + tail;
    }
  }

  /** An id that is not in the cart leaves every transform but `addToCart`
      without effect. */
  lemma AbsentIdNoOp(items: seq<CartItem>, id: int)
    requires !HasId(items, id)
    ensures AfterRemove(items, id) == items
    ensures AfterIncrease(items, id) == items
    ensures AfterDecrease(items, id) == items
  {
    RemoveAbsent(items, id);
    assert forall i :: 0 <= i < |items| ==> items[i].id != id;
  }

  /** Behind the first line of a cart with unique ids: unique ids, and no
      line with the first line's id. */
  lemma UniqueTail(items: seq<CartItem>)
    requires UniqueIds(items) && items != []
    ensures UniqueIds(items[1..]) && !HasId(items[1..], items[0].id)
  {
    var tail := items[1..];
    forall i, j | 0 <= i < j < |tail| ensures tail[i].id != tail[j].id {
      assert tail[i] == items[i + 1] && tail[j] == items[j + 1];
    }
    forall i | 0 <= i < |tail| ensures tail[i].id != items[0].id {
      assert tail[i] == items[i + 1];
    }
  }

  /** Removing an id that is in the cart once drops exactly that line; the
      others keep their order. */
  lemma {:induction false} RemoveAt(items: seq<CartItem>, k: nat)
    requires UniqueIds(items) && k < |items|
    ensures AfterRemove(items, items[k].id) == items[..k] + items[k + 1..]
    decreases k
  {
    var id := items[k].id;
    var tail := items[1..];
    UniqueTail(items);
    if k == 0 {
      RemoveAbsent(tail, id);
      assert items[..k] + items[k + 1..] == tail;
    } else {
      assert tail[k - 1] == items[k];
      assert items[0].id != id;
      RemoveAt(tail, k - 1);
      assert AfterRemove(items, id) == [items[0]] + AfterRemove(tail, id);
      assert items[..k] == [items[0]] + tail[..k - 1];
      assert items[k + 1..] == tail[k..];
    }
  }

  /** Removal distributes over concatenation: it is a filter, so relative
      order is kept. */
  lemma {:induction false} RemoveAppend(a: seq<CartItem>, b: seq<CartItem>, id: int)
    ensures AfterRemove(a + b, id) == AfterRemove(a, id) + AfterRemove(b, id)
  {
    if a == [] {
      assert a + b == b;
    } else {
      assert (a + b)[1..] == a[1..] + b;
      RemoveAppend(a[1..], b, id);
    }
  }

  // ---------------------------------------------------------------------
  // The invariant is kept
  // ---------------------------------------------------------------------

  lemma AddKeepsWellFormed(items: seq<CartItem>, m: MenuItem)
    requires WellFormed(items)
    ensures WellFormed(AfterAdd(items, m))
  {
    if !HasId(items, m.id) {
      var r := AfterAdd(items, m);
      forall i, j | 0 <= i < j < |r|
        ensures r[i].id != r[j].id
      {
        if j == |items| {
          assert r[i] == items[i];
        }
      }
    }
  }

  lemma {:induction false} RemoveKeepsWellFormed(items: seq<CartItem>, id: int)
    requires WellFormed(items)
    ensures WellFormed(AfterRemove(items, id))
  {
    if items != [] {
      var tail := items[1..];
      assert WellFormed(tail) by {
        forall i, j | 0 <= i < j < |tail| ensures tail[i].id != tail[j].id {
          assert tail[i] == items[i + 1] && tail[j] == items[j + 1];
        }
      }
      RemoveKeepsWellFormed(tail, id);
      var rest := AfterRemove(tail, id);
      if items[0].id != id {
        var r := [items[0]] + rest;
        forall j | 0 < j < |r| ensures r[0].id != r[j].id {
          assert r[j] == rest[j - 1];
          assert rest[j - 1] in tail;
        }
        assert AfterRemove(items, id) == r;
      } else {
        assert AfterRemove(items, id) == rest;
      }
    }
  }

  lemma QuantityChangesKeepWellFormed(items: seq<CartItem>, id: int)
    requires WellFormed(items)
    ensures WellFormed(AfterIncrease(items, id))
    ensures WellFormed(AfterDecrease(items, id))
  {
  }

  // ---------------------------------------------------------------------
  // Totals after each operation
  // ---------------------------------------------------------------------

  /** Adding one piece adds one to the count and its unit price to the total
      (the unit price of the line already in the cart, when there is one). */
  lemma TotalsAfterAdd(items: seq<CartItem>, m: MenuItem)
    requires UniqueIds(items)
    ensures ItemsCount(AfterAdd(items, m)) == ItemsCount(items) + 1
    ensures !HasId(items, m.id) ==>
      TotalPrice(AfterAdd(items, m)) == Plus(TotalPrice(items), LinePrice(NewLine(m)))
    ensures forall k :: 0 <= k < |items| && items[k].id == m.id ==>
      TotalPrice(AfterAdd(items, m)) == Plus(TotalPrice(items), LinePrice(items[k].(quantity := 1)))
  {
    if HasId(items, m.id) {
      var k :| 0 <= k < |items| && items[k].id == m.id;
      AddExisting(items, m, k);
      LineIncrement(items, k, items[k].(quantity := items[k].quantity + 1));
      forall k' | 0 <= k' < |items| && items[k'].id == m.id
        ensures k' == k
      {
      }
    } else {
      TotalsAppend(items, [NewLine(m)]);
      TotalsSingle(NewLine(m));
    }
  }

  /** One more piece of a line adds one unit price to its line price. */
  lemma LinePriceStep(item: CartItem)
    ensures LinePrice(item.(quantity := item.quantity + 1)) == Plus(LinePrice(item), LinePrice(item.(quantity := 1)))
  {
    var p := ParsePrice(item.price);
    if p.Some? {
      assert p.value * (item.quantity + 1) == p.value * item.quantity + p.value;
    }
  }

  lemma PlusRearrange(a: Option<int>, l: Option<int>, u: Option<int>, c: Option<int>)
    ensures Plus(Plus(a, Plus(l, u)), c) == Plus(Plus(Plus(a, l), c), u)
  {
  }

  /** The totals after one more piece of line `k`. */
  lemma LineIncrement(items: seq<CartItem>, k: nat, item: CartItem)
    requires k < |items| && item == items[k].(quantity := items[k].quantity + 1)
    ensures ItemsCount(items[k := item]) == ItemsCount(items) + 1
    ensures TotalPrice(items[k := item]) == Plus(TotalPrice(items), LinePrice(items[k].(quantity := 1)))
  {
    var before := items[k];
    LinePriceStep(before);
    assert LinePrice(item) == Plus(LinePrice(before), LinePrice(before.(quantity := 1)));
    TotalsUpdate(items, k, item);
    PlusRearrange(TotalPrice(items[..k]), LinePrice(before), LinePrice(before.(quantity := 1)), TotalPrice(items[k + 1..]));
  }

  /** The totals after one piece less of line `k`. */
  lemma LineDecrement(items: seq<CartItem>, k: nat)
    requires k < |items|
    ensures var items' := items[k := items[k].(quantity := items[k].quantity - 1)];
      && ItemsCount(items') == ItemsCount(items) - 1
      && Plus(TotalPrice(items'), LinePrice(items[k].(quantity := 1))) == TotalPrice(items)
  {
    var item := items[k].(quantity := items[k].quantity - 1);
    TotalsUpdate(items, k, item);
    LinePriceStep(item);
    assert item.(quantity := item.quantity + 1) == items[k];
    assert item.(quantity := 1) == items[k].(quantity := 1);
    PlusRearrange(TotalPrice(items[..k]), LinePrice(item), LinePrice(items[k].(quantity := 1)), TotalPrice(items[k + 1..]));
  }

  /** `increaseQuantity` and `decreaseQuantity` move the totals by one piece;
      `removeFromCart` takes out the whole line. */
  lemma TotalsAfterQuantityChange(items: seq<CartItem>, k: nat)
    requires UniqueIds(items) && k < |items|
    ensures ItemsCount(AfterIncrease(items, items[k].id)) == ItemsCount(items) + 1
    ensures TotalPrice(AfterIncrease(items, items[k].id)) == Plus(TotalPrice(items), LinePrice(items[k].(quantity := 1)))
    ensures items[k].quantity > 1 ==> ItemsCount(AfterDecrease(items, items[k].id)) == ItemsCount(items) - 1
    ensures items[k].quantity > 1 ==>
      Plus(TotalPrice(AfterDecrease(items, items[k].id)), LinePrice(items[k].(quantity := 1))) == TotalPrice(items)
  {
    IncreaseOnly(items, k);
    LineIncrement(items, k, items[k].(quantity := items[k].quantity + 1));
    DecreaseOnly(items, k);
    LineDecrement(items, k);
  }

  lemma TotalsAfterRemove(items: seq<CartItem>, k: nat)
    requires UniqueIds(items) && k < |items|
    ensures ItemsCount(AfterRemove(items, items[k].id)) == ItemsCount(items) - items[k].quantity
    ensures Plus(Plus(TotalPrice(items[..k]), LinePrice(items[k])), TotalPrice(items[k + 1..])) == TotalPrice(items)
    ensures TotalPrice(AfterRemove(items, items[k].id)) == Plus(TotalPrice(items[..k]), TotalPrice(items[k + 1..]))
  {
    RemoveAt(items, k);
    TotalsUpdate(items, k, items[k]);
    TotalsAppend(items[..k], items[k + 1..]);
  }

  // ---------------------------------------------------------------------
  // Repeated adds
  // ---------------------------------------------------------------------

  /** The cart after adding the same menu item `n` times to an empty cart. */
  function AddedTimes(m: MenuItem, n: nat): seq<CartItem> {
    if n == 0 then [] else AfterAdd(AddedTimes(m, n - 1), m)
  }

  /** `n` adds of one id give one line holding `n` pieces. */
  lemma {:induction false} AddedTimesOneLine(m: MenuItem, n: nat)
    requires n >= 1
    ensures AddedTimes(m, n) == [CartItem(m.id, m.name, m.price, m.image, n)]
  {
    if n > 1 {
      AddedTimesOneLine(m, n - 1);
      AddExisting(AddedTimes(m, n - 1), m, 0);
    }
  }

  // ---------------------------------------------------------------------
  // The store
  // ---------------------------------------------------------------------

  /** The provider's state: `items`, `isCartOpen`, and the "zenith-cart"
      entry of local storage that an effect rewrites whenever `items`
      changes (here: in the same step). */
  class CartStore {
    var items: seq<CartItem>
    var isCartOpen: bool
    var stored: seq<CartItem>

    /** The persisted snapshot always equals the list. */
    ghost predicate Synced()
      reads this
    {
      stored == items
    }

    /** Lazy initialisation: the saved snapshot when there is one and it
        parses (`None`: missing or unreadable), the empty list otherwise. */
    constructor (saved: Option<seq<CartItem>>)
      ensures items == (if saved.Some? then saved.value else [])
      ensures !isCartOpen && Synced()
    {
      items := if saved.Some? then saved.value else [];
      isCartOpen := false;
      stored := items;
    }

    method AddToCart(m: MenuItem)
      modifies this
      ensures items == AfterAdd(old(items), m)
      ensures isCartOpen && Synced()
      ensures old(WellFormed(items)) ==> WellFormed(items)
    {
      if old(WellFormed(items)) {
        AddKeepsWellFormed(items, m);
      }
      items := AfterAdd(items, m);
      stored := items;
      isCartOpen := true;
    }

    method RemoveFromCart(id: int)
      modifies this
      ensures items == AfterRemove(old(items), id) && !HasId(items, id)
      ensures isCartOpen == old(isCartOpen) && Synced()
      ensures old(WellFormed(items)) ==> WellFormed(items)
    {
      if WellFormed(items) {
        RemoveKeepsWellFormed(items, id);
      }
      items := AfterRemove(items, id);
      stored := items;
    }

    method IncreaseQuantity(id: int)
      modifies this
      ensures items == AfterIncrease(old(items), id)
      ensures isCartOpen == old(isCartOpen) && Synced()
      ensures old(WellFormed(items)) ==> WellFormed(items)
    {
      items := AfterIncrease(items, id);
      stored := items;
    }

    method DecreaseQuantity(id: int)
      modifies this
      ensures items == AfterDecrease(old(items), id)
      ensures isCartOpen == old(isCartOpen) && Synced()
      ensures old(WellFormed(items)) ==> WellFormed(items)
    {
      items := AfterDecrease(items, id);
      stored := items;
    }

    method ClearCart()
      modifies this
      ensures items == [] && ItemsCount(items) == 0 && TotalPrice(items) == Some(0)
      ensures isCartOpen == old(isCartOpen) && Synced()
    {
      items := [];
      stored := items;
    }

    method ToggleCart()
      modifies this`isCartOpen
      ensures isCartOpen == !old(isCartOpen)
    {
      isCartOpen := !isCartOpen;
    }
  }
}
