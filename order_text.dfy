/** The texts an order submission is built from: the dropdown column's fragrance
    list, the quantity as decimal text, today's date taken from an ISO timestamp,
    the item name, the column-values payload and the `create_item` mutation that
    carries them (src/App.js:68-96). Each builder is paired with its inverse or
    with a characterisation that does not depend on how it is computed. */
module OrderText {
  import opened Values

  // ---------------------------------------------------------------------------
  // Joining the selected fragrances

  /** What the selected fragrances are joined with. */
  const Separator := ", "

  /** `Array.prototype.join`: the parts in order with `sep` between neighbours. */
  function Join(parts: seq<string>, sep: string): string
  {
    if |parts| == 0 then ""
    else if |parts| == 1 then parts[0]
    else parts[0] + sep + Join(parts[1..], sep)
  }

  /** The summed length of the parts. */
  function TotalLength(parts: seq<string>): nat
  {
    if parts == [] then 0 else |parts[0]| + TotalLength(parts[1..])
  }

  /** The `value` of every selected option, in selection order. */
  function SelectedValues(selected: seq<FragranceOption>): seq<string>
  {
    seq(|selected|, i requires 0 <= i < |selected| => selected[i].value)
  }

  /** The dropdown column's text: the selected values joined by ", " (src/App.js:68-70). */
  function FormatFragrances(selected: seq<FragranceOption>): string
  {
    Join(SelectedValues(selected), Separator)
  }

  /** True when `s` holds no ", ", so that a joined list can be cut back at its separators. */
  predicate FreeOfSeparator(s: string)
  {
    forall i :: 0 <= i < |s| - 1 ==> !(s[i] == ',' && s[i + 1] == ' ')
  }

  /** Cuts `s` at every ", ", scanning from the left; one piece when there is none. */
  function Split(s: string): (pieces: seq<string>)
    ensures |pieces| > 0
    decreases |s|
  {
    if |s| == 0 then [""]
    else if |s| >= 2 && s[0] == ',' && s[1] == ' ' then [""] + Split(s[2..])
    else
      var rest := Split(s[1..]);
      [[s[0]] + rest[0]] + rest[1..]
  }

  /** n joined parts take their lengths plus one two-character separator for each
      of the n - 1 gaps. */
  lemma {:induction false} JoinLength(parts: seq<string>)
    requires |parts| > 0
    ensures |Join(parts, Separator)| == TotalLength(parts) + 2 * (|parts| - 1)
  {
    if |parts| > 1 {
      JoinLength(parts[1..]);
    } else {
      assert parts[1..] == [];
    }
  }

  lemma {:induction false} SplitUnseparated(s: string)
    requires FreeOfSeparator(s)
    ensures Split(s) == [s]
  {
    if |s| > 0 {
      assert FreeOfSeparator(s[1..]) by {
        forall i | 0 <= i < |s[1..]| - 1 ensures !(s[1..][i] == ',' && s[1..][i + 1] == ' ') {
          assert s[1..][i] == s[i + 1] && s[1..][i + 1] == s[i + 2];
        }
      }
      SplitUnseparated(s[1..]);
      assert [s[0]] + s[1..] == s;
    }
  }

  /** Splitting stops at the first separator when the text before it holds none. */
  lemma {:induction false} SplitAfterFirst(v: string, rest: string)
    requires FreeOfSeparator(v)
    ensures Split(v + Separator + rest) == [v] + Split(rest)
  {
    var s := v + Separator + rest;
    if |v| == 0 {
      assert s == Separator + rest;
      assert s[2..] == rest;
    } else {
      assert s[0] == v[0];
      assert s[1] == if |v| >= 2 then v[1] else ',';
      assert FreeOfSeparator(v[1..]) by {
        forall i | 0 <= i < |v[1..]| - 1 ensures !(v[1..][i] == ',' && v[1..][i + 1] == ' ') {
          assert v[1..][i] == v[i + 1] && v[1..][i + 1] == v[i + 2];
        }
      }
      assert s[1..] == v[1..] + Separator + rest;
      SplitAfterFirst(v[1..], rest);
      assert [s[0]] + v[1..] == v;
    }
  }

  /** Split undoes Join: a non-empty list of separator-free parts is recovered
      from its joined text. */
  lemma {:induction false} SplitJoin(parts: seq<string>)
    requires |parts| > 0
    requires forall i :: 0 <= i < |parts| ==> FreeOfSeparator(parts[i])
    ensures Split(Join(parts, Separator)) == parts
  {
    if |parts| == 1 {
      SplitUnseparated(parts[0]);
    } else {
      SplitAfterFirst(parts[0], Join(parts[1..], Separator));
      SplitJoin(parts[1..]);
      assert [parts[0]] + parts[1..] == parts;
    }
  }

  /** One selected fragrance is sent as its value alone. */
  lemma FormatOne(option: FragranceOption)
    ensures FormatFragrances([option]) == option.value
  {
  }

  /** The fragrance text of n selections has the n values' length plus n - 1 separators. */
  lemma FormatLength(selected: seq<FragranceOption>)
    requires |selected| > 0
    ensures |FormatFragrances(selected)| == TotalLength(SelectedValues(selected)) + 2 * (|selected| - 1)
  {
    JoinLength(SelectedValues(selected));
  }

  /** The fragrance text cuts back into exactly the selected values, in selection
      order, whenever no value itself holds ", ". */
  lemma FormatDecodes(selected: seq<FragranceOption>)
    requires |selected| > 0
    requires forall i :: 0 <= i < |selected| ==> FreeOfSeparator(selected[i].value)
    ensures Split(FormatFragrances(selected)) == SelectedValues(selected)
    ensures |Split(FormatFragrances(selected))| == |selected|
  {
    SplitJoin(SelectedValues(selected));
  }

  // ---------------------------------------------------------------------------
  // The quantity as text

  function DigitChar(d: nat): char
    requires d < 10
  {
    ('0' as int + d) as char
  }

  predicate IsDigit(c: char)
  {
    '0' <= c <= '9'
  }

  predicate AllDigits(s: string)
  {
    forall i :: 0 <= i < |s| ==> IsDigit(s[i])
  }

  /** Decimal text of a natural number: digits only, and no leading zero. */
  function NatToDecimal(n: nat): (s: string)
    ensures |s| > 0 && AllDigits(s)
    ensures s[0] == '0' ==> n == 0
    decreases n
  {
    if n < 10 then [DigitChar(n)] else NatToDecimal(n / 10) + [DigitChar(n % 10)]
  }

  /** The quantity's text in the column values: a minus sign for negatives, then
      the decimal digits. This agrees with how JavaScript writes a number into a
      template literal for integers of magnitude up to 2^53. */
  function IntToDecimal(n: int): string
  {
    if n < 0 then "-" + NatToDecimal(-n) else NatToDecimal(n)
  }

  /** The number that a string of decimal digits denotes. */
  function DecimalValue(s: string): nat
    requires AllDigits(s)
  {
    if s == [] then 0 else 10 * DecimalValue(s[..|s| - 1]) + (s[|s| - 1] as int - '0' as int)
  }

  /** Reads an optionally negative decimal integer; None for anything else. */
  function ReadInteger(s: string): Option<int>
  {
    if |s| > 1 && s[0] == '-' && AllDigits(s[1..]) then Some(-(DecimalValue(s[1..]) as int))
    else if |s| > 0 && AllDigits(s) then Some(DecimalValue(s))
    else None
  }

  lemma {:induction false} NatDecimalRoundTrip(n: nat)
    ensures DecimalValue(NatToDecimal(n)) == n
  {
    if n >= 10 {
      var s := NatToDecimal(n);
      assert s[..|s| - 1] == NatToDecimal(n / 10);
      NatDecimalRoundTrip(n / 10);
    }
  }

  /** The quantity text of an order reads back as the quantity. */
  lemma QuantityRoundTrip(n: int)
    ensures ReadInteger(IntToDecimal(n)) == Some(n)
  {
    if n < 0 {
      var s := IntToDecimal(n);
      assert s[1..] == NatToDecimal(-n);
      NatDecimalRoundTrip(-n);
    } else {
      NatDecimalRoundTrip(n);
    }
  }

  // ---------------------------------------------------------------------------
  // Today's date

  /** `iso.split("T")[0]`: the text before the first 'T', all of `iso` when it has none. */
  function DatePart(iso: string): (date: string)
    ensures date <= iso
    ensures forall i :: 0 <= i < |date| ==> date[i] != 'T'
    ensures |date| < |iso| ==> iso[|date|] == 'T'
  {
    if iso == [] || iso[0] == 'T' then "" else [iso[0]] + DatePart(iso[1..])
  }

  /** An ISO timestamp `<date>T<time>` yields its date. */
  lemma DateOfTimestamp(date: string, time: string)
    requires forall i :: 0 <= i < |date| ==> date[i] != 'T'
    ensures DatePart(date + "T" + time) == date
  {
    var iso := date + "T" + time;
    var d := DatePart(iso);
    assert forall i :: 0 <= i < |date| ==> iso[i] == date[i];
    assert iso[|date|] == 'T';
    assert |d| == |date|;
    assert d == iso[..|d|] && date == iso[..|date|];
  }

  // ---------------------------------------------------------------------------
  // The create_item mutation

  /** The new item's name (src/App.js:89). */
  function ItemName(firstName: string, lastName: string): string
  {
    "New Order for " + firstName + " " + lastName
  }

  /** A backslash and a double quote: the template's `\\"`. */
  const Quote := "\\\""

  /** `"<key>":"<text>` with both quotes escaped, as in the column-values payload. */
  function Entry(key: string, sep: string, text: string): string
  {
    Quote + key + Quote + sep + Quote + text + Quote
  }

  /** The column-values payload: status, quantity, fragrance list and date (src/App.js:90-92). */
  function ColumnValues(quantity: int, fragrances: string, date: string): string
  {
    "{" + Entry("status", ":", "New Order") + ", " + Entry("numbers", ":", IntToDecimal(quantity))
    + ", " + Entry("dropdown", ": ", fragrances) + ", " + Entry("date_1", ":", date) + "}"
  }

  const BoardId := "7302640219"
  const GroupId := "topics"

  /** The mutation text before the item name's key. */
  const MutationOpening :=
    "\n            mutation {\n              create_item(\n                board_id: " + BoardId
    + ", \n                group_id: \"" + GroupId + "\", \n                "

  /** Between the item name and the column values. */
  const MutationMiddle := ", \n                column_values: \""

  /** After the column values. */
  const MutationTail := "\") {\n                  id\n              }\n            }\n          "

  /** The query text of the request (src/App.js:84-96). */
  function Mutation(itemName: string, columnValues: string): string
  {
    MutationOpening + ("item_name: \"" + itemName + "\"") + MutationMiddle + columnValues + MutationTail
  }

  /** The query a draft is submitted as, given the clock's ISO timestamp. */
  function OrderMutation(d: Draft, isoNow: string): string
  {
    Mutation(ItemName(d.firstName, d.lastName),
             ColumnValues(d.quantity, FormatFragrances(d.selected), DatePart(isoNow)))
  }

  /** `needle` occurs somewhere in `text`. */
  predicate Contains(text: string, needle: string)
  {
    exists i :: 0 <= i <= |text| && needle <= text[i..]
  }

  lemma ContainsWithin(before: string, middle: string, after: string, needle: string)
    requires Contains(middle, needle)
    ensures Contains(before + middle + after, needle)
  {
    var i :| 0 <= i <= |middle| && needle <= middle[i..];
    var text := before + middle + after;
    assert text[|before| + i..] == middle[i..] + after;
  }

  lemma ContainsItself(needle: string)
    ensures Contains(needle, needle)
  {
    assert needle[0..] == needle;
  }

  /** The column values carry the quantity, the fragrance list and the date. */
  lemma ColumnValuesCarry(quantity: int, fragrances: string, date: string)
    ensures Contains(ColumnValues(quantity, fragrances, date), Entry("numbers", ":", IntToDecimal(quantity)))
    ensures Contains(ColumnValues(quantity, fragrances, date), Entry("dropdown", ": ", fragrances))
    ensures Contains(ColumnValues(quantity, fragrances, date), Entry("date_1", ":", date))
  {
    var s := "{" + Entry("status", ":", "New Order") + ", ";
    var q := Entry("numbers", ":", IntToDecimal(quantity));
    var f := Entry("dropdown", ": ", fragrances);
    var t := Entry("date_1", ":", date);
    ContainsItself(q);
    ContainsItself(f);
    ContainsItself(t);
    assert ColumnValues(quantity, fragrances, date) == s + q + (", " + f + ", " + t + "}");
    ContainsWithin(s, q, ", " + f + ", " + t + "}", q);
    assert ColumnValues(quantity, fragrances, date) == (s + q + ", ") + f + (", " + t + "}");
    ContainsWithin(s + q + ", ", f, ", " + t + "}", f);
    assert ColumnValues(quantity, fragrances, date) == (s + q + ", " + f + ", ") + t + "}";
    ContainsWithin(s + q + ", " + f + ", ", t, "}", t);
  }

  /** The submitted query names the customer in `item_name` and carries the
      quantity, the fragrance list and the date as column values. */
  lemma OrderMutationCarriesDraft(d: Draft, isoNow: string)
    ensures Contains(OrderMutation(d, isoNow), "item_name: \"New Order for " + d.firstName + " " + d.lastName + "\"")
    ensures Contains(OrderMutation(d, isoNow), Entry("numbers", ":", IntToDecimal(d.quantity)))
    ensures Contains(OrderMutation(d, isoNow), Entry("dropdown", ": ", FormatFragrances(d.selected)))
    ensures Contains(OrderMutation(d, isoNow), Entry("date_1", ":", DatePart(isoNow)))
  {
    var item := "item_name: \"" + ItemName(d.firstName, d.lastName) + "\"";
    var cv := ColumnValues(d.quantity, FormatFragrances(d.selected), DatePart(isoNow));
    var m := OrderMutation(d, isoNow);
    assert item == "item_name: \"New Order for " + d.firstName + " " + d.lastName + "\"";
    ContainsItself(item);
    assert m == MutationOpening + item + (MutationMiddle + cv + MutationTail);
    ContainsWithin(MutationOpening, item, MutationMiddle + cv + MutationTail, item);
    ColumnValuesCarry(d.quantity, FormatFragrances(d.selected), DatePart(isoNow));
    assert m == (MutationOpening + item + MutationMiddle) + cv + MutationTail;
    ContainsWithin(MutationOpening + item + MutationMiddle, cv, MutationTail, Entry("numbers", ":", IntToDecimal(d.quantity)));
    ContainsWithin(MutationOpening + item + MutationMiddle, cv, MutationTail, Entry("dropdown", ": ", FormatFragrances(d.selected)));
    ContainsWithin(MutationOpening + item + MutationMiddle, cv, MutationTail, Entry("date_1", ":", DatePart(isoNow)));
  }

  /** A worked order: Jane Doe, five candles, Vanilla then Rose. */
  lemma JaneDoeOrder()
    ensures ItemName("Jane", "Doe") == "New Order for Jane Doe"
    ensures IntToDecimal(5) == "5"
    ensures FormatFragrances([FragranceOption("Vanilla", "Vanilla"), FragranceOption("Rose", "Rose")]) == "Vanilla, Rose"
    ensures DatePart("2024-05-17T09:30:00.000Z") == "2024-05-17"
  {
    DateOfTimestamp("2024-05-17", "09:30:00.000Z");
    assert "2024-05-17T09:30:00.000Z" == "2024-05-17" + "T" + "09:30:00.000Z";
  }
}
