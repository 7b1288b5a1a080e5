/**
 * `utils/file_handler.py`: the line step of `read_sales_data`,
 * `parse_transactions` and `validate_and_filter`.
 *
 * Python's `float()` is not modelled; the price parser is a parameter
 * `parsePrice` that returns `None` where `float()` raises `ValueError`.
 */
module FileHandler {
  import opened Wrappers
  import opened Text
  import opened Records

  // ---------------------------------------------------------------------------
  // read_sales_data: skip the header, strip every line, drop the empty ones.

  /** The stripped non-empty lines of `lines`, in order: never more lines than given, none of them empty. */
  function NonBlankLines(lines: seq<string>): (r: seq<string>)
    ensures |r| <= |lines|
    ensures forall i :: 0 <= i < |r| ==> r[i] != []
  {
    if lines == [] then []
    else
      var l := Strip(lines[|lines| - 1]);
      NonBlankLines(lines[..|lines| - 1]) + (if l != [] then [l] else [])
  }

  /** `lines[1:]`, the lines after the header. */
  function AfterHeader(lines: seq<string>): seq<string> {
    if lines == [] then [] else lines[1..]
  }

  method DataLines(lines: seq<string>) returns (dataLines: seq<string>)
    ensures dataLines == NonBlankLines(AfterHeader(lines))
  {
    dataLines := [];
    var body := AfterHeader(lines);
    for i := 0 to |body|
      invariant dataLines == NonBlankLines(body[..i])
    {
      assert body[..i + 1][..i] == body[..i];
      var strippedLine := Strip(body[i]);
      if strippedLine != [] {
        dataLines := dataLines + [strippedLine];
      }
    }
    assert body[..|body|] == body;
  }

  /** Every kept line is already stripped. */
  lemma {:induction false} NonBlankLinesClean(lines: seq<string>)
    ensures forall l :: l in NonBlankLines(lines) ==> Strip(l) == l
  {
    if lines != [] {
      NonBlankLinesClean(lines[..|lines| - 1]);
      StripIdempotent(lines[|lines| - 1]);
    }
  }

  /** The line step works line by line, so it keeps the order of the file. */
  lemma {:induction false} NonBlankLinesAppend(a: seq<string>, b: seq<string>)
    ensures NonBlankLines(a + b) == NonBlankLines(a) + NonBlankLines(b)
  {
    if b == [] {
      assert a + b == a;
    } else {
      var b' := b[..|b| - 1];
      assert (a + b)[..|a + b| - 1] == a + b';
      assert (a + b)[|a + b| - 1] == b[|b| - 1];
      NonBlankLinesAppend(a, b');
    }
  }

  // ---------------------------------------------------------------------------
  // parse_transactions

  const ExpectedFields := 8

  /**
   * One line of `parse_transactions`: `None` when the line is skipped (blank,
   * not exactly eight `|`-separated fields, or a quantity or price that does
   * not parse).
   */
  function ParseLine(line: string, parsePrice: string -> Option<real>): (r: Option<Transaction>)
    ensures Strip(line) == [] ==> r.None?
    ensures r.Some? ==> |Split(line, '|')| == ExpectedFields
  {
    if line == [] || Strip(line) == [] then None
    else ParseFields(Split(line, '|'), parsePrice)
  }

  /**
   * The fields of a non-blank line turned into a record, or `None` when the
   * line is skipped: exactly when the field count is wrong or the quantity or
   * the price does not parse.
   */
  function ParseFields(fields: seq<string>, parsePrice: string -> Option<real>): (r: Option<Transaction>)
    ensures r.Some? <==>
      && |fields| == ExpectedFields
      && ParseInt(Strip(RemoveChar(Strip(fields[4]), ','))).Some?
      && parsePrice(Strip(RemoveChar(Strip(fields[5]), ','))).Some?
    ensures r.Some? ==>
      && Some(r.value.quantity) == ParseInt(Strip(RemoveChar(Strip(fields[4]), ',')))
      && Some(r.value.unitPrice) == parsePrice(Strip(RemoveChar(Strip(fields[5]), ',')))
  {
    if |fields| != ExpectedFields then None
    else
      var quantity := ParseInt(Strip(RemoveChar(Strip(fields[4]), ',')));
      var unitPrice := parsePrice(Strip(RemoveChar(Strip(fields[5]), ',')));
      if quantity.None? || unitPrice.None? then None
      else
        Some(Transaction(
          Strip(fields[0]), Strip(fields[1]), Strip(fields[2]), RemoveChar(Strip(fields[3]), ','),
          quantity.value, unitPrice.value, Strip(fields[6]), Strip(fields[7])))
  }

  /** The parsed records of `lines`, in order: at most one per line, and one per line when every line parses. */
  function ParseAll(lines: seq<string>, parsePrice: string -> Option<real>): (r: seq<Transaction>)
    ensures |r| <= |lines|
    ensures (forall i :: 0 <= i < |lines| ==> ParseLine(lines[i], parsePrice).Some?) ==> |r| == |lines|
  {
    if lines == [] then []
    else
      var p := ParseLine(lines[|lines| - 1], parsePrice);
      ParseAll(lines[..|lines| - 1], parsePrice) + (if p.Some? then [p.value] else [])
  }

  method ParseTransactions(rawLines: seq<string>, parsePrice: string -> Option<real>) returns (transactions: seq<Transaction>)
    ensures transactions == ParseAll(rawLines, parsePrice)
  {
    transactions := [];
    for i := 0 to |rawLines|
      invariant transactions == ParseAll(rawLines[..i], parsePrice)
    {
      var line := rawLines[i];
      assert rawLines[..i + 1][..i] == rawLines[..i];
      if line == [] || Strip(line) == [] {
        continue;
      }
      var fields := Split(line, '|');
      if |fields| != ExpectedFields {
        continue;
      }
      var transactionId := Strip(fields[0]);
      var date := Strip(fields[1]);
      var productId := Strip(fields[2]);
      var productName := Strip(fields[3]);
      var quantityStr := Strip(fields[4]);
      var unitPriceStr := Strip(fields[5]);
      var customerId := Strip(fields[6]);
      var region := Strip(fields[7]);
      productName := RemoveChar(productName, ',');
      var quantity := ParseInt(Strip(RemoveChar(quantityStr, ',')));
      if quantity.None? {
        continue;
      }
      var unitPrice := parsePrice(Strip(RemoveChar(unitPriceStr, ',')));
      if unitPrice.None? {
        continue;
      }
      transactions := transactions + [Transaction(transactionId, date, productId, productName,
                                                  quantity.value, unitPrice.value, customerId, region)];
    }
    assert rawLines[..|rawLines|] == rawLines;
  }

  /** Parsing works line by line, so it keeps the order of the lines. */
  lemma {:induction false} ParseAllAppend(a: seq<string>, b: seq<string>, parsePrice: string -> Option<real>)
    ensures ParseAll(a + b, parsePrice) == ParseAll(a, parsePrice) + ParseAll(b, parsePrice)
  {
    if b == [] {
      assert a + b == a;
    } else {
      var b' := b[..|b| - 1];
      assert (a + b)[..|a + b| - 1] == a + b';
      assert (a + b)[|a + b| - 1] == b[|b| - 1];
      ParseAllAppend(a, b', parsePrice);
    }
  }

  /**
   * A parsed record comes from a line of exactly eight fields; its text
   * fields are stripped, its product name has no commas, and its quantity and
   * price are what `int()` and the price parser make of those fields without
   * commas.
   */
  lemma ParseLineFields(line: string, parsePrice: string -> Option<real>)
    requires ParseLine(line, parsePrice).Some?
    ensures var t := ParseLine(line, parsePrice).value;
            var fields := Split(line, '|');
            && |fields| == ExpectedFields
            && Strip(t.transactionId) == t.transactionId
            && Strip(t.date) == t.date
            && Strip(t.productId) == t.productId
            && Strip(t.customerId) == t.customerId
            && Strip(t.region) == t.region
            && ',' !in t.productName
            && Some(t.quantity) == ParseInt(Strip(RemoveChar(Strip(fields[4]), ',')))
            && Some(t.unitPrice) == parsePrice(Strip(RemoveChar(Strip(fields[5]), ',')))
  {
    var fields := Split(line, '|');
    StripIdempotent(fields[0]);
    StripIdempotent(fields[1]);
    StripIdempotent(fields[2]);
    StripIdempotent(fields[6]);
    StripIdempotent(fields[7]);
  }

  /** The cleanliness `ParseLineFields` gives every parsed record. */
  predicate CleanRecord(t: Transaction) {
    && Strip(t.transactionId) == t.transactionId
    && Strip(t.productId) == t.productId
    && Strip(t.customerId) == t.customerId
    && ',' !in t.productName
  }

  /** The cleanliness of `ParseLineFields` holds for every record of a whole file. */
  lemma {:induction false} ParseAllClean(lines: seq<string>, parsePrice: string -> Option<real>)
    ensures forall t :: t in ParseAll(lines, parsePrice) ==> CleanRecord(t)
  {
    if lines != [] {
      var init := lines[..|lines| - 1];
      var p := ParseLine(lines[|lines| - 1], parsePrice);
      var tail := if p.Some? then [p.value] else [];
      assert ParseAll(lines, parsePrice) == ParseAll(init, parsePrice) + tail;
      ParseAllClean(init, parsePrice);
      if p.Some? {
        ParseLineFields(lines[|lines| - 1], parsePrice);
        assert CleanRecord(p.value);
      }
    }
  }

  /** A text field the input format can carry unchanged: no `|`, no surrounding whitespace. */
  predicate CleanField(f: string) {
    '|' !in f && Strip(f) == f
  }

  /** The eight fields a record is written as, in the column order of the input format. */
  function LineFields(t: Transaction, priceText: string): (fs: seq<string>)
    ensures |fs| == ExpectedFields
    ensures fs[0] == t.transactionId && fs[1] == t.date && fs[2] == t.productId && fs[3] == t.productName
    ensures fs[4] == IntToString(t.quantity) && fs[5] == priceText && fs[6] == t.customerId && fs[7] == t.region
  {
    [t.transactionId, t.date, t.productId, t.productName, IntToString(t.quantity), priceText, t.customerId, t.region]
  }

  /** The input line a record is written as, with `priceText` standing for the price. */
  function FormatLine(t: Transaction, priceText: string): string {
    Join(LineFields(t, priceText), '|')
  }

  /** A formatted line splits back into its eight fields and is not blank. */
  lemma FormatLineFields(t: Transaction, priceText: string)
    requires '|' !in t.transactionId && '|' !in t.date && '|' !in t.productId && '|' !in t.productName
    requires '|' !in priceText && '|' !in t.customerId && '|' !in t.region
    ensures Split(FormatLine(t, priceText), '|') == LineFields(t, priceText)
    ensures Strip(FormatLine(t, priceText)) != []
  {
    var q := IntToString(t.quantity);
    var fs := LineFields(t, priceText);
    var line := FormatLine(t, priceText);
    IntToStringClean(t.quantity);
    assert '|' !in q;
    assert forall i :: 0 <= i < |fs| ==> '|' !in fs[i];
    SplitJoin(fs, '|');
    assert Join(fs, '|') == Join(fs[..7], '|') + ['|'] + t.region;
    StripKeepsNonSpace(line, |Join(fs[..7], '|')|);
  }

  /**
   * Parsing inverts the file format: a record whose text fields are clean and
   * whose product name has no comma, written as one line, parses back to
   * itself, provided the price text reads back as its price.
   */
  lemma ParseFormatLine(t: Transaction, priceText: string, parsePrice: string -> Option<real>)
    requires CleanField(t.transactionId) && CleanField(t.date) && CleanField(t.productId)
    requires CleanField(t.productName) && CleanField(t.customerId) && CleanField(t.region)
    requires ',' !in t.productName
    requires '|' !in priceText && parsePrice(Strip(RemoveChar(Strip(priceText), ','))) == Some(t.unitPrice)
    ensures ParseLine(FormatLine(t, priceText), parsePrice) == Some(t)
  {
    FormatLineFields(t, priceText);
    ParseFieldsOfRecord(t, priceText, parsePrice);
  }

  /** The field-by-field half of `ParseFormatLine`: the eight fields of a clean record parse back to it. */
  lemma ParseFieldsOfRecord(t: Transaction, priceText: string, parsePrice: string -> Option<real>)
    requires CleanField(t.transactionId) && CleanField(t.date) && CleanField(t.productId)
    requires CleanField(t.productName) && CleanField(t.customerId) && CleanField(t.region)
    requires ',' !in t.productName
    requires parsePrice(Strip(RemoveChar(Strip(priceText), ','))) == Some(t.unitPrice)
    ensures ParseFields(LineFields(t, priceText), parsePrice) == Some(t)
  {
    var fs := LineFields(t, priceText);
    assert ParseInt(Strip(RemoveChar(Strip(fs[4]), ','))) == Some(t.quantity) by {
      var q := IntToString(t.quantity);
      IntToStringClean(t.quantity);
      assert ',' !in q;
      assert RemoveChar(q, ',') == q;
      ParseIntToString(t.quantity);
    }
    assert RemoveChar(Strip(fs[3]), ',') == t.productName;
    ParseFieldsBack(fs, t, parsePrice);
  }

  /** Eight fields whose stripped texts and parsed numbers are those of `t` give back `t`. */
  lemma ParseFieldsBack(fs: seq<string>, t: Transaction, parsePrice: string -> Option<real>)
    requires |fs| == ExpectedFields
    requires Strip(fs[0]) == t.transactionId && Strip(fs[1]) == t.date && Strip(fs[2]) == t.productId
    requires RemoveChar(Strip(fs[3]), ',') == t.productName
    requires ParseInt(Strip(RemoveChar(Strip(fs[4]), ','))) == Some(t.quantity)
    requires parsePrice(Strip(RemoveChar(Strip(fs[5]), ','))) == Some(t.unitPrice)
    requires Strip(fs[6]) == t.customerId && Strip(fs[7]) == t.region
    ensures ParseFields(fs, parsePrice) == Some(t)
  {
  }

  // ---------------------------------------------------------------------------
  // validate_and_filter

  /** `bool(transaction[field])` for the `i`-th of the eight required fields (`0` and `0.0` are falsy). */
  predicate FieldTruthy(t: Transaction, i: nat) {
    if i == 0 then t.transactionId != []
    else if i == 1 then t.date != []
    else if i == 2 then t.productId != []
    else if i == 3 then t.productName != []
    else if i == 4 then t.quantity != 0
    else if i == 5 then t.unitPrice != 0.0
    else if i == 6 then t.customerId != []
    else if i == 7 then t.region != []
    else true
  }

  /** The validation rules a record must pass. */
  predicate IsValid(t: Transaction) {
    && (forall i :: 0 <= i < ExpectedFields ==> FieldTruthy(t, i))
    && StartsWith(Strip(t.transactionId), 'T')
    && StartsWith(Strip(t.productId), 'P')
    && StartsWith(Strip(t.customerId), 'C')
    && t.quantity > 0
    && t.unitPrice > 0.0
  }

  /**
   * The presence check only matters for Date, ProductName and Region: the
   * prefix and sign checks already exclude an empty ID, a zero quantity and a
   * zero price.
   */
  lemma ValidExactly(t: Transaction)
    ensures IsValid(t) <==>
      && t.date != [] && t.productName != [] && t.region != []
      && StartsWith(Strip(t.transactionId), 'T')
      && StartsWith(Strip(t.productId), 'P')
      && StartsWith(Strip(t.customerId), 'C')
      && t.quantity > 0 && t.unitPrice > 0.0
  {
    var ok := t.date != [] && t.productName != [] && t.region != []
      && StartsWith(Strip(t.transactionId), 'T') && StartsWith(Strip(t.productId), 'P')
      && StartsWith(Strip(t.customerId), 'C') && t.quantity > 0 && t.unitPrice > 0.0;
    if ok {
      assert Strip(t.transactionId) != [] && Strip(t.productId) != [] && Strip(t.customerId) != [];
      forall i | 0 <= i < ExpectedFields
        ensures FieldTruthy(t, i)
      {
      }
    }
    if IsValid(t) {
      assert FieldTruthy(t, 1) && FieldTruthy(t, 3) && FieldTruthy(t, 7);
    }
  }

  /** The records that pass validation, in order. */
  function Validated(ts: seq<Transaction>): (r: seq<Transaction>)
    ensures |r| <= |ts|
  {
    if ts == [] then []
    else Validated(ts[..|ts| - 1]) + (if IsValid(ts[|ts| - 1]) then [ts[|ts| - 1]] else [])
  }

  /** The comprehension of the region filter. */
  function InRegion(ts: seq<Transaction>, region: string): (r: seq<Transaction>)
    ensures |r| <= |ts|
  {
    if ts == [] then []
    else InRegion(ts[..|ts| - 1], region) + (if Strip(ts[|ts| - 1].region) == Strip(region) then [ts[|ts| - 1]] else [])
  }

  /** The amount bounds, each optional and inclusive. */
  predicate InAmountRange(t: Transaction, minAmount: Option<real>, maxAmount: Option<real>) {
    && !(minAmount.Some? && Amount(t) < minAmount.value)
    && !(maxAmount.Some? && Amount(t) > maxAmount.value)
  }

  function InAmount(ts: seq<Transaction>, minAmount: Option<real>, maxAmount: Option<real>): (r: seq<Transaction>)
    ensures |r| <= |ts|
  {
    if ts == [] then []
    else InAmount(ts[..|ts| - 1], minAmount, maxAmount) + (if InAmountRange(ts[|ts| - 1], minAmount, maxAmount) then [ts[|ts| - 1]] else [])
  }

  /** The counts `validate_and_filter` reports. */
  datatype FilterSummary = FilterSummary(totalInput: nat, invalid: nat, filteredByRegion: nat, filteredByAmount: nat, finalCount: nat)

  method ValidateAndFilter(transactions: seq<Transaction>, region: Option<string>, minAmount: Option<real>, maxAmount: Option<real>)
    returns (validTransactions: seq<Transaction>, invalidCount: nat, summary: FilterSummary)
    ensures var validated := Validated(transactions);
            var regional := if region.Some? then InRegion(validated, region.value) else validated;
            && validTransactions == InAmount(regional, minAmount, maxAmount)
            && invalidCount == |transactions| - |validated|
            && summary.totalInput == |transactions|
            && summary.invalid == invalidCount
            && summary.filteredByRegion == |validated| - |regional|
            && summary.filteredByAmount == |regional| - |validTransactions|
            && summary.finalCount == |validTransactions|
            && summary.totalInput == summary.invalid + summary.filteredByRegion + summary.filteredByAmount + summary.finalCount
  {
    var totalInput := |transactions|;
    validTransactions, invalidCount := ValidateRecords(transactions);
    ghost var validated := validTransactions;

    var filteredByRegion := 0;
    if region.Some? {
      var beforeRegionFilter := |validTransactions|;
      validTransactions := InRegion(validTransactions, region.value);
      filteredByRegion := beforeRegionFilter - |validTransactions|;
    }

    var filteredByAmount := 0;
    if minAmount.Some? || maxAmount.Some? {
      var beforeAmountFilter := |validTransactions|;
      var filteredTransactions := FilterByAmount(validTransactions, minAmount, maxAmount);
      filteredByAmount := beforeAmountFilter - |filteredTransactions|;
      validTransactions := filteredTransactions;
    } else {
      InAmountNoBounds(validTransactions);
    }

    var finalCount := |validTransactions|;
    summary := FilterSummary(totalInput, invalidCount, filteredByRegion, filteredByAmount, finalCount);
  }

  /**
   * The validation loop of `validate_and_filter`: every record is either
   * kept or counted as invalid, exactly once.
   */
  method ValidateRecords(transactions: seq<Transaction>) returns (validTransactions: seq<Transaction>, invalidCount: nat)
    ensures validTransactions == Validated(transactions)
    ensures invalidCount + |validTransactions| == |transactions|
  {
    validTransactions := [];
    invalidCount := 0;
    for i := 0 to |transactions|
      invariant validTransactions == Validated(transactions[..i])
      invariant invalidCount + |validTransactions| == i
    {
      var transaction := transactions[i];
      assert transactions[..i + 1][..i] == transactions[..i];
      var isValid := true;
      var f := 0;
      while f < ExpectedFields
        invariant 0 <= f <= ExpectedFields
        invariant isValid
        invariant forall g :: 0 <= g < f ==> FieldTruthy(transaction, g)
      {
        if !FieldTruthy(transaction, f) {
          isValid := false;
          break;
        }
        f := f + 1;
      }
      if !isValid {
        invalidCount := invalidCount + 1;
        continue;
      }
      if !StartsWith(Strip(transaction.transactionId), 'T') {
        isValid := false;
      }
      if !StartsWith(Strip(transaction.productId), 'P') {
        isValid := false;
      }
      if !StartsWith(Strip(transaction.customerId), 'C') {
        isValid := false;
      }
      if transaction.quantity <= 0 {
        isValid := false;
      }
      if transaction.unitPrice <= 0.0 {
        isValid := false;
      }
      if isValid {
        validTransactions := validTransactions + [transaction];
      } else {
        invalidCount := invalidCount + 1;
      }
    }
    assert transactions[..|transactions|] == transactions;
  }

  /** The amount-filter loop of `validate_and_filter`, skipping a record below the minimum or above the maximum. */
  method FilterByAmount(validTransactions: seq<Transaction>, minAmount: Option<real>, maxAmount: Option<real>)
    returns (filteredTransactions: seq<Transaction>)
    ensures filteredTransactions == InAmount(validTransactions, minAmount, maxAmount)
  {
    filteredTransactions := [];
    for k := 0 to |validTransactions|
      invariant filteredTransactions == InAmount(validTransactions[..k], minAmount, maxAmount)
    {
      var t := validTransactions[k];
      assert validTransactions[..k + 1][..k] == validTransactions[..k];
      var transactionAmount := Amount(t);
      if minAmount.Some? && transactionAmount < minAmount.value {
        continue;
      }
      if maxAmount.Some? && transactionAmount > maxAmount.value {
        continue;
      }
      filteredTransactions := filteredTransactions + [t];
    }
    assert validTransactions[..|validTransactions|] == validTransactions;
  }

  /** Without bounds the amount filter keeps everything, so skipping it changes nothing. */
  lemma {:induction false} InAmountNoBounds(ts: seq<Transaction>)
    ensures InAmount(ts, None, None) == ts
  {
    if ts != [] {
      InAmountNoBounds(ts[..|ts| - 1]);
    }
  }

  /** A record survives validation exactly when it is in the input and valid. */
  lemma {:induction false} ValidatedExactly(ts: seq<Transaction>)
    ensures forall t :: t in Validated(ts) <==> t in ts && IsValid(t)
  {
    if ts != [] {
      var init := ts[..|ts| - 1];
      assert ts == init + [ts[|ts| - 1]];
      ValidatedExactly(init);
    }
  }

  /** The region filter keeps exactly the records whose stripped region is the stripped argument. */
  lemma {:induction false} InRegionExactly(ts: seq<Transaction>, region: string)
    ensures forall t :: t in InRegion(ts, region) <==> t in ts && Strip(t.region) == Strip(region)
  {
    if ts != [] {
      var init := ts[..|ts| - 1];
      assert ts == init + [ts[|ts| - 1]];
      InRegionExactly(init, region);
    }
  }

  /** The amount filter keeps exactly the records with `min <= Quantity * UnitPrice <= max`, each bound optional. */
  lemma {:induction false} InAmountExactly(ts: seq<Transaction>, minAmount: Option<real>, maxAmount: Option<real>)
    ensures forall t :: t in InAmount(ts, minAmount, maxAmount) <==>
              && t in ts
              && (minAmount.Some? ==> minAmount.value <= Amount(t))
              && (maxAmount.Some? ==> Amount(t) <= maxAmount.value)
  {
    if ts != [] {
      var init := ts[..|ts| - 1];
      assert ts == init + [ts[|ts| - 1]];
      InAmountExactly(init, minAmount, maxAmount);
    }
  }
}
