/**
 * The offline half of the product-API integration: turning the products the
 * API returned into a lookup table, attaching the looked-up fields to each
 * transaction, and the pipe-delimited rows both enrichment writers produce.
 */
module ApiHandler {
  import opened Wrappers
  import opened Text
  import opened Collections
  import opened Records
  import FileHandler

  /** One product object of the API response; a missing key is `None`. */
  datatype Product = Product(
    id: Option<int>,
    title: Option<string>,
    category: Option<string>,
    brand: Option<string>,
    rating: Option<real>)

  /** The value stored for one product ID in the mapping. */
  datatype ProductInfo = ProductInfo(title: string, category: string, brand: string, rating: real)

  /**
   * What `create_product_mapping` may be handed: a list of products, a
   * dictionary (whose `products` key may be absent), or any other value.
   */
  datatype Payload =
    | ProductArray(items: seq<Product>)
    | ProductObject(products: Option<seq<Product>>)
    | OtherValue

  const MappingError := "api_products must be a list of products or a dict with 'products' key"

  /** The product list a payload carries, or `None` where the mapping raises `ValueError`. */
  function ProductsOf(payload: Payload): Option<seq<Product>> {
    match payload
    case ProductArray(ps) => Some(ps)
    case ProductObject(ps) => ps
    case OtherValue => None
  }

  /** The four fields kept for a product, each defaulted when the key is missing. */
  function InfoOf(p: Product): ProductInfo {
    ProductInfo(p.title.GetOr(""), p.category.GetOr(""), p.brand.GetOr(""), p.rating.GetOr(0.0))
  }

  /** The dictionary built from `ps` in order: products without an ID are skipped, a later ID overwrites. */
  function MappingOf(ps: seq<Product>): map<int, ProductInfo> {
    if ps == [] then map[]
    else
      var m := MappingOf(ps[..|ps| - 1]);
      var p := ps[|ps| - 1];
      if p.id.Some? then m[p.id.value := InfoOf(p)] else m
  }

  /** `j` is the last position in `ps` whose product has ID `k`. */
  predicate LastWithId(ps: seq<Product>, k: int, j: int) {
    && 0 <= j < |ps|
    && ps[j].id == Some(k)
    && forall j' :: j < j' < |ps| ==> ps[j'].id != Some(k)
  }

  /** The mapping's keys are exactly the IDs some product carries. */
  lemma {:induction false} MappingKeys(ps: seq<Product>, k: int)
    ensures k in MappingOf(ps) <==> exists j :: 0 <= j < |ps| && ps[j].id == Some(k)
  {
    if ps != [] {
      var init := ps[..|ps| - 1];
      MappingKeys(init, k);
      if k in MappingOf(init) {
        var j :| 0 <= j < |init| && init[j].id == Some(k);
        assert ps[j].id == Some(k);
      }
      if exists j :: 0 <= j < |ps| && ps[j].id == Some(k) {
        var j :| 0 <= j < |ps| && ps[j].id == Some(k);
        if j < |init| {
          assert init[j].id == Some(k);
        }
      }
    }
  }

  /** Each key maps to the fields of the last product carrying that ID. */
  lemma {:induction false} MappingLastWins(ps: seq<Product>, k: int, j: int)
    requires LastWithId(ps, k, j)
    ensures k in MappingOf(ps) && MappingOf(ps)[k] == InfoOf(ps[j])
  {
    var init := ps[..|ps| - 1];
    if j < |ps| - 1 {
      assert LastWithId(init, k, j);
      MappingLastWins(init, k, j);
      assert ps[|ps| - 1].id != Some(k);
    }
  }

  /** `create_product_mapping`: the ID-keyed dictionary of a product list, or the `ValueError` message. */
  method CreateProductMapping(apiProducts: Payload) returns (r: Result<map<int, ProductInfo>, string>)
    ensures ProductsOf(apiProducts).None? ==> r == Failure(MappingError)
    ensures ProductsOf(apiProducts).Some? ==> r == Success(MappingOf(ProductsOf(apiProducts).value))
  {
    var productsList: seq<Product>;
    if apiProducts.ProductObject? && apiProducts.products.Some? {
      productsList := apiProducts.products.value;
    } else if apiProducts.ProductArray? {
      productsList := apiProducts.items;
    } else {
      return Failure(MappingError);
    }
    var productMapping: map<int, ProductInfo> := map[];
    for i := 0 to |productsList|
      invariant productMapping == MappingOf(productsList[..i])
    {
      var product := productsList[i];
      if product.id.Some? {
        productMapping := productMapping[product.id.value := InfoOf(product)];
      }
      assert productsList[..i + 1][..i] == productsList[..i];
    }
    assert productsList[..|productsList|] == productsList;
    return Success(productMapping);
  }

  /** The pattern `P(\d+)`, case-insensitive, matches at position `i`. */
  predicate MatchAt(s: string, i: int) {
    0 <= i && i + 1 < |s| && (s[i] == 'P' || s[i] == 'p') && IsDigit(s[i + 1])
  }

  /** Where `re.search` finds its match: the leftmost position the pattern matches at. */
  function FirstMatch(s: string): (r: Option<nat>)
    ensures r.None? <==> forall i :: 0 <= i < |s| ==> !MatchAt(s, i)
    ensures r.Some? ==> MatchAt(s, r.value) && forall j :: 0 <= j < r.value ==> !MatchAt(s, j)
  {
    if |s| < 2 then None
    else if MatchAt(s, 0) then Some(0)
    else
      var rest := FirstMatch(s[1..]);
      assert forall i :: 1 <= i < |s| ==> (MatchAt(s, i) <==> MatchAt(s[1..], i - 1));
      match rest
      case None => None
      case Some(k) => assert MatchAt(s, k + 1); Some(k + 1)
  }

  /** The greedy `\d+`: the longest run of digits `s` starts with. */
  function DigitPrefix(s: string): (r: string)
    ensures |r| <= |s| && r == s[..|r|]
    ensures forall i :: 0 <= i < |r| ==> IsDigit(r[i])
    ensures |r| == |s| || !IsDigit(s[|r|])
  {
    if s == [] || !IsDigit(s[0]) then [] else [s[0]] + DigitPrefix(s[1..])
  }

  /** The numeric ID of a `ProductID` (`P101` gives 101), or `None` when the pattern does not match. */
  function ExtractId(productId: string): (r: Option<nat>)
    ensures r.None? <==> forall i :: 0 <= i < |productId| ==> !MatchAt(productId, i)
  {
    match FirstMatch(productId)
    case None => None
    case Some(i) => Some(DigitsValue(DigitPrefix(productId[i + 1..])))
  }

  /** The digit run of `d + rest` is `d` when `rest` does not continue it. */
  lemma {:induction false} DigitPrefixOf(d: string, rest: string)
    requires forall i :: 0 <= i < |d| ==> IsDigit(d[i])
    requires rest == [] || !IsDigit(rest[0])
    ensures DigitPrefix(d + rest) == d
  {
    if d == [] {
      assert d + rest == rest;
    } else {
      DigitPrefixOf(d[1..], rest);
      DropWithin(d, rest, 1);
      assert [d[0]] + d[1..] == d;
    }
  }


  /** A string that agrees with a match-free `prefix` up to a non-digit has no match before that point. */
  lemma NoMatchBefore(prefix: string, s: string, j: nat)
    requires forall i :: 0 <= i < |prefix| ==> !MatchAt(prefix, i)
    requires |prefix| < |s| && !IsDigit(s[|prefix|])
    requires forall i :: 0 <= i < |prefix| ==> s[i] == prefix[i]
    requires j < |prefix|
    ensures !MatchAt(s, j)
  {
    if j + 1 < |prefix| {
      assert !MatchAt(prefix, j);
    }
  }

  /** A match right after a match-free `prefix` is the first match. */
  lemma FirstMatchAfter(prefix: string, s: string)
    requires forall i :: 0 <= i < |prefix| ==> !MatchAt(prefix, i)
    requires MatchAt(s, |prefix|)
    requires forall i :: 0 <= i < |prefix| ==> s[i] == prefix[i]
    ensures FirstMatch(s) == Some(|prefix|)
  {
    forall j | 0 <= j < |prefix|
      ensures !MatchAt(s, j)
    {
      NoMatchBefore(prefix, s, j);
    }
  }

  /** The ID read from a letter and a digit run, after text without a match. */
  lemma ExtractIdOfDigits(prefix: string, letter: char, d: string, rest: string)
    requires letter == 'P' || letter == 'p'
    requires forall i :: 0 <= i < |prefix| ==> !MatchAt(prefix, i)
    requires d != [] && forall i :: 0 <= i < |d| ==> IsDigit(d[i])
    requires rest == [] || !IsDigit(rest[0])
    ensures ExtractId(prefix + [letter] + d + rest) == Some(DigitsValue(d))
  {
    var p := |prefix|;
    var x := prefix + [letter] + d;
    var s := x + rest;
    DropPast(prefix + [letter], d, p + 1);
    DropWithin(x, rest, p + 1);
    assert s[p + 1..] == d + rest;
    assert s[p] == letter && s[p + 1] == d[0];
    FirstMatchAfter(prefix, s);
    DigitPrefixOf(d, rest);
  }

  /**
   * An ID written as `P` or `p` and the decimal number, after text that holds no
   * match and before text that does not go on with a digit, extracts to that
   * number: `P101` gives 101 and `p5` gives 5.
   */
  lemma ExtractIdOfCode(prefix: string, letter: char, n: nat, rest: string)
    requires letter == 'P' || letter == 'p'
    requires forall i :: 0 <= i < |prefix| ==> !MatchAt(prefix, i)
    requires rest == [] || !IsDigit(rest[0])
    ensures ExtractId(prefix + [letter] + NatToString(n) + rest) == Some(n)
  {
    ExtractIdOfDigits(prefix, letter, NatToString(n), rest);
    DigitsValueOfNat(n);
  }

  /** The product IDs of the sample data resolve to their numbers. */
  lemma ExtractIdExamples()
    ensures ExtractId("P101") == Some(101)
    ensures ExtractId("p5") == Some(5)
    ensures ExtractId("P") == None
  {
    ExtractIdOfP101();
    ExtractIdOfP5();
  }

  lemma ExtractIdOfP101()
    ensures ExtractId("P101") == Some(101)
  {
    ExtractIdOfDigits("", 'P', "101", "");
    assert "" + ['P'] + "101" + "" == "P101";
    assert "10"[..1] == "1" && DigitsValue("1") == 1;
    assert "101"[..2] == "10" && DigitsValue("10") == 10;
  }

  lemma ExtractIdOfP5()
    ensures ExtractId("p5") == Some(5)
  {
    ExtractIdOfDigits("", 'p', "5", "");
    assert "" + ['p'] + "5" + "" == "p5";
  }

  /** The API fields of a transaction whose ID is not in the mapping. */
  const Unmatched := ApiFields(None, None, None, false)

  /**
   * One transaction dictionary after enrichment: a copy with its four API keys
   * set, to the fields of its product when its ID resolves and to
   * `Unmatched` otherwise; any API keys it already had are overwritten.
   */
  function Enrich(r: Record, productMapping: map<int, ProductInfo>): (e: Record)
    ensures e.tx == r.tx && e.api.Some?
    ensures Matched(e) <==> ExtractId(r.tx.productId).Some? && ExtractId(r.tx.productId).value in productMapping
    ensures Matched(e) ==> var info := productMapping[ExtractId(r.tx.productId).value];
              e.api.value == ApiFields(Some(info.category), Some(info.brand), Some(info.rating), true)
    ensures !Matched(e) ==> e.api.value == Unmatched
  {
    var numericId := ExtractId(r.tx.productId);
    if numericId.Some? && numericId.value in productMapping then
      var info := productMapping[numericId.value];
      Record(r.tx, Some(ApiFields(Some(info.category), Some(info.brand), Some(info.rating), true)))
    else
      Record(r.tx, Some(Unmatched))
  }

  /** Enriching a list: the same length and order, each record enriched on its own. */
  function EnrichAll(rs: seq<Record>, productMapping: map<int, ProductInfo>): (es: seq<Record>)
    ensures |es| == |rs|
    ensures forall i :: 0 <= i < |rs| ==> es[i] == Enrich(rs[i], productMapping)
  {
    seq(|rs|, i requires 0 <= i < |rs| => Enrich(rs[i], productMapping))
  }

  /** Enriching an enriched list again with the same mapping changes nothing. */
  lemma EnrichIdempotent(rs: seq<Record>, productMapping: map<int, ProductInfo>)
    ensures EnrichAll(EnrichAll(rs, productMapping), productMapping) == EnrichAll(rs, productMapping)
  {
    var once := EnrichAll(rs, productMapping);
    forall i | 0 <= i < |rs|
      ensures Enrich(once[i], productMapping) == once[i]
    {
      assert once[i].tx == rs[i].tx;
    }
  }

  /**
   * A record matched against a mapping keeps its fields against any
   * larger mapping that agrees on the keys already there.
   */
  lemma EnrichMonotone(r: Record, m: map<int, ProductInfo>, m': map<int, ProductInfo>)
    requires forall k :: k in m ==> k in m' && m'[k] == m[k]
    requires Matched(Enrich(r, m))
    ensures Enrich(r, m') == Enrich(r, m)
  {
    var id := ExtractId(r.tx.productId).value;
    assert id in m';
  }

  /** A mapping built from products carrying no ID matches nothing. */
  lemma EnrichWithoutIds(r: Record, ps: seq<Product>)
    requires forall j :: 0 <= j < |ps| ==> ps[j].id.None?
    ensures !Matched(Enrich(r, MappingOf(ps)))
  {
    var id := ExtractId(r.tx.productId);
    if id.Some? {
      MappingKeys(ps, id.value);
    }
  }

  // ---- the enriched file ----

  /** The column names of the input file. */
  const InputColumns := ["TransactionID", "Date", "ProductID", "ProductName", "Quantity", "UnitPrice", "CustomerID", "Region"]

  /** The column names of the enriched file: the eight input columns, then the four API columns. */
  const EnrichedColumns := InputColumns + ["API_Category", "API_Brand", "API_Rating", "API_Match"]

  /**
   * The header line both writers put first: the column names separated by
   * `|` and ended by a newline, `TransactionID|Date|…|API_Match\n`.
   */
  const EnrichedHeader := Join(EnrichedColumns, '|') + "\n"

  /** No column name holds the delimiter. */
  lemma ColumnNamesPipeFree()
    ensures PipeFree(EnrichedColumns)
  {
  }

  /** The header line splits into the twelve column names, the eight input columns first. */
  lemma HeaderColumns()
    ensures EnrichedHeader[|EnrichedHeader| - 1] == '\n'
    ensures Split(EnrichedHeader[..|EnrichedHeader| - 1], '|') == EnrichedColumns
  {
    var line := Join(EnrichedColumns, '|');
    assert EnrichedHeader[..|EnrichedHeader| - 1] == line;
    ColumnNamesPipeFree();
    SplitJoin(EnrichedColumns, '|');
  }

  /** `str(bool)`. */
  function BoolText(b: bool): string {
    if b then "True" else "False"
  }

  /**
   * The four API columns: a missing or `None` value is written as the empty
   * string, `API_Match` defaults to `False`.
   */
  function ApiColumns(r: Record, showFloat: real -> string): (fs: seq<string>)
    ensures |fs| == 4
    ensures fs[3] == BoolText(Matched(r))
    ensures r.api.None? || r.api.value == Unmatched ==> fs == ["", "", "", "False"]
  {
    var api := if r.api.Some? then r.api.value else Unmatched;
    [api.category.GetOr(""), api.brand.GetOr(""),
     if api.rating.Some? then showFloat(api.rating.value) else "",
     BoolText(Matched(r))]
  }

  /**
   * The twelve columns `enrich_sales_data` writes for a record: the fields of
   * its input line, in the input's order, then the four API columns.
   */
  function EnrichColumns(r: Record, showFloat: real -> string): (fs: seq<string>)
    ensures |fs| == |EnrichedColumns|
    ensures fs[..8] == FileHandler.LineFields(r.tx, showFloat(r.tx.unitPrice))
    ensures fs[8..] == ApiColumns(r, showFloat)
  {
    var t := r.tx;
    [t.transactionId, t.date, t.productId, t.productName, IntToString(t.quantity),
     showFloat(t.unitPrice), t.customerId, t.region] + ApiColumns(r, showFloat)
  }

  /** Python's `x or ''` for the two numeric columns: zero is falsy and is written as the empty string. */
  function QuantityText(q: int): string {
    if q == 0 then "" else IntToString(q)
  }

  function PriceText(p: real, showFloat: real -> string): string {
    if p == 0.0 then "" else showFloat(p)
  }

  /**
   * The twelve columns `save_enriched_data` writes for a record: a quantity
   * or price column is empty exactly when the value is zero, every other
   * column is as `enrich_sales_data` writes it.
   */
  function SaveColumns(r: Record, showFloat: real -> string): (fs: seq<string>)
    ensures |fs| == |EnrichedColumns|
    ensures fs[4] == "" <==> r.tx.quantity == 0
    ensures r.tx.unitPrice == 0.0 ==> fs[5] == ""
    ensures forall i :: 0 <= i < |fs| && i != 4 && i != 5 ==> fs[i] == EnrichColumns(r, showFloat)[i]
    ensures r.tx.quantity != 0 ==> fs[4] == EnrichColumns(r, showFloat)[4]
    ensures r.tx.unitPrice != 0.0 ==> fs[5] == EnrichColumns(r, showFloat)[5]
  {
    var t := r.tx;
    [t.transactionId, t.date, t.productId, t.productName, QuantityText(t.quantity),
     PriceText(t.unitPrice, showFloat), t.customerId, t.region] + ApiColumns(r, showFloat)
  }

  function EnrichRow(r: Record, showFloat: real -> string): string {
    Join(EnrichColumns(r, showFloat), '|') + "\n"
  }

  function SaveRow(r: Record, showFloat: real -> string): string {
    Join(SaveColumns(r, showFloat), '|') + "\n"
  }

  /** The file text as a list of writes: the header, then one row per record. */
  function EnrichedFile(rs: seq<Record>, showFloat: real -> string): (lines: seq<string>)
    ensures |lines| == |rs| + 1 && lines[0] == EnrichedHeader
    ensures forall i :: 0 <= i < |rs| ==> lines[i + 1] == EnrichRow(rs[i], showFloat)
  {
    [EnrichedHeader] + seq(|rs|, i requires 0 <= i < |rs| => EnrichRow(rs[i], showFloat))
  }

  function SavedFile(rs: seq<Record>, showFloat: real -> string): (lines: seq<string>)
    ensures |lines| == |rs| + 1 && lines[0] == EnrichedHeader
    ensures forall i :: 0 <= i < |rs| ==> lines[i + 1] == SaveRow(rs[i], showFloat)
  {
    [EnrichedHeader] + seq(|rs|, i requires 0 <= i < |rs| => SaveRow(rs[i], showFloat))
  }

  /**
   * `enrich_sales_data`: every transaction enriched against the mapping, in
   * order, together with the text it writes to the enriched file
   * (`showFloat` stands for Python's `str` of a float).
   */
  method EnrichSalesData(transactions: seq<Record>, productMapping: map<int, ProductInfo>, showFloat: real -> string)
    returns (enrichedTransactions: seq<Record>, written: seq<string>)
    ensures enrichedTransactions == EnrichAll(transactions, productMapping)
    ensures written == EnrichedFile(enrichedTransactions, showFloat)
  {
    enrichedTransactions := [];
    for i := 0 to |transactions|
      invariant |enrichedTransactions| == i
      invariant forall j :: 0 <= j < i ==> enrichedTransactions[j] == Enrich(transactions[j], productMapping)
    {
      var enrichedTransaction := transactions[i];
      var numericId := ExtractId(enrichedTransaction.tx.productId);
      var api: ApiFields;
      if numericId.Some? && numericId.value in productMapping {
        var productInfo := productMapping[numericId.value];
        api := ApiFields(Some(productInfo.category), Some(productInfo.brand), Some(productInfo.rating), true);
      } else {
        api := Unmatched;
      }
      enrichedTransaction := enrichedTransaction.(api := Some(api));
      enrichedTransactions := enrichedTransactions + [enrichedTransaction];
    }
    written := WriteRows(enrichedTransactions, showFloat, false);
  }

  /** The row either writer writes for a record; `blankZeros` selects `save_enriched_data`'s `x or ''` columns. */
  function FileRow(r: Record, showFloat: real -> string, blankZeros: bool): string {
    if blankZeros then SaveRow(r, showFloat) else EnrichRow(r, showFloat)
  }

  /** The file either writer writes. */
  function WrittenFile(rs: seq<Record>, showFloat: real -> string, blankZeros: bool): seq<string> {
    if blankZeros then SavedFile(rs, showFloat) else EnrichedFile(rs, showFloat)
  }

  /** Before any row, the file written so far is the header line. */
  lemma WrittenFileStart(rs: seq<Record>, showFloat: real -> string, blankZeros: bool)
    ensures WrittenFile(rs, showFloat, blankZeros)[..1] == [EnrichedHeader]
  {
    var file := WrittenFile(rs, showFloat, blankZeros);
    TakeOneMore(file, 0);
  }

  /** Writing the row of record `i` extends the file written so far by one line. */
  lemma WrittenFileStep(rs: seq<Record>, showFloat: real -> string, blankZeros: bool, i: nat)
    requires i < |rs|
    ensures WrittenFile(rs, showFloat, blankZeros)[..i + 2]
         == WrittenFile(rs, showFloat, blankZeros)[..i + 1] + [FileRow(rs[i], showFloat, blankZeros)]
  {
    var file := WrittenFile(rs, showFloat, blankZeros);
    assert file[i + 1] == FileRow(rs[i], showFloat, blankZeros) by {
      if blankZeros {
        assert file == SavedFile(rs, showFloat);
      } else {
        assert file == EnrichedFile(rs, showFloat);
      }
    }
    TakeOneMore(file, i + 1);
  }

  /** The write loop shared by both writers. */
  method WriteRows(rs: seq<Record>, showFloat: real -> string, blankZeros: bool) returns (written: seq<string>)
    ensures written == WrittenFile(rs, showFloat, blankZeros)
  {
    ghost var file := WrittenFile(rs, showFloat, blankZeros);
    WrittenFileStart(rs, showFloat, blankZeros);
    written := [EnrichedHeader];
    for i := 0 to |rs|
      invariant written == file[..i + 1]
    {
      var line := FileRow(rs[i], showFloat, blankZeros);
      WrittenFileStep(rs, showFloat, blankZeros, i);
      written := written + [line];
    }
    assert file[..|file|] == file;
  }

  /** `save_enriched_data`: the header and one row per record, with falsy original columns left empty. */
  method SaveEnrichedData(enrichedTransactions: seq<Record>, showFloat: real -> string) returns (written: seq<string>)
    ensures written == SavedFile(enrichedTransactions, showFloat)
  {
    written := WriteRows(enrichedTransactions, showFloat, true);
  }

  /** No column of a record holds the delimiter. */
  predicate PipeFree(cols: seq<string>) {
    forall i :: 0 <= i < |cols| ==> '|' !in cols[i]
  }

  /** A row splits back into its twelve columns when none of them holds the delimiter. */
  lemma RowColumns(r: Record, showFloat: real -> string, blankZeros: bool)
    requires PipeFree(if blankZeros then SaveColumns(r, showFloat) else EnrichColumns(r, showFloat))
    ensures var row := if blankZeros then SaveRow(r, showFloat) else EnrichRow(r, showFloat);
            && row[|row| - 1] == '\n'
            && Split(row[..|row| - 1], '|') == (if blankZeros then SaveColumns(r, showFloat) else EnrichColumns(r, showFloat))
            && |Split(row[..|row| - 1], '|')| == 12
  {
    var cols := if blankZeros then SaveColumns(r, showFloat) else EnrichColumns(r, showFloat);
    var row := Join(cols, '|') + "\n";
    assert row[..|row| - 1] == Join(cols, '|');
    SplitJoin(cols, '|');
  }

  /**
   * An enriched row is the eight-column input line of its transaction
   * followed by the four API columns: the file keeps the input's format
   * and appends the new columns.
   */
  lemma EnrichRowExtendsInputLine(r: Record, showFloat: real -> string)
    ensures EnrichRow(r, showFloat) ==
            FileHandler.FormatLine(r.tx, showFloat(r.tx.unitPrice)) + "|" + Join(ApiColumns(r, showFloat), '|') + "\n"
  {
    var t := r.tx;
    var base := [t.transactionId, t.date, t.productId, t.productName, IntToString(t.quantity),
                 showFloat(t.unitPrice), t.customerId, t.region];
    JoinConcat(base, ApiColumns(r, showFloat), '|');
  }

  /** Both writers write the same row for a record whose quantity and price are non-zero. */
  lemma WritersAgree(r: Record, showFloat: real -> string)
    requires r.tx.quantity != 0 && r.tx.unitPrice != 0.0
    ensures SaveRow(r, showFloat) == EnrichRow(r, showFloat)
  {
    assert SaveColumns(r, showFloat) == EnrichColumns(r, showFloat);
  }

  /** The files of both writers agree when every record has a non-zero quantity and price. */
  lemma FilesAgree(rs: seq<Record>, showFloat: real -> string)
    requires forall i :: 0 <= i < |rs| ==> rs[i].tx.quantity != 0 && rs[i].tx.unitPrice != 0.0
    ensures SavedFile(rs, showFloat) == EnrichedFile(rs, showFloat)
  {
    forall i | 0 <= i < |rs|
      ensures SaveRow(rs[i], showFloat) == EnrichRow(rs[i], showFloat)
    {
      WritersAgree(rs[i], showFloat);
    }
  }

  /**
   * A zero quantity is where the writers part: `enrich_sales_data` writes
   * `0`, `save_enriched_data` leaves the column empty.
   */
  lemma WritersDifferOnZeroQuantity(r: Record, showFloat: real -> string)
    requires r.tx.quantity == 0
    requires PipeFree(SaveColumns(r, showFloat)) && PipeFree(EnrichColumns(r, showFloat))
    ensures SaveRow(r, showFloat) != EnrichRow(r, showFloat)
  {
    var saved := SaveColumns(r, showFloat);
    var enriched := EnrichColumns(r, showFloat);
    assert saved[4] == "";
    assert enriched[4] == "0";
    SplitJoin(saved, '|');
    SplitJoin(enriched, '|');
    SuffixCancel(Join(saved, '|'), Join(enriched, '|'), "\n");
  }
}
