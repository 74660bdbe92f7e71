/**
 * Turning a Textract `AnalyzeExpense` response into a flat map of invoice fields, and
 * merging it into the map read from the OCR text of a Chinese invoice.
 *
 * Summary fields of a recognised expense type are stored under fixed Chinese keys; any
 * other field is stored under its label when both label and value are non-empty. Line
 * items become one "type: value | " string each and are stored, one per line, under
 * "行项目". The Textract call itself is outside the model: the expense documents it
 * returns are the input.
 */
module TextractExpense {
  import opened Values
  import opened JavaText

  /**
   * An expense field; each part is None when Textract returns no detection for it
   * (`field.type()`, `field.valueDetection()` or `field.labelDetection()` is null).
   */
  datatype ExpenseField = ExpenseField(fieldType: Option<string>, valueText: Option<string>, labelText: Option<string>)

  /** A line item is the list of its expense fields. */
  datatype LineItemGroup = LineItemGroup(lineItems: seq<seq<ExpenseField>>)

  datatype ExpenseDocument = ExpenseDocument(summaryFields: seq<ExpenseField>, lineItemGroups: seq<LineItemGroup>)

  const UNKNOWN_TYPE: string := "UNKNOWN"
  const LINE_ITEMS_KEY: string := "行项目"

  /** The keys of the nine recognised expense types. */
  const FIXED_KEYS: set<string> :=
    {"总金额", "税额", "小计", "发票号", "发票日期", "供应商", "收款方", "已付金额", "应付金额"}

  // ---------------------------------------------------------------------------
  // Summary fields
  // ---------------------------------------------------------------------------

  /** The type of a summary field, "UNKNOWN" when it has none. */
  function SummaryType(f: ExpenseField): string {
    f.fieldType.GetOr(UNKNOWN_TYPE)
  }

  /** The value of a field, "" when it has none. */
  function FieldValue(f: ExpenseField): string {
    f.valueText.GetOr("")
  }

  /** The label of a summary field; a field without a label is labelled with its type. */
  function SummaryLabel(f: ExpenseField): string {
    f.labelText.GetOr(SummaryType(f))
  }

  /** The fixed key of an upper-cased expense type, if it is one of the nine recognised ones. */
  function ExpenseKey(upperType: string): (r: Option<string>)
    ensures r.Some? ==> r.value in FIXED_KEYS
  {
    if upperType == "TOTAL" then Some("总金额")
    else if upperType == "TAX" then Some("税额")
    else if upperType == "SUBTOTAL" then Some("小计")
    else if upperType == "INVOICE_RECEIPT_ID" then Some("发票号")
    else if upperType == "INVOICE_RECEIPT_DATE" then Some("发票日期")
    else if upperType == "VENDOR_NAME" then Some("供应商")
    else if upperType == "RECEIVER_NAME" then Some("收款方")
    else if upperType == "AMOUNT_PAID" then Some("已付金额")
    else if upperType == "AMOUNT_DUE" then Some("应付金额")
    else None
  }

  /**
   * Every key of a summary map is a fixed key, or a non-empty label holding a
   * non-empty value.
   */
  predicate WellFormedSummary(m: map<string, string>) {
    forall k :: k in m ==> k in FIXED_KEYS || (k != "" && m[k] != "")
  }

  /** The `switch (fieldType.toUpperCase())` for one summary field. */
  function PutSummaryField(result: map<string, string>, f: ExpenseField): (r: map<string, string>)
    ensures WellFormedSummary(result) ==> WellFormedSummary(r)
    ensures forall k :: k in result ==> k in r
  {
    match ExpenseKey(ToUpper(SummaryType(f)))
    case Some(key) => result[key := FieldValue(f)]
    case None =>
      if SummaryLabel(f) != "" && FieldValue(f) != "" then result[SummaryLabel(f) := FieldValue(f)] else result
  }

  /** The summary fields of one document stored in order, later ones overwriting earlier ones. */
  function SummaryFold(result: map<string, string>, fields: seq<ExpenseField>): (r: map<string, string>)
    ensures WellFormedSummary(result) ==> WellFormedSummary(r)
  {
    if fields == [] then result
    else PutSummaryField(SummaryFold(result, fields[..|fields| - 1]), fields[|fields| - 1])
  }

  /**
   * A type equal to "total" up to letter case, such as "total", "Total" or "tOtAl", puts
   * the value (or "") under "总金额".
   */
  lemma TotalInAnyCase(result: map<string, string>, f: ExpenseField)
    requires EqualsIgnoreCase(SummaryType(f), "total")
    ensures PutSummaryField(result, f) == result["总金额" := FieldValue(f)]
  {
    UpperOfEqualIgnoreCase(SummaryType(f), "total");
    assert ToUpper("total") == "TOTAL";
  }

  /** The same for the tax amount: "tax" in any letter case gives "税额". */
  lemma TaxInAnyCase(result: map<string, string>, f: ExpenseField)
    requires EqualsIgnoreCase(SummaryType(f), "tax")
    ensures PutSummaryField(result, f) == result["税额" := FieldValue(f)]
  {
    UpperOfEqualIgnoreCase(SummaryType(f), "tax");
    assert ToUpper("tax") == "TAX";
  }

  /**
   * A field with neither type nor label counts as type "UNKNOWN", which is no fixed
   * type, and is stored under "UNKNOWN" when its value is non-empty.
   */
  lemma MissingTypeAndLabel(result: map<string, string>, v: Option<string>)
    ensures var r := PutSummaryField(result, ExpenseField(None, v, None));
            && (v.GetOr("") != "" ==> r == result[UNKNOWN_TYPE := v.GetOr("")])
            && (v.GetOr("") == "" ==> r == result)
  {
    assert ToUpper(UNKNOWN_TYPE) == UNKNOWN_TYPE;
  }

  /**
   * A recognised type stores the value under its fixed key, replacing what was
   * there, even when the value is empty or missing; nothing else changes.
   */
  lemma RecognisedTypeStored(result: map<string, string>, f: ExpenseField, key: string)
    requires ExpenseKey(ToUpper(SummaryType(f))) == Some(key)
    ensures PutSummaryField(result, f) == result[key := FieldValue(f)]
    ensures f.valueText.None? ==> key in PutSummaryField(result, f) && PutSummaryField(result, f)[key] == ""
  {
  }

  /**
   * An unrecognised type leaves the map alone when its label or value is empty, and
   * otherwise stores the value under the label, which defaults to the type.
   */
  lemma UnrecognisedTypeUnderLabel(result: map<string, string>, f: ExpenseField)
    requires ExpenseKey(ToUpper(SummaryType(f))).None?
    ensures FieldValue(f) == "" ==> PutSummaryField(result, f) == result
    ensures f.labelText == Some("") ==> PutSummaryField(result, f) == result
    ensures f.labelText.None? && SummaryType(f) == "" ==> PutSummaryField(result, f) == result
    ensures f.labelText.None? && SummaryType(f) != "" && FieldValue(f) != "" ==>
              PutSummaryField(result, f) == result[SummaryType(f) := FieldValue(f)]
    ensures f.labelText.Some? && f.labelText.value != "" && FieldValue(f) != "" ==>
              PutSummaryField(result, f) == result[f.labelText.value := FieldValue(f)]
  {
  }

  // ---------------------------------------------------------------------------
  // Line items
  // ---------------------------------------------------------------------------

  /** The type of a line-item field, "" when it has none (unlike a summary field). */
  function LineItemType(f: ExpenseField): string {
    f.fieldType.GetOr("")
  }

  /** The part one field adds to its line item: nothing when its value is empty. */
  function LineItemPart(f: ExpenseField): string {
    if FieldValue(f) != "" then LineItemType(f) + ": " + FieldValue(f) + " | " else ""
  }

  /**
   * The string of one line item: "type: value | " for each field with a non-empty
   * value, in order. It is empty exactly when no field has a value.
   */
  function LineItemText(fields: seq<ExpenseField>): string {
    if fields == [] then "" else LineItemText(fields[..|fields| - 1]) + LineItemPart(fields[|fields| - 1])
  }

  /** A line item's string is empty exactly when none of its fields has a value. */
  lemma {:induction false} LineItemTextEmpty(fields: seq<ExpenseField>)
    ensures LineItemText(fields) == [] <==> forall i :: 0 <= i < |fields| ==> FieldValue(fields[i]) == ""
  {
    if fields != [] {
      var init := fields[..|fields| - 1];
      LineItemTextEmpty(init);
      assert forall i :: 0 <= i < |init| ==> init[i] == fields[i];
    }
  }

  /** Types and values without a line break give a line-item string without one. */
  lemma {:induction false} LineItemTextNoNewline(fields: seq<ExpenseField>)
    requires forall i :: 0 <= i < |fields| ==> '\n' !in LineItemType(fields[i]) && '\n' !in FieldValue(fields[i])
    ensures '\n' !in LineItemText(fields)
  {
    if fields != [] {
      var init := fields[..|fields| - 1];
      assert forall i :: 0 <= i < |init| ==> init[i] == fields[i];
      LineItemTextNoNewline(init);
    }
  }

  /** The non-empty line-item strings of a list of line items, in order. */
  function ItemStrings(lineItems: seq<seq<ExpenseField>>): (r: seq<string>)
    ensures forall k :: 0 <= k < |r| ==> r[k] != ""
    ensures |r| <= |lineItems|
  {
    if lineItems == [] then []
    else
      var text := LineItemText(lineItems[|lineItems| - 1]);
      ItemStrings(lineItems[..|lineItems| - 1]) + (if text != "" then [text] else [])
  }

  /** One line item gives its text, or nothing when that text is empty. */
  lemma ItemStringsOne(lineItem: seq<ExpenseField>)
    ensures ItemStrings([lineItem]) == if LineItemText(lineItem) != "" then [LineItemText(lineItem)] else []
  {
    assert [lineItem][..0] == [];
  }

  /** The strings of two lists of line items are those of the first followed by those of the second. */
  lemma {:induction false} ItemStringsAppend(a: seq<seq<ExpenseField>>, b: seq<seq<ExpenseField>>)
    ensures ItemStrings(a + b) == ItemStrings(a) + ItemStrings(b)
  {
    if b == [] {
      assert a + b == a;
    } else {
      var init := b[..|b| - 1];
      var text := LineItemText(b[|b| - 1]);
      assert (a + b)[..|a + b| - 1] == a + init;
      assert (a + b)[|a + b| - 1] == b[|b| - 1];
      ItemStringsAppend(a, init);
      assert ItemStrings(a + b) == ItemStrings(a) + ItemStrings(init) + (if text != "" then [text] else []);
    }
  }

  /** A string is produced exactly when it is the non-empty text of some line item. */
  lemma {:induction false} ItemStringsMembers(lineItems: seq<seq<ExpenseField>>, x: string)
    ensures x in ItemStrings(lineItems) <==>
              x != "" && exists i :: 0 <= i < |lineItems| && LineItemText(lineItems[i]) == x
  {
    if lineItems != [] {
      var init := lineItems[..|lineItems| - 1];
      var text := LineItemText(lineItems[|lineItems| - 1]);
      ItemStringsMembers(init, x);
      assert x in ItemStrings(lineItems) <==> x in ItemStrings(init) || (text != "" && text == x);
      assert forall i :: 0 <= i < |init| ==> init[i] == lineItems[i];
    }
  }

  /** The line-item strings of a list of groups, group after group. */
  function GroupItems(groups: seq<LineItemGroup>): (r: seq<string>)
    ensures forall k :: 0 <= k < |r| ==> r[k] != ""
  {
    if groups == [] then []
    else GroupItems(groups[..|groups| - 1]) + ItemStrings(groups[|groups| - 1].lineItems)
  }

  // ---------------------------------------------------------------------------
  // The whole response
  // ---------------------------------------------------------------------------

  /** The summary map after the summary fields of every document, in order. */
  function ExpenseSummary(docs: seq<ExpenseDocument>): (r: map<string, string>)
    ensures WellFormedSummary(r)
  {
    if docs == [] then map[]
    else SummaryFold(ExpenseSummary(docs[..|docs| - 1]), docs[|docs| - 1].summaryFields)
  }

  /** The line-item strings of every document, in order. */
  function ExpenseLineItems(docs: seq<ExpenseDocument>): (r: seq<string>)
    ensures forall k :: 0 <= k < |r| ==> r[k] != ""
  {
    if docs == [] then []
    else ExpenseLineItems(docs[..|docs| - 1]) + GroupItems(docs[|docs| - 1].lineItemGroups)
  }

  /** What `analyzeExpenseDocument` returns for the expense documents of a response. */
  function ExpenseResult(docs: seq<ExpenseDocument>): map<string, string> {
    var items := ExpenseLineItems(docs);
    if items == [] then ExpenseSummary(docs) else ExpenseSummary(docs)[LINE_ITEMS_KEY := Join(items, "\n")]
  }

  /**
   * "行项目" holds the line items one per line whenever there is one; without line
   * items the result is the summary map alone.
   */
  lemma ExpenseResultLineItems(docs: seq<ExpenseDocument>)
    requires forall k :: 0 <= k < |ExpenseLineItems(docs)| ==> '\n' !in ExpenseLineItems(docs)[k]
    ensures ExpenseLineItems(docs) == [] ==> ExpenseResult(docs) == ExpenseSummary(docs)
    ensures ExpenseLineItems(docs) != [] ==>
              LINE_ITEMS_KEY in ExpenseResult(docs)
              && SplitAll(ExpenseResult(docs)[LINE_ITEMS_KEY], '\n') == ExpenseLineItems(docs)
  {
    if ExpenseLineItems(docs) != [] {
      SplitAllJoin(ExpenseLineItems(docs), '\n');
    }
  }

  /**
   * Every key of the result is a fixed key, "行项目", or a non-empty label holding a
   * non-empty value: no unrecognised field is ever stored with an empty label or value.
   */
  lemma ExpenseResultKeys(docs: seq<ExpenseDocument>)
    ensures forall k :: k in ExpenseResult(docs) ==>
              k in FIXED_KEYS || k == LINE_ITEMS_KEY || (k != "" && ExpenseResult(docs)[k] != "")
  {
  }

  // ---------------------------------------------------------------------------
  // The loops of analyzeExpenseDocument
  // ---------------------------------------------------------------------------

  /** The loop over the summary fields of one document. */
  method AddSummaryFields(result0: map<string, string>, fields: seq<ExpenseField>) returns (result: map<string, string>)
    ensures result == SummaryFold(result0, fields)
  {
    result := result0;
    for i := 0 to |fields|
      invariant result == SummaryFold(result0, fields[..i])
    {
      assert fields[..i + 1][..i] == fields[..i];
      var f := fields[i];
      var fieldType := if f.fieldType.Some? then f.fieldType.value else UNKNOWN_TYPE;
      var fieldValue := if f.valueText.Some? then f.valueText.value else "";
      var fieldLabel := if f.labelText.Some? then f.labelText.value else fieldType;
      var key := ExpenseKey(ToUpper(fieldType));
      assert fieldType == SummaryType(f) && fieldValue == FieldValue(f) && fieldLabel == SummaryLabel(f);
      assert SummaryFold(result0, fields[..i + 1]) == PutSummaryField(result, f);
      if key.Some? {
        result := result[key.value := fieldValue];
      } else if fieldLabel != "" && fieldValue != "" {
        result := result[fieldLabel := fieldValue];
      }
    }
    assert fields[..|fields|] == fields;
  }

  /** The string builder of one line item. */
  method BuildLineItem(fields: seq<ExpenseField>) returns (itemInfo: string)
    ensures itemInfo == LineItemText(fields)
  {
    itemInfo := "";
    for i := 0 to |fields|
      invariant itemInfo == LineItemText(fields[..i])
    {
      assert fields[..i + 1][..i] == fields[..i];
      var fieldType := if fields[i].fieldType.Some? then fields[i].fieldType.value else "";
      var fieldValue := if fields[i].valueText.Some? then fields[i].valueText.value else "";
      assert LineItemText(fields[..i + 1]) == itemInfo + LineItemPart(fields[i]);
      if fieldValue != "" {
        AppendFour(itemInfo, fieldType, ": ", fieldValue, " | ");
        itemInfo := itemInfo + fieldType + ": " + fieldValue + " | ";
      }
    }
    assert fields[..|fields|] == fields;
  }

  /** The loop over the line items of one group, keeping the non-empty strings. */
  method CollectItemStrings(items: seq<seq<ExpenseField>>) returns (lineItems: seq<string>)
    ensures lineItems == ItemStrings(items)
  {
    lineItems := [];
    for j := 0 to |items|
      invariant lineItems == ItemStrings(items[..j])
    {
      assert items[..j + 1][..j] == items[..j];
      var itemInfo := BuildLineItem(items[j]);
      if itemInfo != "" {
        lineItems := lineItems + [itemInfo];
      }
    }
    assert items[..|items|] == items;
  }

  /** The loops over the line-item groups of one document and their line items. */
  method CollectLineItems(groups: seq<LineItemGroup>) returns (lineItems: seq<string>)
    ensures lineItems == GroupItems(groups)
  {
    lineItems := [];
    for g := 0 to |groups|
      invariant lineItems == GroupItems(groups[..g])
    {
      assert groups[..g + 1][..g] == groups[..g];
      var items := CollectItemStrings(groups[g].lineItems);
      lineItems := lineItems + items;
    }
    assert groups[..|groups|] == groups;
  }

  /**
   * `analyzeExpenseDocument` once the response is in hand: for each document the
   * summary fields, then the line items; "行项目" is added last.
   */
  method AnalyzeExpenseDocument(docs: seq<ExpenseDocument>) returns (result: map<string, string>)
    ensures result == ExpenseResult(docs)
  {
    result := map[];
    var lineItems: seq<string> := [];
    for d := 0 to |docs|
      invariant result == ExpenseSummary(docs[..d])
      invariant lineItems == ExpenseLineItems(docs[..d])
    {
      assert docs[..d + 1][..d] == docs[..d];
      result := AddSummaryFields(result, docs[d].summaryFields);
      var items := CollectLineItems(docs[d].lineItemGroups);
      lineItems := lineItems + items;
    }
    assert docs[..|docs|] == docs;
    if lineItems != [] {
      result := result[LINE_ITEMS_KEY := Join(lineItems, "\n")];
    }
  }

  // ---------------------------------------------------------------------------
  // Merging into the OCR result of analyzeChineseInvoice
  // ---------------------------------------------------------------------------

  /**
   * The OCR result with the expense entries added that have a non-empty value and a
   * key the OCR result lacks.
   */
  function Merged(ocr: map<string, string>, expense: map<string, string>): (r: map<string, string>)
    ensures forall k :: k in ocr ==> k in r && r[k] == ocr[k]
    ensures forall k :: k in r <==> k in ocr || (k in expense && expense[k] != "")
    ensures forall k :: k in r && k !in ocr ==> r[k] == expense[k]
  {
    ocr + map k | k in expense && expense[k] != "" && k !in ocr :: expense[k]
  }

  /**
   * The merge loop of `analyzeChineseInvoice`; `expense` is None when
   * `analyzeExpenseDocument` threw, in which case the OCR result stands.
   */
  method MergeInvoiceResults(ocr: map<string, string>, expense: Option<map<string, string>>)
    returns (result: map<string, string>)
    ensures expense.None? ==> result == ocr
    ensures expense.Some? ==> result == Merged(ocr, expense.value)
  {
    result := ocr;
    if expense.None? {
      return;
    }
    var entries := expense.value;
    var pending := entries.Keys;
    while pending != {}
      invariant pending <= entries.Keys
      invariant forall k :: k in result <==> k in ocr || (k in entries && k !in pending && entries[k] != "")
      invariant forall k :: k in ocr ==> result[k] == ocr[k]
      invariant forall k :: k in result && k !in ocr ==> result[k] == entries[k]
      decreases pending
    {
      var key :| key in pending;
      if entries[key] != "" && key !in result {
        result := result[key := entries[key]];
      }
      pending := pending - {key};
    }
    var r := Merged(ocr, entries);
    assert result.Keys == r.Keys;
  }
}
