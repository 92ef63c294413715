/** What a prepared row means in terms of its worksheet columns, by their own names. */
module RowMeaning {
  import opened Domain
  import opened Jsonb
  import opened RowParsing

  const SHIPMENT_CODE := "shipment_code"
  const CUSTOMER_NAME := "customer_name"
  const ORIGIN_CITY := "origin_city"
  const DESTINATION_CITY := "destination_city"
  const WEIGHT_KG := "weight_kg"
  const PRICE := "price"
  const STATUS := "status"
  const DELIVERY_DATE := "delivery_date"

  /** The row has this value in the column with this name, which is Null where the column is missing. */
  ghost predicate Holds(items: seq<Entry>, column: string, value: Value) {
    if exists i :: 0 <= i < |items| && items[i].key.text == column then
      exists i :: 0 <= i < |items| && items[i].key.text == column && items[i].value == value
                  && forall j :: 0 <= j < i ==> items[j].key.text != column
    else value == Null
  }

  /** The eight columns of a row. */
  datatype Columns = Columns(code: Value, customer: Value, origin: Value, destination: Value, weight: Value,
                             price: Value, status: Value, date: Value)

  ghost predicate ColumnsOf(items: seq<Entry>, x: Columns) {
    && Holds(items, SHIPMENT_CODE, x.code) && Holds(items, CUSTOMER_NAME, x.customer)
    && Holds(items, ORIGIN_CITY, x.origin) && Holds(items, DESTINATION_CITY, x.destination)
    && Holds(items, WEIGHT_KG, x.weight) && Holds(items, PRICE, x.price)
    && Holds(items, STATUS, x.status) && Holds(items, DELIVERY_DATE, x.date)
  }

  /** What an adapter makes of a value that is there. */
  function Read<T>(adapter: Value -> Result<T>, value: Value): Option<T> {
    if value == Null then None
    else match adapter(value) case Parsed(v) => Some(v) case Invalid(_) => None
  }

  /** The issue of a required column, if it has one. */
  function Missing<T>(adapter: Value -> Result<T>, value: Value, column: string): seq<Issue> {
    if value == Null then [Issue(column, "Field required")]
    else match adapter(value) case Parsed(_) => [] case Invalid(message) => [Issue(column, message)]
  }

  function When(broken: bool, column: string, message: string): seq<Issue> {
    if broken then [Issue(column, message)] else []
  }

  lemma ValueHolds(items: seq<Entry>, field: Field, column: string, value: Value)
    requires field.Name() == column && Holds(items, column, value)
    ensures ValueOf(items, field) == value
  {
    if HasKey(items, column) {
      var i :| 0 <= i < |items| && items[i].key.text == column && items[i].value == value
               && forall j :: 0 <= j < i ==> items[j].key.text != column;
      assert Position(items, column) == i;
    }
  }

  lemma Names()
    ensures ShipmentCode.Name() == SHIPMENT_CODE && CustomerName.Name() == CUSTOMER_NAME
    ensures OriginCity.Name() == ORIGIN_CITY && DestinationCity.Name() == DESTINATION_CITY
    ensures WeightKg.Name() == WEIGHT_KG && Price.Name() == PRICE
    ensures Status.Name() == STATUS && DeliveryDate.Name() == DELIVERY_DATE
  {
  }

  lemma ColumnValues(items: seq<Entry>, x: Columns)
    requires ColumnsOf(items, x)
    ensures x == Columns(ValueOf(items, ShipmentCode), ValueOf(items, CustomerName), ValueOf(items, OriginCity),
                         ValueOf(items, DestinationCity), ValueOf(items, WeightKg), ValueOf(items, Price),
                         ValueOf(items, Status), ValueOf(items, DeliveryDate))
  {
    Names();
    hide Holds, Field.Name, ValueOf, SHIPMENT_CODE, CUSTOMER_NAME, ORIGIN_CITY, DESTINATION_CITY, WEIGHT_KG, PRICE,
         STATUS, DELIVERY_DATE;
    ValueHolds(items, ShipmentCode, SHIPMENT_CODE, x.code);
    ValueHolds(items, CustomerName, CUSTOMER_NAME, x.customer);
    ValueHolds(items, OriginCity, ORIGIN_CITY, x.origin);
    ValueHolds(items, DestinationCity, DESTINATION_CITY, x.destination);
    ValueHolds(items, WeightKg, WEIGHT_KG, x.weight);
    ValueHolds(items, Price, PRICE, x.price);
    ValueHolds(items, Status, STATUS, x.status);
    ValueHolds(items, DeliveryDate, DELIVERY_DATE, x.date);
  }

  lemma WithFieldReads(adapters: Adapters, before: Fields, value: Value, field: Field, f: Field)
    ensures var after := WithField(adapters, before, value, field);
            && TextOf(after, f) == (if f == field && !f.IsNumber() && Read(adapters.text, value).Some?
                                    then Read(adapters.text, value) else TextOf(before, f))
            && NumberOf(after, f) == (if f == field && f.IsNumber() && Read(adapters.number, value).Some?
                                      then Read(adapters.number, value) else NumberOf(before, f))
  {
  }

  function TextOf(fields: Fields, f: Field): Option<string> {
    if f in fields.texts then Some(fields.texts[f]) else None
  }

  function NumberOf(fields: Fields, f: Field): Option<real> {
    if f in fields.numbers then Some(fields.numbers[f]) else None
  }

  /** A parsed field is what its adapter made of its own value. */
  lemma {:induction false} ParsedFrom(adapters: Adapters, items: seq<Entry>, names: seq<Field>, f: Field)
    ensures var fields, value := ParsedFields(adapters, items, names), ValueOf(items, f);
            && TextOf(fields, f) == (if f in names && !f.IsNumber() then Read(adapters.text, value) else None)
            && NumberOf(fields, f) == (if f in names && f.IsNumber() then Read(adapters.number, value) else None)
  {
    hide WithField, ValueOf, Read, Field.IsNumber;
    if names != [] {
      var n := |names| - 1;
      ParsedFrom(adapters, items, names[..n], f);
      WithFieldReads(adapters, ParsedFields(adapters, items, names[..n]), ValueOf(items, names[n]), names[n], f);
      assert names == names[..n] + [names[n]];
      hide TextOf, NumberOf;
    }
  }

  lemma TextIssue(adapters: Adapters, items: seq<Entry>, f: Field, column: string)
    requires !f.IsNumber() && f.Name() == column
    ensures IssueOf(adapters, items, f) == Missing(adapters.text, ValueOf(items, f), column)
  {
    hide Field.Name, ValueOf;
  }

  lemma NumberIssue(adapters: Adapters, items: seq<Entry>, f: Field, column: string)
    requires f.IsNumber() && f.Name() == column
    ensures IssueOf(adapters, items, f) == Missing(adapters.number, ValueOf(items, f), column)
  {
    hide Field.Name, ValueOf;
  }

  lemma {:induction false} IssuesSnoc(adapters: Adapters, items: seq<Entry>, names: seq<Field>, f: Field)
    ensures FieldIssues(adapters, items, names + [f]) ==
            FieldIssues(adapters, items, names) + IssueOf(adapters, items, f)
  {
    assert (names + [f])[..|names|] == names;
  }

  /** The issues of the required fields, written out. */
  lemma IssuesWrittenOut(adapters: Adapters, items: seq<Entry>)
    ensures FieldIssues(adapters, items, REQUIRED) ==
            IssueOf(adapters, items, ShipmentCode) + IssueOf(adapters, items, CustomerName)
            + IssueOf(adapters, items, OriginCity) + IssueOf(adapters, items, DestinationCity)
            + IssueOf(adapters, items, WeightKg) + IssueOf(adapters, items, Price) + IssueOf(adapters, items, Status)
  {
    hide IssueOf, FieldIssues;
    NoNames(adapters, items);
    IssuesSnoc(adapters, items, [], ShipmentCode);
    IssuesSnoc(adapters, items, [ShipmentCode], CustomerName);
    IssuesSnoc(adapters, items, [ShipmentCode, CustomerName], OriginCity);
    IssuesSnoc(adapters, items, [ShipmentCode, CustomerName, OriginCity], DestinationCity);
    IssuesSnoc(adapters, items, [ShipmentCode, CustomerName, OriginCity, DestinationCity], WeightKg);
    IssuesSnoc(adapters, items, [ShipmentCode, CustomerName, OriginCity, DestinationCity, WeightKg], Price);
    IssuesSnoc(adapters, items, [ShipmentCode, CustomerName, OriginCity, DestinationCity, WeightKg, Price], Status);
    assert [] + [ShipmentCode] == [ShipmentCode];
    assert [ShipmentCode] + [CustomerName] == [ShipmentCode, CustomerName];
    assert [ShipmentCode, CustomerName] + [OriginCity] == [ShipmentCode, CustomerName, OriginCity];
    assert REQUIRED == [ShipmentCode, CustomerName, OriginCity, DestinationCity, WeightKg, Price] + [Status];
    assert [ShipmentCode, CustomerName, OriginCity, DestinationCity, WeightKg] + [Price] ==
           [ShipmentCode, CustomerName, OriginCity, DestinationCity, WeightKg, Price];
    assert [ShipmentCode, CustomerName, OriginCity, DestinationCity] + [WeightKg] ==
           [ShipmentCode, CustomerName, OriginCity, DestinationCity, WeightKg];
    assert [ShipmentCode, CustomerName, OriginCity] + [DestinationCity] ==
           [ShipmentCode, CustomerName, OriginCity, DestinationCity];
  }

  lemma NoNames(adapters: Adapters, items: seq<Entry>)
    ensures FieldIssues(adapters, items, []) == []
  {
  }

  /** The issues of the required columns, in their order. */
  function ColumnIssues(adapters: Adapters, x: Columns): seq<Issue> {
    Missing(adapters.text, x.code, SHIPMENT_CODE) + Missing(adapters.text, x.customer, CUSTOMER_NAME)
    + Missing(adapters.text, x.origin, ORIGIN_CITY) + Missing(adapters.text, x.destination, DESTINATION_CITY)
    + Missing(adapters.number, x.weight, WEIGHT_KG) + Missing(adapters.number, x.price, PRICE)
    + Missing(adapters.text, x.status, STATUS)
  }

  lemma IssuesByColumn(adapters: Adapters, items: seq<Entry>, x: Columns)
    requires ColumnsOf(items, x)
    ensures FieldIssues(adapters, items, REQUIRED) == ColumnIssues(adapters, x)
  {
    Names();
    ColumnValues(items, x);
    IssuesWrittenOut(adapters, items);
    hide Field.Name, ValueOf, IssueOf, Missing, FieldIssues, SHIPMENT_CODE, CUSTOMER_NAME, ORIGIN_CITY,
         DESTINATION_CITY, WEIGHT_KG, PRICE, STATUS, DELIVERY_DATE, REQUIRED;
    TextIssue(adapters, items, ShipmentCode, SHIPMENT_CODE);
    TextIssue(adapters, items, CustomerName, CUSTOMER_NAME);
    TextIssue(adapters, items, OriginCity, ORIGIN_CITY);
    TextIssue(adapters, items, DestinationCity, DESTINATION_CITY);
    NumberIssue(adapters, items, WeightKg, WEIGHT_KG);
    NumberIssue(adapters, items, Price, PRICE);
    TextIssue(adapters, items, Status, STATUS);
  }

  /** The rules that these values break, each with its message. */
  function RulesBroken(status: Option<string>, customer: Option<string>, weight: Option<real>, price: Option<real>)
    : seq<Issue>
  {
    When(status.Some? && status.value != "PENDING" && status.value != "IN_TRANSIT" && status.value != "DELIVERED"
         && status.value != "CANCELED",
         STATUS, "Status must be one of PENDING, IN_TRANSIT, DELIVERED, or CANCELED.")
    + When(customer.Some? && |customer.value| > 150, CUSTOMER_NAME, "Customer name must be 150 characters or fewer.")
    + When(weight.Some? && weight.value <= 0.0, WEIGHT_KG, "Weight must be greater than 0.")
    + When(price.Some? && price.value < 0.0, PRICE, "Price must be greater than or equal to 0.")
  }

  lemma RulesOfFields(fields: Fields)
    ensures RuleIssues(fields) ==
            RulesBroken(TextOf(fields, Status), TextOf(fields, CustomerName), NumberOf(fields, WeightKg),
                        NumberOf(fields, Price))
  {
  }

  /**
   * The issues of a row, in their order: one for each required column that is missing or unreadable, one for an
   * unreadable date, and one for each rule that a readable value breaks.
   */
  lemma IssuesOfColumns(adapters: Adapters, row: WorkbookRow, x: Columns)
    requires ColumnsOf(row.items, x)
    ensures Prepare(adapters, row).issues ==
            ColumnIssues(adapters, x)
            + (if x.date == Null then [] else Missing(adapters.day, x.date, DELIVERY_DATE))
            + RulesBroken(Read(adapters.text, x.status), Read(adapters.text, x.customer),
                          Read(adapters.number, x.weight), Read(adapters.number, x.price))
  {
    ColumnValues(row.items, x);
    IssuesByColumn(adapters, row.items, x);
    FieldsFrom(adapters, row.items, x);
    RulesOfFields(ParsedFields(adapters, row.items, REQUIRED));
    DateIssue(adapters, x.date);
    hide *;
    IssuesOfParts(adapters, row);
  }

  lemma IssuesOfParts(adapters: Adapters, row: WorkbookRow)
    ensures Prepare(adapters, row).issues ==
            FieldIssues(adapters, row.items, REQUIRED) + DateIssues(adapters, ValueOf(row.items, DeliveryDate))
            + RuleIssues(ParsedFields(adapters, row.items, REQUIRED))
  {
    hide FieldIssues, DateIssues, RuleIssues, ParsedFields, ValueOf, REQUIRED, DraftOf, CodeOf;
  }

  lemma DateIssue(adapters: Adapters, date: Value)
    ensures DateIssues(adapters, date) == if date == Null then [] else Missing(adapters.day, date, DELIVERY_DATE)
  {
  }

  /** The parsed fields of a row, column by column. */
  lemma FieldsFrom(adapters: Adapters, items: seq<Entry>, x: Columns)
    requires ColumnsOf(items, x)
    ensures var fields := ParsedFields(adapters, items, REQUIRED);
            && TextOf(fields, ShipmentCode) == Read(adapters.text, x.code)
            && TextOf(fields, CustomerName) == Read(adapters.text, x.customer)
            && TextOf(fields, OriginCity) == Read(adapters.text, x.origin)
            && TextOf(fields, DestinationCity) == Read(adapters.text, x.destination)
            && NumberOf(fields, WeightKg) == Read(adapters.number, x.weight)
            && NumberOf(fields, Price) == Read(adapters.number, x.price)
            && TextOf(fields, Status) == Read(adapters.text, x.status)
  {
    ColumnValues(items, x);
    hide ColumnsOf, ValueOf, ParsedFields, Read, REQUIRED, TextOf, NumberOf;
    FieldFrom(adapters, items, ShipmentCode);
    FieldFrom(adapters, items, CustomerName);
    FieldFrom(adapters, items, OriginCity);
    FieldFrom(adapters, items, DestinationCity);
    FieldFrom(adapters, items, WeightKg);
    FieldFrom(adapters, items, Price);
    FieldFrom(adapters, items, Status);
  }

  lemma FieldFrom(adapters: Adapters, items: seq<Entry>, f: Field)
    requires f != DeliveryDate
    ensures var fields := ParsedFields(adapters, items, REQUIRED);
            if f.IsNumber() then NumberOf(fields, f) == Read(adapters.number, ValueOf(items, f))
            else TextOf(fields, f) == Read(adapters.text, ValueOf(items, f))
  {
    RequiredFields(f);
    ParsedFrom(adapters, items, REQUIRED, f);
    hide *;
  }

  /** The draft is there with all required fields, and has each of them in its place. */
  predicate IsDraft(draft: Option<Draft>, code: Option<string>, customer: Option<string>, origin: Option<string>,
                    destination: Option<string>, weight: Option<real>, price: Option<real>, status: Option<string>,
                    date: Option<nat>) {
    && (draft.Some? <==> code.Some? && customer.Some? && origin.Some? && destination.Some?
                         && weight.Some? && price.Some? && status.Some?)
    && (draft.Some? ==>
          var d := draft.value;
          && Some(d.code) == code && Some(d.customerName) == customer
          && Some(d.originCity) == origin && Some(d.destinationCity) == destination
          && Some(d.weightKg) == weight && Some(d.price) == price
          && Some(d.status) == status && d.deliveryDate == date)
  }

  lemma DraftOfFields(fields: Fields, date: Option<nat>)
    ensures IsDraft(DraftOf(fields, date), TextOf(fields, ShipmentCode), TextOf(fields, CustomerName),
                    TextOf(fields, OriginCity), TextOf(fields, DestinationCity), NumberOf(fields, WeightKg),
                    NumberOf(fields, Price), TextOf(fields, Status), date)
  {
  }

  /**
   * A row has a draft exactly if its seven required columns are readable, and each field of the draft is what the
   * adapter made of its own column. Its code is that of the code column, draft or not.
   */
  lemma DraftOfColumns(adapters: Adapters, row: WorkbookRow, x: Columns)
    requires ColumnsOf(row.items, x)
    ensures var code, customer := Read(adapters.text, x.code), Read(adapters.text, x.customer);
            var origin, destination := Read(adapters.text, x.origin), Read(adapters.text, x.destination);
            var weight, price := Read(adapters.number, x.weight), Read(adapters.number, x.price);
            var status, date := Read(adapters.text, x.status), Read(adapters.day, x.date);
            var p := Prepare(adapters, row);
            && p.row == row && p.code == code
            && IsDraft(p.draft, code, customer, origin, destination, weight, price, status, date)
  {
    ColumnValues(row.items, x);
    FieldsFrom(adapters, row.items, x);
    var fields := ParsedFields(adapters, row.items, REQUIRED);
    DraftOfFields(fields, ParsedDay(adapters, x.date));
    assert TextOf(fields, ShipmentCode) == CodeOf(fields);
    hide ColumnsOf, ValueOf, ParsedFields, FieldIssues, RuleIssues, DateIssues, REQUIRED, IsDraft, DraftOf, TextOf,
         NumberOf, CodeOf;
  }

  /** A row without issues becomes a shipment that keeps every rule. */
  lemma ValidRowKeepsTheRules(adapters: Adapters, row: WorkbookRow, x: Columns)
    requires ColumnsOf(row.items, x) && Prepare(adapters, row).issues == []
    ensures var p := Prepare(adapters, row);
            && p.draft.Some?
            && var d := p.draft.value;
            && (d.status == "PENDING" || d.status == "IN_TRANSIT" || d.status == "DELIVERED" || d.status == "CANCELED")
            && |d.customerName| <= 150 && d.weightKg > 0.0 && d.price >= 0.0
            && (x.date != Null ==> d.deliveryDate.Some?)
  {
    DraftOfColumns(adapters, row, x);
    IssuesOfColumns(adapters, row, x);
    hide ColumnsOf, Prepare;
  }

  /** Every row has its columns. */
  lemma ColumnsExist(items: seq<Entry>) returns (x: Columns)
    ensures ColumnsOf(items, x)
  {
    x := Columns(ColumnAt(items, "shipment_code"), ColumnAt(items, "customer_name"), ColumnAt(items, "origin_city"),
      ColumnAt(items, "destination_city"), ColumnAt(items, "weight_kg"), ColumnAt(items, "price"),
      ColumnAt(items, "status"), ColumnAt(items, "delivery_date"));
  }

  function ColumnAt(items: seq<Entry>, column: string): (value: Value)
    ensures Holds(items, column, value)
  {
    if HasKey(items, column) then items[Position(items, column)].value else Null
  }
}
