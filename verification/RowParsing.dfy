/** Field parsing and the shipment rules for one workbook row. */
module RowParsing {
  import opened Domain
  import opened Jsonb

  datatype Result<+T> = Parsed(value: T) | Invalid(message: string)

  /** The field adapters, whose own rules are not part of this model. */
  datatype Adapters = Adapters(text: Value -> Result<string>, number: Value -> Result<real>, day: Value -> Result<nat>)

  datatype Field = ShipmentCode | CustomerName | OriginCity | DestinationCity | WeightKg | Price | Status | DeliveryDate
  {
    function Name(): string {
      match this
      case ShipmentCode => "shipment_code"
      case CustomerName => "customer_name"
      case OriginCity => "origin_city"
      case DestinationCity => "destination_city"
      case WeightKg => "weight_kg"
      case Price => "price"
      case Status => "status"
      case DeliveryDate => "delivery_date"
    }

    predicate IsNumber() {
      WeightKg? || Price?
    }
  }

  const REQUIRED := [ShipmentCode, CustomerName, OriginCity, DestinationCity, WeightKg, Price, Status]

  /** The required fields parsed so far: texts and numbers. */
  datatype Fields = Fields(texts: map<Field, string>, numbers: map<Field, real>) {
    predicate Has(field: Field) {
      if field.IsNumber() then field in numbers else field in texts
    }
  }

  const NO_FIELDS := Fields(map[], map[])

  function ValueOf(items: seq<Entry>, field: Field): Value {
    if HasKey(items, field.Name()) then items[Position(items, field.Name())].value else Null
  }

  /** What one required field contributes: an issue, or nothing when it could be parsed. */
  function FieldIssue(adapters: Adapters, value: Value, field: Field): seq<Issue> {
    if value == Null then [Issue(field.Name(), "Field required")]
    else if field.IsNumber() then
      match adapters.number(value) case Parsed(_) => [] case Invalid(m) => [Issue(field.Name(), m)]
    else
      match adapters.text(value) case Parsed(_) => [] case Invalid(m) => [Issue(field.Name(), m)]
  }

  /** The fields with one more, if it can be parsed. */
  function WithField(adapters: Adapters, fields: Fields, value: Value, field: Field): Fields {
    if value == Null then fields
    else if field.IsNumber() then
      match adapters.number(value)
      case Parsed(v) => fields.(numbers := fields.numbers[field := v])
      case Invalid(_) => fields
    else
      match adapters.text(value)
      case Parsed(v) => fields.(texts := fields.texts[field := v])
      case Invalid(_) => fields
  }

  function IssueOf(adapters: Adapters, items: seq<Entry>, field: Field): seq<Issue> {
    FieldIssue(adapters, ValueOf(items, field), field)
  }

  function FieldIssues(adapters: Adapters, items: seq<Entry>, names: seq<Field>): seq<Issue> {
    if names == [] then []
    else
      var n := |names| - 1;
      FieldIssues(adapters, items, names[..n]) + IssueOf(adapters, items, names[n])
  }

  function ParsedFields(adapters: Adapters, items: seq<Entry>, names: seq<Field>): Fields {
    if names == [] then NO_FIELDS
    else
      var n := |names| - 1;
      WithField(adapters, ParsedFields(adapters, items, names[..n]), ValueOf(items, names[n]), names[n])
  }

  lemma FieldStep(adapters: Adapters, before: Fields, value: Value, field: Field, f: Field)
    ensures WithField(adapters, before, value, field).Has(f) <==>
              before.Has(f) || (f == field && FieldIssue(adapters, value, field) == [])
  {
  }

  /** A field is there exactly when it was asked for and has no issue. */
  lemma {:induction false} ParsedOrIssue(adapters: Adapters, items: seq<Entry>, names: seq<Field>, f: Field)
    ensures ParsedFields(adapters, items, names).Has(f) <==>
              f in names && IssueOf(adapters, items, f) == []
  {
    if names != [] {
      var n := |names| - 1;
      ParsedOrIssue(adapters, items, names[..n], f);
      FieldStep(adapters, ParsedFields(adapters, items, names[..n]), ValueOf(items, names[n]), names[n], f);
      assert names == names[..n] + [names[n]];
      hide FieldIssue, WithField, ValueOf;
    }
  }

  /** There are no issues exactly when no field has one. */
  lemma {:induction false} NoIssues(adapters: Adapters, items: seq<Entry>, names: seq<Field>)
    ensures FieldIssues(adapters, items, names) == [] <==>
              forall i :: 0 <= i < |names| ==> IssueOf(adapters, items, names[i]) == []
  {
    hide IssueOf;
    if names != [] {
      var n := |names| - 1;
      NoIssues(adapters, items, names[..n]);
    }
  }

  const STATUSES := {"PENDING", "IN_TRANSIT", "DELIVERED", "CANCELED"}

  /** The business rules, each applied only to a value that could be parsed. */
  function RuleIssues(fields: Fields): seq<Issue> {
    (if Status in fields.texts && fields.texts[Status] !in STATUSES
     then [Issue("status", "Status must be one of PENDING, IN_TRANSIT, DELIVERED, or CANCELED.")] else []) +
    (if CustomerName in fields.texts && |fields.texts[CustomerName]| > 150
     then [Issue("customer_name", "Customer name must be 150 characters or fewer.")] else []) +
    (if WeightKg in fields.numbers && fields.numbers[WeightKg] <= 0.0
     then [Issue("weight_kg", "Weight must be greater than 0.")] else []) +
    (if Price in fields.numbers && fields.numbers[Price] < 0.0
     then [Issue("price", "Price must be greater than or equal to 0.")] else [])
  }

  function DateIssues(adapters: Adapters, value: Value): seq<Issue> {
    if value == Null then []
    else match adapters.day(value) case Parsed(_) => [] case Invalid(m) => [Issue("delivery_date", m)]
  }

  function ParsedDay(adapters: Adapters, value: Value): Option<nat> {
    if value == Null then None
    else match adapters.day(value) case Parsed(d) => Some(d) case Invalid(_) => None
  }

  predicate Complete(fields: Fields) {
    && ShipmentCode in fields.texts && CustomerName in fields.texts && OriginCity in fields.texts
    && DestinationCity in fields.texts && WeightKg in fields.numbers && Price in fields.numbers
        && Status in fields.texts
  }

  /** What the parsed fields make of the row: the shipment draft, when all required fields are there. */
  function DraftOf(fields: Fields, day: Option<nat>): Option<Draft> {
    if Complete(fields) then
      Some(Draft(fields.texts[ShipmentCode], fields.texts[CustomerName], fields.texts[OriginCity],
        fields.texts[DestinationCity], fields.numbers[WeightKg], fields.numbers[Price], fields.texts[Status], day))
    else None
  }

  function CodeOf(fields: Fields): Option<Code> {
    if ShipmentCode in fields.texts then Some(fields.texts[ShipmentCode]) else None
  }

  /** A row after parsing: its issues in order, and its draft and code as far as they could be parsed. */
  function Prepare(adapters: Adapters, row: WorkbookRow): PreparedRecord {
    var fields, date := ParsedFields(adapters, row.items, REQUIRED), ValueOf(row.items, DeliveryDate);
    PreparedRecord(row,
      FieldIssues(adapters, row.items, REQUIRED) + DateIssues(adapters, date) + RuleIssues(fields),
      DraftOf(fields, ParsedDay(adapters, date)), CodeOf(fields))
  }

  lemma CompleteMeansAllRequired(fields: Fields)
    ensures Complete(fields) <==> forall f | f in REQUIRED :: fields.Has(f)
  {
    forall f: Field
      ensures f in REQUIRED <==> f != DeliveryDate
    {
      RequiredFields(f);
    }
    assert fields.Has(ShipmentCode) <==> ShipmentCode in fields.texts;
    assert fields.Has(CustomerName) <==> CustomerName in fields.texts;
    assert fields.Has(OriginCity) <==> OriginCity in fields.texts;
    assert fields.Has(DestinationCity) <==> DestinationCity in fields.texts;
    assert fields.Has(WeightKg) <==> WeightKg in fields.numbers;
    assert fields.Has(Price) <==> Price in fields.numbers;
    assert fields.Has(Status) <==> Status in fields.texts;
    hide REQUIRED;
  }

  lemma RequiredFields(f: Field)
    ensures f in REQUIRED <==> f != DeliveryDate
  {
    assert REQUIRED[0] == ShipmentCode && REQUIRED[1] == CustomerName && REQUIRED[2] == OriginCity
        && REQUIRED[3] == DestinationCity && REQUIRED[4] == WeightKg && REQUIRED[5] == Price && REQUIRED[6] == Status;
  }

  /**
   * A row has a draft exactly when every required field could be parsed, and a code exactly when the code
   * field could; a row without a draft has an issue, so a row without issues can become a shipment.
   */
  lemma PreparedIsConsistent(adapters: Adapters, row: WorkbookRow)
    ensures var p := Prepare(adapters, row);
            && p.Consistent()
            && (p.draft.Some? <==> forall f | f in REQUIRED :: IssueOf(adapters, row.items, f) == [])
            && (p.code.Some? <==> IssueOf(adapters, row.items, ShipmentCode) == [])
  {
    hide IssueOf, ParsedFields, FieldIssues;
    var fields := ParsedFields(adapters, row.items, REQUIRED);
    forall f: Field
      ensures fields.Has(f) <==> f in REQUIRED && IssueOf(adapters, row.items, f) == []
    {
      ParsedOrIssue(adapters, row.items, REQUIRED, f);
    }
    NoIssues(adapters, row.items, REQUIRED);
    CompleteMeansAllRequired(fields);
    assert REQUIRED[0] == ShipmentCode;
    assert ShipmentCode in REQUIRED;
    assert fields.Has(ShipmentCode) <==> ShipmentCode in fields.texts;
  }

  function PrepareRow(adapters: Adapters, row: WorkbookRow): PreparedRow {
    PreparedIsConsistent(adapters, row);
    Prepare(adapters, row)
  }

  function PrepareAll(adapters: Adapters, rows: seq<WorkbookRow>): (r: seq<PreparedRow>)
    ensures |r| == |rows|
    ensures forall i :: 0 <= i < |rows| ==> r[i] == PrepareRow(adapters, rows[i])
  {
    seq(|rows|, i requires 0 <= i < |rows| => PrepareRow(adapters, rows[i]))
  }

  /** Validate one field: an issue, or the fields with one more. */
  method ParseField(adapters: Adapters, fields: Fields, value: Value, field: Field)
    returns (issues: seq<Issue>, fields': Fields)
    ensures issues == FieldIssue(adapters, value, field)
    ensures fields' == WithField(adapters, fields, value, field)
  {
    issues, fields' := [], fields;
    if value == Null {
      issues := [Issue(field.Name(), "Field required")];
    } else if field.IsNumber() {
      match adapters.number(value)
      case Parsed(v) => fields' := fields.(numbers := fields.numbers[field := v]);
      case Invalid(m) => issues := [Issue(field.Name(), m)];
    } else {
      match adapters.text(value)
      case Parsed(v) => fields' := fields.(texts := fields.texts[field := v]);
      case Invalid(m) => issues := [Issue(field.Name(), m)];
    }
  }

  /** The loop over the required fields, the delivery date, and the rules. */
  method ParseRow(adapters: Adapters, row: WorkbookRow) returns (prepared: PreparedRow)
    ensures prepared == PrepareRow(adapters, row)
  {
    hide ValueOf, FieldIssue, WithField, RuleIssues, DraftOf;
    var issues: seq<Issue> := [];
    var parsed := NO_FIELDS;
    var i := 0;
    while i < |REQUIRED|
      invariant i <= |REQUIRED|
      invariant issues == FieldIssues(adapters, row.items, REQUIRED[..i])
      invariant parsed == ParsedFields(adapters, row.items, REQUIRED[..i])
    {
      assert REQUIRED[..i + 1][..i] == REQUIRED[..i];
      var more, parsed' := ParseField(adapters, parsed, ValueOf(row.items, REQUIRED[i]), REQUIRED[i]);
      issues, parsed := issues + more, parsed';
      i := i + 1;
    }
    assert REQUIRED[..i] == REQUIRED;

    var day: Option<nat> := None;
    var date := ValueOf(row.items, DeliveryDate);
    if date != Null {
      match adapters.day(date)
      case Parsed(d) => day := Some(d);
      case Invalid(m) => issues := issues + [Issue("delivery_date", m)];
    }
    issues := issues + RuleIssues(parsed);
    PreparedIsConsistent(adapters, row);
    prepared := PreparedRecord(row, issues, DraftOf(parsed, day), CodeOf(parsed));
  }
}
