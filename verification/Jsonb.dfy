/** The recursive normaliser applied to workbook values before they are stored as JSONB. */
module Jsonb {

  /** A dictionary key together with what Python's `str` makes of it. */
  datatype Key = TextKey(text: string) | OtherKey(text: string)

  datatype Entry = Entry(key: Key, value: Value)

  /** A Python value as the normaliser distinguishes it. Values that are turned into text carry that text. */
  datatype Value =
    | Null
    | Bool(b: bool)
    | Int(i: int)
    | Float(finite: bool, repr: string)
    | Text(s: string)
    | Decimal(s: string)
    | DateTime(iso: string)
    | Date(iso: string)
    | Dict(items: seq<Entry>)
    | List(elements: seq<Value>)
    | Tuple(elements: seq<Value>)
    | SetOf(elements: seq<Value>)
    | Other(s: string)

  predicate HasKey(items: seq<Entry>, key: string) {
    exists i :: 0 <= i < |items| && items[i].key.text == key
  }

  function Position(items: seq<Entry>, key: string): (i: nat)
    requires HasKey(items, key)
    ensures i < |items| && items[i].key.text == key
    ensures forall j :: 0 <= j < i ==> items[j].key.text != key
  {
    if items[0].key.text == key then 0
    else
      assert HasKey(items[1..], key) by {
        var i :| 0 <= i < |items| && items[i].key.text == key;
        assert items[1..][i - 1].key.text == key;
      }
      1 + Position(items[1..], key)
  }

  /** Storing under a key that is already there overwrites the value and keeps the key's position. */
  function Store(items: seq<Entry>, key: string, value: Value): seq<Entry> {
    if HasKey(items, key) then
      var i := Position(items, key);
      items[i := Entry(items[i].key, value)]
    else items + [Entry(TextKey(key), value)]
  }

  function Safe(value: Value): Value
    decreases value, 0
  {
    match value
    case Decimal(s) => Text(s)
    case DateTime(iso) => Text(iso)
    case Date(iso) => Text(iso)
    case Dict(items) => Dict(SafeItems(items))
    case List(elements) => List(SafeAll(elements))
    case Tuple(elements) => List(SafeAll(elements))
    case SetOf(elements) => List(SafeAll(elements))
    case Other(s) => Text(s)
    case _ => value
  }

  function SafeAll(elements: seq<Value>): seq<Value>
    decreases elements, 1
  {
    if elements == [] then [] else [Safe(elements[0])] + SafeAll(elements[1..])
  }

  /** The dictionary comprehension: the items are stored in order into an empty dictionary. */
  function SafeItems(items: seq<Entry>): seq<Entry>
    decreases items, 1
  {
    if items == [] then []
    else
      var last := items[|items| - 1];
      assert last.value < last;
      Store(SafeItems(items[..|items| - 1]), last.key.text, Safe(last.value))
  }

  /** What has a text form becomes that text, every sequence a list of the same length, and primitives stay. */
  lemma SafeMeaning(value: Value)
    ensures match value
            case Decimal(s) => Safe(value) == Text(s)
            case DateTime(iso) => Safe(value) == Text(iso)
            case Date(iso) => Safe(value) == Text(iso)
            case Other(s) => Safe(value) == Text(s)
            case List(elements) => IsSafeList(elements, Safe(value))
            case Tuple(elements) => IsSafeList(elements, Safe(value))
            case SetOf(elements) => IsSafeList(elements, Safe(value))
            case Dict(_) => Safe(value).Dict?
            case _ => Safe(value) == value
  {
    if value.List? || value.Tuple? || value.SetOf? {
      SafeElements(value.elements);
    }
  }

  predicate IsSafeList(elements: seq<Value>, list: Value) {
    && list.List? && |list.elements| == |elements|
    && forall i :: 0 <= i < |elements| ==> list.elements[i] == Safe(elements[i])
  }

  lemma {:induction false} SafeElements(elements: seq<Value>)
    ensures |SafeAll(elements)| == |elements|
    ensures forall i :: 0 <= i < |elements| ==> SafeAll(elements)[i] == Safe(elements[i])
  {
    if elements != [] {
      SafeElements(elements[1..]);
    }
  }

  predicate DistinctTextKeys(items: seq<Entry>) {
    && (forall i :: 0 <= i < |items| ==> items[i].key.TextKey?)
    && (forall i, j :: 0 <= i < j < |items| ==> items[i].key != items[j].key)
  }

  /** The JSON-primitive grammar: null, booleans, numbers, text, lists, and objects with distinct text keys. */
  predicate Primitive(value: Value) {
    match value
    case Null => true
    case Bool(_) => true
    case Int(_) => true
    case Float(_, _) => true
    case Text(_) => true
    case Dict(items) => DistinctTextKeys(items) && forall entry | entry in items :: Primitive(entry.value)
    case List(elements) => forall element | element in elements :: Primitive(element)
    case _ => false
  }

  /** Every nested value lands in the primitive grammar. */
  lemma {:induction false} SafeIsPrimitive(value: Value)
    ensures Primitive(Safe(value))
    decreases value, 0
  {
    match value
    case Dict(items) => SafeItemsPrimitive(items);
    case List(elements) => SafeAllPrimitive(elements);
    case Tuple(elements) => SafeAllPrimitive(elements);
    case SetOf(elements) => SafeAllPrimitive(elements);
    case _ =>
  }

  lemma {:induction false} SafeAllPrimitive(elements: seq<Value>)
    ensures forall element | element in SafeAll(elements) :: Primitive(element)
    decreases elements, 1
  {
    if elements != [] {
      SafeIsPrimitive(elements[0]);
      SafeAllPrimitive(elements[1..]);
    }
  }

  lemma {:induction false} SafeItemsPrimitive(items: seq<Entry>)
    ensures Primitive(Dict(SafeItems(items)))
    decreases items, 1
  {
    if items != [] {
      var last := items[|items| - 1];
      assert last.value < last;
      SafeItemsPrimitive(items[..|items| - 1]);
      SafeIsPrimitive(last.value);
    }
  }

  /** Values already in the grammar are left exactly as they are. */
  lemma {:induction false} SafeFixesPrimitive(value: Value)
    requires Primitive(value)
    ensures Safe(value) == value
    decreases value, 0
  {
    match value
    case Dict(items) => SafeItemsFixed(items);
    case List(elements) => SafeAllFixed(elements);
    case _ =>
  }

  lemma {:induction false} SafeAllFixed(elements: seq<Value>)
    requires forall element | element in elements :: Primitive(element)
    ensures SafeAll(elements) == elements
    decreases elements, 1
  {
    if elements != [] {
      SafeFixesPrimitive(elements[0]);
      SafeAllFixed(elements[1..]);
    }
  }

  lemma DictParts(front: seq<Entry>, last: Entry)
    requires Primitive(Dict(front + [last]))
    ensures Primitive(Dict(front)) && Primitive(last.value)
    ensures last.key.TextKey? && !HasKey(front, last.key.text)
  {
    var items := front + [last];
    assert forall i :: 0 <= i < |front| ==> items[i] == front[i];
    assert items[|front|] == last;
    assert last in items;
    assert forall entry | entry in front :: entry in items;
    forall i | 0 <= i < |front| ensures front[i].key.text != last.key.text {
      assert items[i].key != items[|front|].key;
    }
  }

  lemma StoreNew(front: seq<Entry>, last: Entry)
    requires last.key.TextKey? && !HasKey(front, last.key.text)
    ensures Store(front, last.key.text, last.value) == front + [last]
  {
  }

  lemma {:induction false} SafeItemsFixed(items: seq<Entry>)
    requires Primitive(Dict(items))
    ensures SafeItems(items) == items
    decreases items, 1
  {
    if items != [] {
      var front, last := items[..|items| - 1], items[|items| - 1];
      assert items == front + [last];
      assert last.value < last;
      DictParts(front, last);
      SafeItemsFixed(front);
      SafeFixesPrimitive(last.value);
      assert SafeItems(items) == Store(SafeItems(front), last.key.text, Safe(last.value));
      hide Safe, SafeItems, Primitive, Store;
      StoreNew(front, last);
    }
  }

  /** The second pass, made just before insertion, changes nothing. */
  lemma SafeIdempotent(value: Value)
    ensures Safe(Safe(value)) == Safe(value)
  {
    SafeIsPrimitive(value);
    SafeFixesPrimitive(Safe(value));
  }

  /** The values the normaliser leaves alone are exactly those of the grammar. */
  lemma FixedPointsArePrimitive(value: Value)
    ensures Safe(value) == value <==> Primitive(value)
  {
    SafeIsPrimitive(value);
    if Primitive(value) {
      SafeFixesPrimitive(value);
    }
  }

  /** Item `i` is the last one whose key reads as its text. */
  predicate LastWithKey(items: seq<Entry>, i: nat)
    requires i < |items|
  {
    forall j :: i < j < |items| ==> items[j].key.text != items[i].key.text
  }

  function SafeEntry(entry: Entry): Entry {
    Entry(TextKey(entry.key.text), Safe(entry.value))
  }

  lemma StoreMembers(items: seq<Entry>, key: string, value: Value, entry: Entry)
    requires DistinctTextKeys(items)
    ensures entry in Store(items, key, value) <==>
              entry == Entry(TextKey(key), value) || (entry in items && entry.key.text != key)
  {
    var after := Store(items, key, value);
    var p := if HasKey(items, key) then Position(items, key) else |items|;
    assert after[p] == Entry(TextKey(key), value);
    if entry in items && entry.key.text != key {
      var q :| 0 <= q < |items| && items[q] == entry;
      assert after[q] == entry;
    }
  }

  predicate Survives(items: seq<Entry>, entry: Entry) {
    exists i: nat :: i < |items| && LastWithKey(items, i) && entry == SafeEntry(items[i])
  }

  /** Keys that read the same collapse and the last value wins: nothing else is stored, and nothing is lost. */
  lemma {:induction false} LastValueWins(items: seq<Entry>, entry: Entry)
    ensures entry in SafeItems(items) <==> Survives(items, entry)
  {
    if items != [] {
      var n := |items| - 1;
      var front, key := items[..n], items[n].key.text;
      LastValueWins(front, entry);
      SafeItemsPrimitive(front);
      StoreMembers(SafeItems(front), key, Safe(items[n].value), entry);
      SurvivesStep(items, entry);
    }
  }

  lemma SurvivesStep(items: seq<Entry>, entry: Entry)
    requires items != []
    ensures var n := |items| - 1;
            Survives(items, entry) <==>
              entry == SafeEntry(items[n]) || (Survives(items[..n], entry) && entry.key.text != items[n].key.text)
  {
    var n := |items| - 1;
    assert LastWithKey(items, n);
    forall i: nat | i < n
      ensures LastWithKey(items, i) <==> LastWithKey(items[..n], i) && items[i].key.text != items[n].key.text
    {
      LastInPrefix(items, i);
    }
    forall i: nat | i < n ensures SafeEntry(items[..n][i]) == SafeEntry(items[i]) {
    }
    assert forall i: nat | i < |items| :: SafeEntry(items[i]).key.text == items[i].key.text;
  }

  lemma LastInPrefix(items: seq<Entry>, i: nat)
    requires i < |items| - 1
    ensures var n := |items| - 1;
            LastWithKey(items, i) <==> LastWithKey(items[..n], i) && items[i].key.text != items[n].key.text
  {
    var front := items[..|items| - 1];
    assert forall j :: 0 <= j < |front| ==> front[j] == items[j];
  }

  predicate NoNul(s: string) {
    forall i :: 0 <= i < |s| ==> s[i] != '\0'
  }

  /** What a JSONB column accepts: the grammar, with finite numbers and no U+0000 in any text. */
  predicate Accepted(value: Value) {
    match value
    case Null => true
    case Bool(_) => true
    case Int(_) => true
    case Float(finite, _) => finite
    case Text(s) => NoNul(s)
    case Dict(items) =>
      DistinctTextKeys(items) && forall entry | entry in items :: NoNul(entry.key.text) && Accepted(entry.value)
    case List(elements) => forall element | element in elements :: Accepted(element)
    case _ => false
  }

  /** The condition on the input: every surviving number is finite, every surviving text free of U+0000. */
  predicate Clean(value: Value) {
    match value
    case Null => true
    case Bool(_) => true
    case Int(_) => true
    case Float(finite, _) => finite
    case Text(s) => NoNul(s)
    case Decimal(s) => NoNul(s)
    case DateTime(iso) => NoNul(iso)
    case Date(iso) => NoNul(iso)
    case Dict(items) =>
      forall i: nat | i < |items| && LastWithKey(items, i) :: NoNul(items[i].key.text) && Clean(items[i].value)
    case List(elements) => forall element | element in elements :: Clean(element)
    case Tuple(elements) => forall element | element in elements :: Clean(element)
    case SetOf(elements) => forall element | element in elements :: Clean(element)
    case Other(s) => NoNul(s)
  }

  /** The normaliser alone does not make a value storable: it is stored exactly when the input was clean. */
  lemma {:induction false} AcceptedIffClean(value: Value)
    ensures Accepted(Safe(value)) <==> Clean(value)
    decreases value
  {
    match value
    case Dict(items) =>
      forall i: nat | i < |items|
        ensures Accepted(SafeEntry(items[i]).value) <==> Clean(items[i].value)
      {
        assert items[i].value < items[i];
        AcceptedIffClean(items[i].value);
      }
      AcceptedDict(items);
    case List(elements) => AcceptedAll(elements);
    case Tuple(elements) => AcceptedAll(elements);
    case SetOf(elements) => AcceptedAll(elements);
    case _ =>
  }

  lemma AcceptedDict(items: seq<Entry>)
    requires forall i: nat | i < |items| :: Accepted(SafeEntry(items[i]).value) <==> Clean(items[i].value)
    ensures Accepted(Dict(SafeItems(items))) <==> Clean(Dict(items))
  {
    SafeItemsPrimitive(items);
    hide Safe, SafeItems;
    if Clean(Dict(items)) {
      forall entry | entry in SafeItems(items) ensures NoNul(entry.key.text) && Accepted(entry.value) {
        LastValueWins(items, entry);
        var i: nat :| i < |items| && LastWithKey(items, i) && entry == SafeEntry(items[i]);
      }
    }
    if Accepted(Dict(SafeItems(items))) {
      forall i: nat | i < |items| && LastWithKey(items, i)
        ensures NoNul(items[i].key.text) && Clean(items[i].value)
      {
        LastValueWins(items, SafeEntry(items[i]));
        assert SafeEntry(items[i]) in SafeItems(items);
      }
    }
  }

  lemma {:induction false} AcceptedAll(elements: seq<Value>)
    ensures (forall element | element in SafeAll(elements) :: Accepted(element))
       <==> (forall element | element in elements :: Clean(element))
    decreases elements
  {
    if elements != [] {
      AcceptedIffClean(elements[0]);
      AcceptedAll(elements[1..]);
      assert elements == [elements[0]] + elements[1..];
      assert SafeAll(elements) == [Safe(elements[0])] + SafeAll(elements[1..]);
    }
  }

  /** An infinite number, such as a cell with 1E999 yields, passes the normaliser and is refused by the column. */
  lemma InfiniteNumberIsRefused()
    ensures !Accepted(Safe(Dict([Entry(TextKey("price"), Float(false, "inf"))])))
  {
    var items := [Entry(TextKey("price"), Float(false, "inf"))];
    assert LastWithKey(items, 0);
    AcceptedIffClean(Dict(items));
  }

  /** So does a text with U+0000 in it. No worksheet holds one, so this is a fact about the normaliser alone. */
  lemma NulTextIsRefused(column: string, s: string)
    requires '\0' in s
    ensures !Accepted(Safe(Dict([Entry(TextKey(column), Text(s))])))
  {
    var items := [Entry(TextKey(column), Text(s))];
    var i :| 0 <= i < |s| && s[i] == '\0';
    assert !NoNul(s);
    assert LastWithKey(items, 0);
    AcceptedIffClean(Dict(items));
  }

  /** Nothing outside the grammar is accepted, whatever it is called in Python. */
  lemma {:induction false} AcceptedIsPrimitive(value: Value)
    requires Accepted(value)
    ensures Primitive(value)
    decreases value
  {
    match value
    case Dict(items) =>
      forall entry | entry in items ensures Primitive(entry.value) {
        assert Accepted(entry.value);
        AcceptedIsPrimitive(entry.value);
      }
    case List(elements) =>
      forall element | element in elements ensures Primitive(element) {
        AcceptedIsPrimitive(element);
      }
    case _ =>
  }
}
