/** The canonical evidence serializer: its canonical form, and three ways to the same bytes. */
module CanonicalJson {
  import opened Common
  import opened CanonicalOrder

  /**
   An evidence value. `Leaf` is a JSON scalar with its text; `Typed` is a timestamp, decimal or other
   typed scalar with the JSON text of its canonical form; `Bytes` carries the JSON text of its base64
   form; `Unsupported` is whatever the serializer rejects.
   */
  datatype Value =
    | Leaf(text: string)
    | Typed(text: string)
    | Bytes(text: string)
    | Unsupported
    | Map(items: seq<Item>)
    | List(values: seq<Value>)
    | Set(values: seq<Value>)

  /** A mapping entry under the text of its key. */
  datatype Item = Item(key: string, value: Value)

  const BYTES_KEY: string := "$bytes_base64"

  predicate HasSuffix(s: string, suffix: string) {
    |s| >= |suffix| && s[|s| - |suffix|..] == suffix
  }

  /** The list under this (lower-case) field name carries no order. */
  predicate Unordered(field: string) {
    field == "reason_codes" || HasSuffix(field, "_reason_codes") || HasSuffix(field, "_reason_codes_json")
  }

  function Keys(items: seq<Item>): (r: seq<string>)
    ensures |r| == |items| && forall i | 0 <= i < |r| :: r[i] == items[i].key
  {
    seq(|items|, i requires 0 <= i < |items| => items[i].key)
  }

  predicate AllSome<T>(parts: seq<Option<T>>) {
    forall i | 0 <= i < |parts| :: parts[i].Some?
  }

  function Given<T>(parts: seq<Option<T>>): (r: seq<T>)
    requires AllSome(parts)
    ensures |r| == |parts| && forall i | 0 <= i < |r| :: r[i] == parts[i].value
  {
    seq(|parts|, i requires 0 <= i < |parts| && parts[i].Some? => parts[i].value)
  }

  function Zip(keys: seq<string>, values: seq<Value>): (r: seq<Item>)
    requires |keys| == |values|
    ensures |r| == |keys| && forall i | 0 <= i < |r| :: r[i] == Item(keys[i], values[i])
  {
    seq(|keys|, i requires 0 <= i < |keys| => Item(keys[i], values[i]))
  }

  // ---- JSON text ---------------------------------------------------------------------------------

  function Join(parts: seq<string>): string {
    if parts == [] then ""
    else if |parts| == 1 then parts[0]
    else Join(parts[..|parts| - 1]) + "," + parts[|parts| - 1]
  }

  function Field(key: string, text: string): string {
    "\"" + key + "\":" + text
  }

  function Fields(keys: seq<string>, texts: seq<string>): (r: seq<string>)
    requires |keys| == |texts|
    ensures |r| == |keys| && forall i | 0 <= i < |r| :: r[i] == Field(keys[i], texts[i])
  {
    seq(|keys|, i requires 0 <= i < |keys| => Field(keys[i], texts[i]))
  }

  /** `json.dumps` with sorted keys; it rejects what is not JSON, which has no text here. */
  function Dump(v: Value): string {
    match v
    case Leaf(text) => text
    case Map(items) =>
      var texts := seq(|items|, i requires 0 <= i < |items| => Dump(items[i].value));
      "{" + Join(Arrange(Fields(Keys(items), texts), Order(Keys(items)))) + "}"
    case List(values) =>
      "[" + Join(seq(|values|, i requires 0 <= i < |values| => Dump(values[i]))) + "]"
    case _ => ""
  }

  function Texts(values: seq<Value>): (r: seq<string>)
    ensures |r| == |values| && forall i | 0 <= i < |r| :: r[i] == Dump(values[i])
  {
    seq(|values|, i requires 0 <= i < |values| => Dump(values[i]))
  }

  // ---- The canonical form --------------------------------------------------------------------------

  function SortedByText(values: seq<Value>): seq<Value> {
    Arrange(values, Order(Texts(values)))
  }

  function CanonMap(keys: seq<string>, parts: seq<Option<Value>>): Option<Value>
    requires |keys| == |parts|
  {
    if !Distinct(keys) || !AllSome(parts) then None
    else Some(Map(Arrange(Zip(keys, Given(parts)), Order(keys))))
  }

  function CanonList(parts: seq<Option<Value>>, sort: bool): Option<Value> {
    if !AllSome(parts) then None
    else Some(List(if sort then SortedByText(Given(parts)) else Given(parts)))
  }

  /** `canonicalize`; `unordered` says that the value sits under an unordered field. */
  function Canon(v: Value, unordered: bool): Option<Value>
    decreases v
  {
    match v
    case Leaf(_) => Some(v)
    case Typed(text) => Some(Leaf(text))
    case Bytes(text) => Some(Map([Item(BYTES_KEY, Leaf(text))]))
    case Unsupported => None
    case Map(items) =>
      CanonMap(Keys(items), seq(|items|, i requires 0 <= i < |items| => Canon(items[i].value, Unordered(items[i].key))))
    case List(values) => CanonList(seq(|values|, i requires 0 <= i < |values| => Canon(values[i], false)), unordered)
    case Set(values) => CanonList(seq(|values|, i requires 0 <= i < |values| => Canon(values[i], false)), true)
  }

  function CanonItems(items: seq<Item>): (r: seq<Option<Value>>)
    ensures |r| == |items| && forall i | 0 <= i < |r| :: r[i] == Canon(items[i].value, Unordered(items[i].key))
  {
    seq(|items|, i requires 0 <= i < |items| => Canon(items[i].value, Unordered(items[i].key)))
  }

  function CanonValues(values: seq<Value>): (r: seq<Option<Value>>)
    ensures |r| == |values| && forall i | 0 <= i < |r| :: r[i] == Canon(values[i], false)
  {
    seq(|values|, i requires 0 <= i < |values| => Canon(values[i], false))
  }

  lemma {:induction false} CanonOfMap(items: seq<Item>, unordered: bool)
    ensures Canon(Map(items), unordered) == CanonMap(Keys(items), CanonItems(items))
  {
    assert CanonItems(items) == seq(|items|, i requires 0 <= i < |items| => Canon(items[i].value, Unordered(items[i].key)));
  }

  lemma {:induction false} CanonOfList(values: seq<Value>, unordered: bool)
    ensures Canon(List(values), unordered) == CanonList(CanonValues(values), unordered)
    ensures Canon(Set(values), unordered) == CanonList(CanonValues(values), true)
  {
    assert CanonValues(values) == seq(|values|, i requires 0 <= i < |values| => Canon(values[i], false));
  }

  // ---- Idempotence -----------------------------------------------------------------------------

  ghost predicate Fixed(v: Value, unordered: bool) {
    Canon(v, unordered) == Some(v)
  }

  /** A map with sorted distinct keys and fixed values is fixed. */
  lemma {:induction false} FixedMap(items: seq<Item>, unordered: bool)
    requires Sorted(Keys(items)) && Distinct(Keys(items))
    requires forall i | 0 <= i < |items| :: Fixed(items[i].value, Unordered(items[i].key))
    ensures Fixed(Map(items), unordered)
  {
    CanonOfMap(items, unordered);
    var parts := CanonItems(items);
    assert AllSome(parts);
    assert Zip(Keys(items), Given(parts)) == items;
    ArrangeSorted(Keys(items), items);
  }

  lemma {:induction false} FixedList(values: seq<Value>, unordered: bool)
    requires unordered ==> Sorted(Texts(values))
    requires forall i | 0 <= i < |values| :: Fixed(values[i], false)
    ensures Fixed(List(values), unordered)
  {
    CanonOfList(values, unordered);
    var parts := CanonValues(values);
    assert AllSome(parts);
    assert Given(parts) == values;
    if unordered {
      ArrangeSorted(Texts(values), values);
    }
  }

  lemma {:induction false} SortedTexts(values: seq<Value>)
    ensures Sorted(Texts(SortedByText(values)))
  {
    var texts := Texts(values);
    OrderSorts(texts, |texts|);
    assert Texts(SortedByText(values)) == Arrange(texts, Order(texts));
  }

  lemma {:induction false} ArrangedKeys(keys: seq<string>, values: seq<Value>)
    requires |keys| == |values| && Distinct(keys)
    ensures var arranged := Arrange(Zip(keys, values), Order(keys));
            Keys(arranged) == Arrange(keys, Order(keys)) && Sorted(Keys(arranged)) && Distinct(Keys(arranged))
  {
    OrderSorts(keys, |keys|);
    ArrangeDistinct(keys);
    assert Keys(Arrange(Zip(keys, values), Order(keys))) == Arrange(keys, Order(keys));
  }

  /** Canonicalizing the canonical form changes nothing. */
  ghost predicate Settles(v: Value, unordered: bool) {
    Canon(v, unordered).Some? ==> Fixed(Canon(v, unordered).value, unordered)
  }

  lemma {:induction false} BytesSettle(text: string, unordered: bool)
    ensures Settles(Bytes(text), unordered)
  {
    assert Fixed(Leaf(text), Unordered(BYTES_KEY));
    FixedMap([Item(BYTES_KEY, Leaf(text))], unordered);
  }

  lemma {:induction false} MapSettles(items: seq<Item>, unordered: bool)
    requires forall i | 0 <= i < |items| :: Settles(items[i].value, Unordered(items[i].key))
    ensures Settles(Map(items), unordered)
  {
    CanonOfMap(items, unordered);
    var keys, parts := Keys(items), CanonItems(items);
    if Distinct(keys) && AllSome(parts) {
      var arranged := Arrange(Zip(keys, Given(parts)), Order(keys));
      ArrangedKeys(keys, Given(parts));
      forall i | 0 <= i < |arranged| ensures Fixed(arranged[i].value, Unordered(arranged[i].key)) {
        var j := Order(keys)[i];
        assert Settles(items[j].value, Unordered(items[j].key)) && parts[j].Some?;
      }
      FixedMap(arranged, unordered);
    }
  }

  lemma {:induction false} ListSettles(values: seq<Value>, sort: bool, unordered: bool)
    requires (unordered ==> sort) && forall i | 0 <= i < |values| :: Settles(values[i], false)
    ensures var c := CanonList(CanonValues(values), sort); c.Some? ==> Fixed(c.value, unordered)
  {
    var parts := CanonValues(values);
    if AllSome(parts) {
      var given := Given(parts);
      forall i | 0 <= i < |given| ensures Fixed(given[i], false) {
        assert Settles(values[i], false) && parts[i].Some?;
      }
      if sort {
        SortedTexts(given);
        FixedList(SortedByText(given), unordered);
      } else {
        FixedList(given, unordered);
      }
    }
  }

  /** Canonicalization is idempotent, for every value. */
  lemma {:induction false} CanonIdempotent(v: Value, unordered: bool)
    ensures Settles(v, unordered)
    decreases v
  {
    match v
    case Leaf(_) =>
    case Typed(_) =>
    case Unsupported =>
    case Bytes(text) => BytesSettle(text, unordered);
    case Map(items) =>
      forall i | 0 <= i < |items| { CanonIdempotent(items[i].value, Unordered(items[i].key)); }
      MapSettles(items, unordered);
    case List(values) =>
      forall i | 0 <= i < |values| { CanonIdempotent(values[i], false); }
      ListSettles(values, unordered, unordered);
      CanonOfList(values, unordered);
    case Set(values) =>
      forall i | 0 <= i < |values| { CanonIdempotent(values[i], false); }
      ListSettles(values, true, unordered);
      CanonOfList(values, unordered);
  }

  // ---- The streamed form -------------------------------------------------------------------------

  function MaxOf(hs: seq<nat>): (r: nat)
    ensures forall i | 0 <= i < |hs| :: hs[i] <= r
    ensures r == 0 || r in hs
  {
    if hs == [] then 0 else
      var n := |hs| - 1;
      var front := MaxOf(hs[..n]);
      if hs[n] > front then hs[n] else front
  }

  function Height(v: Value): nat {
    match v
    case Bytes(_) => 1
    case Map(items) => 1 + MaxOf(seq(|items|, i requires 0 <= i < |items| => Height(items[i].value)))
    case List(values) => 1 + MaxOf(seq(|values|, i requires 0 <= i < |values| => Height(values[i])))
    case Set(values) => 1 + MaxOf(seq(|values|, i requires 0 <= i < |values| => Height(values[i])))
    case _ => 0
  }

  lemma {:induction false} MapHeight(items: seq<Item>, bound: nat)
    ensures forall i | 0 <= i < |items| :: Height(items[i].value) < Height(Map(items))
    ensures (forall i | 0 <= i < |items| :: Height(items[i].value) <= bound) ==> Height(Map(items)) <= bound + 1
  {
    var hs := seq(|items|, i requires 0 <= i < |items| => Height(items[i].value));
    assert forall i | 0 <= i < |items| :: hs[i] == Height(items[i].value);
  }

  lemma {:induction false} ListHeight(values: seq<Value>, bound: nat)
    ensures Height(Set(values)) == Height(List(values))
    ensures forall i | 0 <= i < |values| :: Height(values[i]) < Height(List(values))
    ensures (forall i | 0 <= i < |values| :: Height(values[i]) <= bound) ==> Height(List(values)) <= bound + 1
  {
    var hs := seq(|values|, i requires 0 <= i < |values| => Height(values[i]));
    assert forall i | 0 <= i < |values| :: hs[i] == Height(values[i]);
  }

  /** The canonical form is no deeper than the value. */
  ghost predicate NoDeeper(v: Value, unordered: bool) {
    Canon(v, unordered).Some? ==> Height(Canon(v, unordered).value) <= Height(v)
  }

  lemma {:induction false} CanonMapHeight(items: seq<Item>, unordered: bool)
    requires forall i | 0 <= i < |items| :: NoDeeper(items[i].value, Unordered(items[i].key))
    ensures NoDeeper(Map(items), unordered)
  {
    CanonOfMap(items, unordered);
    var keys, parts := Keys(items), CanonItems(items);
    MapHeight(items, 0);
    if Distinct(keys) && AllSome(parts) {
      var arranged := Arrange(Zip(keys, Given(parts)), Order(keys));
      forall i | 0 <= i < |arranged| ensures Height(arranged[i].value) <= Height(Map(items)) - 1 {
        var j := Order(keys)[i];
        assert NoDeeper(items[j].value, Unordered(items[j].key)) && parts[j].Some?;
      }
      MapHeight(arranged, Height(Map(items)) - 1);
    }
  }

  lemma {:induction false} CanonListHeight(values: seq<Value>, sort: bool)
    requires forall i | 0 <= i < |values| :: NoDeeper(values[i], false)
    ensures AllSome(CanonValues(values)) ==>
              var given := Given(CanonValues(values));
              && (forall i | 0 <= i < |given| :: Height(given[i]) < Height(List(values)))
              && Height(CanonList(CanonValues(values), sort).value) <= Height(List(values))
  {
    var parts := CanonValues(values);
    ListHeight(values, 0);
    if AllSome(parts) {
      var given := Given(parts);
      forall i | 0 <= i < |given| ensures Height(given[i]) <= Height(List(values)) - 1 {
        assert NoDeeper(values[i], false) && parts[i].Some?;
      }
      ListHeight(if sort then SortedByText(given) else given, Height(List(values)) - 1);
    }
  }

  lemma {:induction false} CanonHeight(v: Value, unordered: bool)
    ensures NoDeeper(v, unordered)
    decreases v
  {
    match v
    case Leaf(_) =>
    case Typed(_) =>
    case Unsupported =>
    case Bytes(text) =>
      MapHeight([Item(BYTES_KEY, Leaf(text))], 0);
    case Map(items) =>
      forall i | 0 <= i < |items| { CanonHeight(items[i].value, Unordered(items[i].key)); }
      CanonMapHeight(items, unordered);
    case List(values) =>
      forall i | 0 <= i < |values| { CanonHeight(values[i], false); }
      CanonListHeight(values, unordered);
      CanonOfList(values, unordered);
    case Set(values) =>
      forall i | 0 <= i < |values| { CanonHeight(values[i], false); }
      CanonListHeight(values, true);
      CanonOfList(values, unordered);
      ListHeight(values, 0);
  }

  lemma {:induction false} SortedHeight(values: seq<Value>)
    requires AllSome(CanonValues(values))
    ensures var sorted := SortedByText(Given(CanonValues(values)));
            forall i | 0 <= i < |sorted| :: Height(sorted[i]) < Height(List(values)) == Height(Set(values))
  {
    forall i | 0 <= i < |values| { CanonHeight(values[i], false); }
    CanonListHeight(values, true);
    ListHeight(values, 0);
  }

  function StreamedMap(keys: seq<string>, parts: seq<Option<string>>): Option<string>
    requires |keys| == |parts|
  {
    if !AllSome(parts) then None else Some("{" + Join(Fields(keys, Given(parts))) + "}")
  }

  function StreamedList(parts: seq<Option<string>>): Option<string> {
    if !AllSome(parts) then None else Some("[" + Join(Given(parts)) + "]")
  }

  /**
   `iter_bytes`, joined. Maps are sorted before their values are visited; an unordered list is
   canonicalized and sorted, and its canonical items are streamed again.
   */
  function Stream(v: Value, unordered: bool): Option<string>
    decreases Height(v)
  {
    match v
    case Map(items) =>
      if !Distinct(Keys(items)) then None else
        var sorted := Arrange(items, Order(Keys(items)));
        MapHeight(items, 0);
        StreamedMap(Keys(sorted), seq(|sorted|, i requires 0 <= i < |sorted| => Stream(sorted[i].value, Unordered(sorted[i].key))))
    case List(values) =>
      if unordered then
        if !AllSome(CanonValues(values)) then None else
          var sorted := SortedByText(Given(CanonValues(values)));
          SortedHeight(values);
          StreamedList(seq(|sorted|, i requires 0 <= i < |sorted| => Stream(sorted[i], false)))
      else
        ListHeight(values, 0);
        StreamedList(seq(|values|, i requires 0 <= i < |values| => Stream(values[i], false)))
    case Set(values) =>
      if !AllSome(CanonValues(values)) then None else
        var sorted := SortedByText(Given(CanonValues(values)));
        SortedHeight(values);
        StreamedList(seq(|sorted|, i requires 0 <= i < |sorted| => Stream(sorted[i], false)))
    case _ =>
      var c := Canon(v, unordered);
      if c.None? then None else Some(Dump(c.value))
  }

  function Text(c: Option<Value>): Option<string> {
    if c.None? then None else Some(Dump(c.value))
  }

  function StreamItems(items: seq<Item>): (r: seq<Option<string>>)
    ensures |r| == |items| && forall i | 0 <= i < |r| :: r[i] == Stream(items[i].value, Unordered(items[i].key))
  {
    seq(|items|, i requires 0 <= i < |items| => Stream(items[i].value, Unordered(items[i].key)))
  }

  function StreamValues(values: seq<Value>): (r: seq<Option<string>>)
    ensures |r| == |values| && forall i | 0 <= i < |r| :: r[i] == Stream(values[i], false)
  {
    seq(|values|, i requires 0 <= i < |values| => Stream(values[i], false))
  }

  function ItemTexts(items: seq<Item>): (r: seq<string>)
    ensures |r| == |items| && forall i | 0 <= i < |r| :: r[i] == Dump(items[i].value)
  {
    seq(|items|, i requires 0 <= i < |items| => Dump(items[i].value))
  }

  lemma {:induction false} DumpOfMap(items: seq<Item>)
    ensures Dump(Map(items)) == "{" + Join(Arrange(Fields(Keys(items), ItemTexts(items)), Order(Keys(items)))) + "}"
  {
    assert ItemTexts(items) == seq(|items|, i requires 0 <= i < |items| => Dump(items[i].value));
  }

  lemma {:induction false} DumpOfSortedMap(items: seq<Item>)
    requires Sorted(Keys(items))
    ensures Dump(Map(items)) == "{" + Join(Fields(Keys(items), ItemTexts(items))) + "}"
  {
    DumpOfMap(items);
    ArrangeSorted(Keys(items), Fields(Keys(items), ItemTexts(items)));
  }

  lemma {:induction false} DumpOfList(values: seq<Value>)
    ensures Dump(List(values)) == "[" + Join(Texts(values)) + "]"
  {
    assert Texts(values) == seq(|values|, i requires 0 <= i < |values| => Dump(values[i]));
  }

  ghost predicate Streams(v: Value, unordered: bool) {
    Stream(v, unordered) == Text(Canon(v, unordered))
  }

  /** The parts a map streams, in sorted order, are the texts of its canonical values. */
  lemma {:induction false} StreamedParts(items: seq<Item>)
    requires forall i | 0 <= i < |items| :: Streams(items[i].value, Unordered(items[i].key))
    ensures var order := Order(Keys(items));
            forall i | 0 <= i < |order| :: StreamItems(Arrange(items, order))[i] == Text(CanonItems(items)[order[i]])
  {
    var order := Order(Keys(items));
    forall i | 0 <= i < |order| ensures StreamItems(Arrange(items, order))[i] == Text(CanonItems(items)[order[i]]) {
      assert Streams(items[order[i]].value, Unordered(items[order[i]].key));
    }
  }

  lemma {:induction false} MapText(items: seq<Item>, texts: seq<Option<string>>)
    requires Distinct(Keys(items)) && AllSome(CanonItems(items)) && |texts| == |items|
    requires forall i | 0 <= i < |items| :: texts[i] == Text(CanonItems(items)[Order(Keys(items))[i]])
    ensures StreamedMap(Arrange(Keys(items), Order(Keys(items))), texts) == Text(CanonMap(Keys(items), CanonItems(items)))
  {
    var keys, given := Keys(items), Given(CanonItems(items));
    var arranged := Arrange(Zip(keys, given), Order(keys));
    ArrangedKeys(keys, given);
    DumpOfSortedMap(arranged);
    assert AllSome(texts);
    assert Given(texts) == ItemTexts(arranged);
  }

  lemma {:induction false} MapStreams(items: seq<Item>, unordered: bool)
    requires forall i | 0 <= i < |items| :: Streams(items[i].value, Unordered(items[i].key))
    ensures Streams(Map(items), unordered)
  {
    CanonOfMap(items, unordered);
    var keys, parts := Keys(items), CanonItems(items);
    if Distinct(keys) {
      var order := Order(keys);
      var sorted := Arrange(items, order);
      var texts := StreamItems(sorted);
      StreamedParts(items);
      assert texts == seq(|sorted|, i requires 0 <= i < |sorted| => Stream(sorted[i].value, Unordered(sorted[i].key)));
      assert Keys(sorted) == Arrange(keys, order);
      if AllSome(parts) {
        MapText(items, texts);
      } else {
        var j :| 0 <= j < |parts| && parts[j].None?;
        assert j in order;
        var i :| 0 <= i < |order| && order[i] == j;
        assert texts[i].None?;
      }
    }
  }

  lemma {:induction false} ListStreams(values: seq<Value>)
    requires forall i | 0 <= i < |values| :: Streams(values[i], false)
    ensures Streams(List(values), false)
  {
    CanonOfList(values, false);
    var parts, texts := CanonValues(values), StreamValues(values);
    assert texts == seq(|values|, i requires 0 <= i < |values| => Stream(values[i], false));
    assert Stream(List(values), false) == StreamedList(texts);
    forall i | 0 <= i < |values| ensures texts[i] == Text(parts[i]) {
      assert Streams(values[i], false);
    }
    if AllSome(parts) {
      DumpOfList(Given(parts));
      assert Given(texts) == Texts(Given(parts));
    } else {
      var j :| 0 <= j < |parts| && parts[j].None?;
      assert texts[j].None?;
    }
  }

  lemma {:induction false} SortedStreams(values: seq<Value>)
    requires AllSome(CanonValues(values))
    requires var sorted := SortedByText(Given(CanonValues(values)));
             forall i | 0 <= i < |sorted| :: Streams(sorted[i], false)
    ensures Streams(List(values), true) && Streams(Set(values), false) && Streams(Set(values), true)
  {
    CanonOfList(values, true);
    CanonOfList(values, false);
    var given := Given(CanonValues(values));
    var sorted := SortedByText(given);
    var texts := StreamValues(sorted);
    assert texts == seq(|sorted|, i requires 0 <= i < |sorted| => Stream(sorted[i], false));
    forall i | 0 <= i < |sorted| ensures texts[i] == Some(Dump(sorted[i])) {
      var j := Order(Texts(given))[i];
      CanonIdempotent(values[j], false);
      assert CanonValues(values)[j].Some?;
      assert Streams(sorted[i], false);
    }
    DumpOfList(sorted);
    assert AllSome(texts) && Given(texts) == Texts(sorted);
  }

  /** The streamed bytes are the dumped canonical form, for every value, rejected values included. */
  lemma {:induction false} StreamIsCanonical(v: Value, unordered: bool)
    ensures Streams(v, unordered)
    decreases Height(v)
  {
    match v
    case Map(items) =>
      MapHeight(items, 0);
      forall i | 0 <= i < |items| { StreamIsCanonical(items[i].value, Unordered(items[i].key)); }
      MapStreams(items, unordered);
    case List(values) =>
      if unordered {
        SortedOrRejected(v, values, unordered);
      } else {
        ListHeight(values, 0);
        forall i | 0 <= i < |values| { StreamIsCanonical(values[i], false); }
        ListStreams(values);
      }
    case Set(values) => SortedOrRejected(v, values, unordered);
    case _ =>
  }

  lemma {:induction false} SortedOrRejected(v: Value, values: seq<Value>, unordered: bool)
    requires (v == List(values) && unordered) || v == Set(values)
    ensures Streams(v, unordered)
    decreases Height(v), 0
  {
    CanonOfList(values, unordered);
    if AllSome(CanonValues(values)) {
      var sorted := SortedByText(Given(CanonValues(values)));
      SortedHeight(values);
      forall i | 0 <= i < |sorted| { StreamIsCanonical(sorted[i], false); }
      SortedStreams(values);
    }
  }

  // ---- The fast path -----------------------------------------------------------------------------

  /** `_already_canonical_json`: plain JSON whose unordered lists are already sorted. */
  predicate Already(v: Value, unordered: bool)
    decreases v
  {
    match v
    case Leaf(_) => true
    case Map(items) =>
      Distinct(Keys(items)) && forall i | 0 <= i < |items| :: Already(items[i].value, Unordered(items[i].key))
    case List(values) =>
      && (forall i | 0 <= i < |values| :: Already(values[i], false))
      && (unordered ==> forall i | 0 <= i < |values| - 1 :: Le(Texts(values)[i], Texts(values)[i + 1]))
    case _ => false
  }

  /** Dumping the value itself gives the text of its canonical form. */
  ghost predicate DumpsAlike(v: Value, unordered: bool) {
    Canon(v, unordered).Some? && Dump(v) == Dump(Canon(v, unordered).value)
  }

  lemma {:induction false} MapDumpsAlike(items: seq<Item>, unordered: bool)
    requires Distinct(Keys(items))
    requires forall i | 0 <= i < |items| :: DumpsAlike(items[i].value, Unordered(items[i].key))
    ensures DumpsAlike(Map(items), unordered)
  {
    CanonOfMap(items, unordered);
    var keys, parts, order := Keys(items), CanonItems(items), Order(Keys(items));
    assert AllSome(parts);
    var arranged := Arrange(Zip(keys, Given(parts)), order);
    ArrangedKeys(keys, Given(parts));
    DumpOfSortedMap(arranged);
    DumpOfMap(items);
    forall i | 0 <= i < |order| ensures ItemTexts(arranged)[i] == ItemTexts(items)[order[i]] {
      assert DumpsAlike(items[order[i]].value, Unordered(items[order[i]].key));
    }
    assert Fields(Keys(arranged), ItemTexts(arranged)) == Arrange(Fields(keys, ItemTexts(items)), order);
  }

  lemma {:induction false} ListDumpsAlike(values: seq<Value>, unordered: bool)
    requires forall i | 0 <= i < |values| :: DumpsAlike(values[i], false)
    requires unordered ==> forall i | 0 <= i < |values| - 1 :: Le(Texts(values)[i], Texts(values)[i + 1])
    ensures DumpsAlike(List(values), unordered)
  {
    CanonOfList(values, unordered);
    var parts := CanonValues(values);
    assert AllSome(parts);
    var given := Given(parts);
    assert Texts(values) == Texts(given) by {
      forall i | 0 <= i < |values| ensures Texts(values)[i] == Texts(given)[i] {
        assert DumpsAlike(values[i], false);
      }
    }
    if unordered {
      AdjacentSorted(Texts(given));
      ArrangeSorted(Texts(given), given);
    }
    DumpOfList(values);
    DumpOfList(given);
  }

  lemma {:induction false} FastPathAgrees(v: Value, unordered: bool)
    requires Already(v, unordered)
    ensures DumpsAlike(v, unordered)
    decreases v
  {
    match v
    case Leaf(_) =>
    case Map(items) =>
      forall i | 0 <= i < |items| ensures DumpsAlike(items[i].value, Unordered(items[i].key)) {
        FastPathAgrees(items[i].value, Unordered(items[i].key));
      }
      MapDumpsAlike(items, unordered);
    case List(values) =>
      forall i | 0 <= i < |values| ensures DumpsAlike(values[i], false) {
        FastPathAgrees(values[i], false);
      }
      ListDumpsAlike(values, unordered);
  }

  /** `dumps`: the fast path when the value is already canonical. */
  function Dumps(v: Value): Option<string> {
    if Already(v, false) then Some(Dump(v)) else Text(Canon(v, false))
  }

  /** Fast path, canonical path and stream give the same bytes, or all reject. */
  lemma {:induction false} ThreeFormsAgree(v: Value)
    ensures Dumps(v) == Text(Canon(v, false)) == Stream(v, false)
  {
    StreamIsCanonical(v, false);
    if Already(v, false) {
      FastPathAgrees(v, false);
    }
  }
}
