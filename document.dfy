/**
 * Document assembly: GetClassFieldData writes one entry per configuration
 * key whose bundle value is present, and GenerateJSON wraps the entries of
 * the main class and of each nested class in the top-level object after
 * the fixed Carrier and Device entries.
 *
 * The reflected key constants of a class are given as a sequence of
 * Field records and the carrier configuration bundle as a map.
 */
module Document {
  import opened JsonValue
  import opened Quoting
  import opened JsonFormat
  import opened DeviceName
  import opened Facts

  datatype Option<T> = None | Some(value: T)

  /**
   * One public field of a configuration class: its name (the JSON key),
   * whether its declared type accepts a String, and the text of its value
   * (the bundle key), or None when reading it fails or gives null.
   */
  datatype Field = Field(name: string, stringTyped: bool, key: Option<string>)

  /** The carrier configuration bundle: absent keys read as null. */
  type Bundle = map<string, Value>

  /**
   * The value a field contributes: only a String-typed field whose
   * constant can be read, and whose key the bundle maps to a non-null
   * value, contributes one.
   */
  function Lookup(f: Field, bundle: Bundle): (r: Option<Value>)
    ensures r.Some? <==>
              f.stringTyped && f.key.Some? && f.key.value in bundle && bundle[f.key.value] != Null
    ensures r.Some? ==> r.value == bundle[f.key.value] && r.value != Null
  {
    if !f.stringTyped then None
    else match f.key
      case None => None
      case Some(k) => if k in bundle && bundle[k] != Null then Some(bundle[k]) else None
  }

  /** The (name, value) pairs written for `fields`, in field order. */
  function Emitted(fields: seq<Field>, bundle: Bundle): (r: seq<(string, Value)>)
    ensures |r| <= |fields|
    ensures forall j :: 0 <= j < |r| ==> r[j].1 != Null
  {
    if fields == [] then []
    else
      var f := fields[|fields| - 1];
      var init := Emitted(fields[..|fields| - 1], bundle);
      match Lookup(f, bundle)
      case None => init
      case Some(v) => init + [(f.name, v)]
  }

  /** One entry: comma, newline, indent, the quoted field name, `: ` and the formatted value. */
  function Entry(name: string, v: Value, indent: string, itemIndent: string): string {
    ",\n" + indent + QuoteString(name) + ": " + MakeJsonString(v, indent, itemIndent)
  }

  /** The entries for the given pairs, one after the other. */
  function EntryText(pairs: seq<(string, Value)>, indent: string, itemIndent: string): string {
    if pairs == [] then ""
    else Entry(pairs[0].0, pairs[0].1, indent, itemIndent) + EntryText(pairs[1..], indent, itemIndent)
  }

  /** What GetClassFieldData returns for a class whose fields are `fields`. */
  function FieldData(fields: seq<Field>, bundle: Bundle, indent: string, itemIndent: string): string {
    EntryText(Emitted(fields, bundle), indent, itemIndent)
  }

  /**
   * Exactly the contributing fields are written: a pair is emitted if and
   * only if some field of that name contributes that value.
   */
  lemma {:induction false} EmittedExactly(fields: seq<Field>, bundle: Bundle, name: string, v: Value)
    ensures (name, v) in Emitted(fields, bundle)
            <==> exists f :: f in fields && f.name == name && Lookup(f, bundle) == Some(v)
  {
    if fields != [] {
      var init, f := fields[..|fields| - 1], fields[|fields| - 1];
      EmittedExactly(init, bundle, name, v);
      assert fields == init + [f];
      if (name, v) in Emitted(fields, bundle) && (name, v) !in Emitted(init, bundle) {
        assert f.name == name && Lookup(f, bundle) == Some(v);
      }
    }
  }

  /** Emitting respects field order: the pairs of a concatenation are concatenated. */
  lemma {:induction false} EmittedAppend(a: seq<Field>, b: seq<Field>, bundle: Bundle)
    ensures Emitted(a + b, bundle) == Emitted(a, bundle) + Emitted(b, bundle)
  {
    if b == [] {
      assert a + b == a;
    } else {
      var init := b[..|b| - 1];
      assert (a + b)[..|a + b| - 1] == a + init;
      EmittedAppend(a, init, bundle);
    }
  }

  lemma {:induction false} EntryTextAppend(p: seq<(string, Value)>, q: seq<(string, Value)>, indent: string, itemIndent: string)
    ensures EntryText(p + q, indent, itemIndent) == EntryText(p, indent, itemIndent) + EntryText(q, indent, itemIndent)
  {
    if p == [] {
      assert p + q == q;
    } else {
      assert (p + q)[0] == p[0];
      assert (p + q)[1..] == p[1..] + q;
      EntryTextAppend(p[1..], q, indent, itemIndent);
    }
  }

  /** The field data of two field lists written one after the other is that of their concatenation. */
  lemma FieldDataAppend(a: seq<Field>, b: seq<Field>, bundle: Bundle, indent: string, itemIndent: string)
    ensures FieldData(a + b, bundle, indent, itemIndent)
            == FieldData(a, bundle, indent, itemIndent) + FieldData(b, bundle, indent, itemIndent)
  {
    EmittedAppend(a, b, bundle);
    EntryTextAppend(Emitted(a, bundle), Emitted(b, bundle), indent, itemIndent);
  }

  /** What one more field adds to the field data. */
  lemma FieldDataSnoc(fields: seq<Field>, i: nat, bundle: Bundle, indent: string, itemIndent: string)
    requires i < |fields|
    ensures FieldData(fields[..i + 1], bundle, indent, itemIndent)
            == FieldData(fields[..i], bundle, indent, itemIndent)
               + match Lookup(fields[i], bundle)
                 case None => ""
                 case Some(v) => Entry(fields[i].name, v, indent, itemIndent)
  {
    assert fields[..i + 1][..i] == fields[..i];
    var before := Emitted(fields[..i], bundle);
    match Lookup(fields[i], bundle)
    case None =>
    case Some(v) =>
      var pair := (fields[i].name, v);
      EntryTextAppend(before, [pair], indent, itemIndent);
      assert [pair][1..] == [];
  }

  /** Fields none of which contributes a value write nothing. */
  lemma {:induction false} NoValuesNoData(fields: seq<Field>, bundle: Bundle, indent: string, itemIndent: string)
    requires forall i :: 0 <= i < |fields| ==> Lookup(fields[i], bundle).None?
    ensures FieldData(fields, bundle, indent, itemIndent) == ""
  {
    if fields != [] {
      NoValuesNoData(fields[..|fields| - 1], bundle, indent, itemIndent);
    }
  }

  /** A single field whose bundle value is present is written as exactly one Entry. */
  lemma SingleFieldEntry(name: string, key: string, bundle: Bundle, indent: string, itemIndent: string)
    requires key in bundle && bundle[key] != Null
    ensures FieldData([Field(name, true, Some(key))], bundle, indent, itemIndent)
            == Entry(name, bundle[key], indent, itemIndent)
  {
    var fields := [Field(name, true, Some(key))];
    var pairs := [(name, bundle[key])];
    assert fields[..0] == [];
    assert Emitted(fields, bundle) == pairs;
    assert pairs[1..] == [];
    assert EntryText(pairs[1..], indent, itemIndent) == "";
    var e := Entry(name, bundle[key], indent, itemIndent);
    assert EntryText(pairs, indent, itemIndent) == e + "";
  }

  /** A present empty-string value is written as the field name and `""`, not left out. */
  lemma EmptyStringEntry(name: string, key: string, bundle: Bundle, indent: string, itemIndent: string)
    requires key in bundle && bundle[key] == Str("")
    ensures FieldData([Field(name, true, Some(key))], bundle, indent, itemIndent)
            == ",\n" + indent + QuoteString(name) + ": \"\""
  {
    SingleFieldEntry(name, key, bundle, indent, itemIndent);
    assert QuoteString("") == "\"\"";
  }

  /**
   * GetClassFieldData: walks the fields in order; a field that is not
   * String-typed, whose constant cannot be read, or whose bundle value is
   * absent or null is skipped, every other one appended as an Entry.
   */
  method GetClassFieldData(fields: seq<Field>, bundle: Bundle, indent: string, itemIndent: string)
    returns (json: string)
    ensures json == FieldData(fields, bundle, indent, itemIndent)
  {
    json := "";
    var prefix := ",\n" + indent;
    for i := 0 to |fields|
      invariant json == FieldData(fields[..i], bundle, indent, itemIndent)
    {
      FieldDataSnoc(fields, i, bundle, indent, itemIndent);
      var field := fields[i];
      var name := field.name;
      if field.stringTyped {
        match field.key {
          case None =>
          case Some(fieldValue) =>
            if fieldValue in bundle && bundle[fieldValue] != Null {
              var value := bundle[fieldValue];
              var element := prefix + QuoteString(name) + ": " + MakeJsonString(value, indent, itemIndent);
              json := json + element;
            }
        }
      }
    }
    assert fields[..|fields|] == fields;
  }

  /** The keys of the two fixed entries that open the document. */
  const CarrierKey: string := "Carrier"
  const DeviceKey: string := "Device"

  /** The two fixed entries that open the document. */
  function Header(indent: string, carrierName: string, deviceName: string): string {
    "{\n" + indent + QuoteString(CarrierKey) + ": " + QuoteString(carrierName)
    + ",\n" + indent + QuoteString(DeviceKey) + ": " + QuoteString(deviceName)
  }

  /** All fields of the given classes, one class after the other. */
  function Flatten(classes: seq<seq<Field>>): seq<Field> {
    if classes == [] then [] else Flatten(classes[..|classes| - 1]) + classes[|classes| - 1]
  }

  /** The field data of each of the given classes, one class after the other. */
  function ClassesData(classes: seq<seq<Field>>, bundle: Bundle, indent: string): string {
    if classes == [] then ""
    else ClassesData(classes[..|classes| - 1], bundle, indent)
         + FieldData(classes[|classes| - 1], bundle, indent, indent)
  }

  /**
   * The whole document: the header, the entries of the main class's
   * fields and then of each nested class's fields, and the closing brace.
   */
  function Json(indent: string, carrierName: string, manufacturer: string, model: string,
                mainFields: seq<Field>, nested: seq<seq<Field>>, bundle: Bundle): string
  {
    Header(indent, carrierName, GetDeviceName(manufacturer, model))
    + FieldData(mainFields, bundle, indent, indent) + ClassesData(nested, bundle, indent) + "\n}"
  }

  lemma ClassesDataSnoc(nested: seq<seq<Field>>, i: nat, bundle: Bundle, indent: string)
    requires i < |nested|
    ensures ClassesData(nested[..i + 1], bundle, indent)
            == ClassesData(nested[..i], bundle, indent) + FieldData(nested[i], bundle, indent, indent)
  {
    assert nested[..i + 1][..i] == nested[..i];
  }

  /**
   * The entries of a document are those of all its classes' fields taken
   * as one list: the main class's fields, then each nested class's, in order.
   */
  lemma {:induction false} DocumentFields(mainFields: seq<Field>, nested: seq<seq<Field>>, bundle: Bundle, indent: string)
    ensures FieldData(mainFields, bundle, indent, indent) + ClassesData(nested, bundle, indent)
            == FieldData(mainFields + Flatten(nested), bundle, indent, indent)
  {
    if nested == [] {
      assert mainFields + Flatten(nested) == mainFields;
    } else {
      var init, last := nested[..|nested| - 1], nested[|nested| - 1];
      var front := FieldData(mainFields, bundle, indent, indent);
      calc {
        front + ClassesData(nested, bundle, indent);
        front + (ClassesData(init, bundle, indent) + FieldData(last, bundle, indent, indent));
        { Associative(front, ClassesData(init, bundle, indent), FieldData(last, bundle, indent, indent)); }
        (front + ClassesData(init, bundle, indent)) + FieldData(last, bundle, indent, indent);
        { DocumentFields(mainFields, init, bundle, indent); }
        FieldData(mainFields + Flatten(init), bundle, indent, indent) + FieldData(last, bundle, indent, indent);
        { FieldDataAppend(mainFields + Flatten(init), last, bundle, indent, indent); }
        FieldData((mainFields + Flatten(init)) + last, bundle, indent, indent);
        { Associative(mainFields, Flatten(init), last); }
        FieldData(mainFields + Flatten(nested), bundle, indent, indent);
      }
    }
  }

  /**
   * The loop of GenerateJSON over the nested classes: the field data of
   * each nested class, appended in order.
   */
  method GetNestedClassesData(nested: seq<seq<Field>>, bundle: Bundle, indent: string) returns (json: string)
    ensures json == ClassesData(nested, bundle, indent)
  {
    json := "";
    for i := 0 to |nested|
      invariant json == ClassesData(nested[..i], bundle, indent)
    {
      var data := GetClassFieldData(nested[i], bundle, indent, indent);
      ClassesDataSnoc(nested, i, bundle, indent);
      json := json + data;
    }
    assert nested[..|nested|] == nested;
  }

  /**
   * GenerateJSON: the header, then GetClassFieldData of the main class and
   * of each nested class in order, then the closing brace. The indent
   * resource serves both as the entry indent and as the item indent.
   */
  method GenerateJSON(indent: string, carrierName: string, manufacturer: string, model: string,
                      mainFields: seq<Field>, nested: seq<seq<Field>>, bundle: Bundle)
    returns (json: string)
    ensures json == Json(indent, carrierName, manufacturer, model, mainFields, nested, bundle)
  {
    json := "{\n";
    json := json + indent;
    json := json + QuoteString(CarrierKey);
    json := json + ": ";
    json := json + QuoteString(carrierName);
    json := json + ",\n";
    json := json + indent;
    json := json + QuoteString(DeviceKey);
    json := json + ": ";
    json := json + QuoteString(GetDeviceName(manufacturer, model));
    var data := GetClassFieldData(mainFields, bundle, indent, indent);
    json := json + data;
    var nestedData := GetNestedClassesData(nested, bundle, indent);
    json := json + nestedData;
    json := json + "\n}";
  }

  /** The fixed keys hold no `"`. */
  lemma FixedKeysPlain()
    ensures QuoteCount(CarrierKey) == 0 && QuoteCount(DeviceKey) == 0
  {
  }

  /** The two fixed keys need no escaping: each is written between plain quotes. */
  lemma FixedKeys()
    ensures QuoteString(CarrierKey) == "\"Carrier\""
    ensures QuoteString(DeviceKey) == "\"Device\""
  {
    FixedKeysPlain();
    assert "\"" + CarrierKey + "\"" == "\"Carrier\"";
    assert "\"" + DeviceKey + "\"" == "\"Device\"";
  }

  lemma HeaderText(indent: string, carrierName: string, deviceName: string)
    ensures Header(indent, carrierName, deviceName)
            == "{\n" + indent + "\"Carrier\"" + ": " + QuoteString(carrierName)
               + ",\n" + indent + "\"Device\"" + ": " + QuoteString(deviceName)
  {
    FixedKeys();
  }

  /** Every document opens with the Carrier entry, then the Device entry naming the device. */
  lemma DocumentOpens(indent: string, carrierName: string, manufacturer: string, model: string,
                      mainFields: seq<Field>, nested: seq<seq<Field>>, bundle: Bundle)
    ensures var doc := Json(indent, carrierName, manufacturer, model, mainFields, nested, bundle);
            var opening := "{\n" + indent + "\"Carrier\"" + ": " + QuoteString(carrierName)
                           + ",\n" + indent + "\"Device\"" + ": " + QuoteString(GetDeviceName(manufacturer, model));
            StartsWith(doc, opening)
  {
    var header := Header(indent, carrierName, GetDeviceName(manufacturer, model));
    var data := FieldData(mainFields, bundle, indent, indent);
    var rest := ClassesData(nested, bundle, indent) + "\n}";
    HeaderText(indent, carrierName, GetDeviceName(manufacturer, model));
    Associative(header + data, ClassesData(nested, bundle, indent), "\n}");
    Associative(header, data, rest);
    StartsWithAppend(header, data + rest);
  }

  /** Every document closes with a newline and `}`. */
  lemma DocumentCloses(indent: string, carrierName: string, manufacturer: string, model: string,
                       mainFields: seq<Field>, nested: seq<seq<Field>>, bundle: Bundle)
    ensures EndsWith(Json(indent, carrierName, manufacturer, model, mainFields, nested, bundle), "\n}")
  {
    var header := Header(indent, carrierName, GetDeviceName(manufacturer, model));
    var data := FieldData(mainFields, bundle, indent, indent) + ClassesData(nested, bundle, indent);
    EndsWithAppend(header + data, "\n}");
  }
}
