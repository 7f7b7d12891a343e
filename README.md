# GetCarrierConfig: the JSON-like document writer

GetCarrierConfig is an Android app. It reads the carrier configuration
bundle of the phone and shares it as a JSON-like text document. This
project models the part of `MainActivity` that writes that document, and
proves properties of the model:

- the value formatter `MakeJsonString`, with its array builders
  `GetArray` and `GetIntArray`;
- the quoting helper `QuoteString`;
- the device-name helpers `GetDeviceName` and `Capitalize`;
- the document builders `GetClassFieldData` and `GenerateJSON`.

The platform inputs become parameters:

- `Build.MANUFACTURER` and `Build.MODEL` become two strings.
- The carrier name becomes a string.
- The `R.string.indent` resource becomes `itemIndent` in the array
  builders. In `GenerateJSON` the same resource is also the entry indent.
- The reflected public fields of a configuration class become a sequence
  of `Field` records: the field name, whether the field's type accepts a
  `String`, and the field's constant value (`None` when reading it fails
  or gives null).
- The `PersistableBundle` becomes a `map<string, Value>`, where an absent
  key reads as null.
- The run-time `Object` handed to the formatter becomes the tagged
  datatype `JsonValue.Value`.

Modules:

- `JsonValue`: the value datatype and the Java integer ranges.
- `Quoting`: `QuoteString`, its `replaceAll` step `Escape`, and the
  inverse `Unescape`.
- `Decimal`: the decimal text of `int` and `long` values, with a parser
  as its inverse.
- `DeviceName`: `Capitalize` and `GetDeviceName` over an ASCII model of
  character case.
- `JsonFormat`: `MakeJsonString` and the array builders. The builders are
  loops, proved against the specification functions `Entries` and
  `ArrayText`. Those are in turn proved equal to a reference layout
  built with `Join`.
- `Document`: `GetClassFieldData` and `GenerateJSON`. Both are loops,
  proved against the specification functions `FieldData` and `Json`.
- `Facts`: two general facts the string proofs call on, about
  concatenation and multiplication.

For manufacturer "Google" and model "Pixel 7", the lower-cased model does
not start with "google", so the name is "Google Pixel 7"
(`DeviceName.PixelExample`).

## Model

| member | source | states |
|---|---|---|
| Quoting.Escape | app/src/main/java/dev/kins/getcarrierconfig/MainActivity.java:28 | the result is one character longer per `"`; every `"` in it is preceded by a backslash; text without `"` is unchanged |
| Quoting.EscapeChar | app/src/main/java/dev/kins/getcarrierconfig/MainActivity.java:28 | one character: `"` becomes `\"`, any other character is kept as is |
| Quoting.EscapeAppend | app/src/main/java/dev/kins/getcarrierconfig/MainActivity.java:28 | escaping works character by character: escaping a concatenation concatenates the escaped parts |
| Quoting.UnescapeEscape | app/src/main/java/dev/kins/getcarrierconfig/MainActivity.java:28 | no information is lost: unescaping the escaped text gives the original text back |
| Quoting.QuoteString | app/src/main/java/dev/kins/getcarrierconfig/MainActivity.java:25-29 | the result starts and ends with `"`; its length is the input length + 2 + the number of `"`; every `"` between the ends is escaped; text without `"` is just wrapped in quotes |
| Quoting.QuoteStringRoundTrip | app/src/main/java/dev/kins/getcarrierconfig/MainActivity.java:25-29 | unescaping the text between the outer quotes gives the input back |
| Decimal.DecimalText | app/src/main/java/dev/kins/getcarrierconfig/MainActivity.java:67 | decimal text is nonempty; it starts with `-` exactly for negative numbers, everything after the first character is a digit, and there are no leading zeros: zero is exactly `0`, no other number starts with `0`, and a minus sign is never followed by `0` |
| Decimal.DecimalRoundTrip | app/src/main/java/dev/kins/getcarrierconfig/MainActivity.java:108 | parsing the decimal text of a number gives the number back |
| DeviceName.Capitalize | app/src/main/java/dev/kins/getcarrierconfig/MainActivity.java:45-55 | length is kept and "" gives ""; only the first character may change, it changes only in case, and it ends up not lower-case; a string not starting with a lower-case letter comes back unchanged |
| DeviceName.CapitalizeIdempotent | app/src/main/java/dev/kins/getcarrierconfig/MainActivity.java:45-55 | capitalising twice is the same as capitalising once |
| DeviceName.GetDeviceName | app/src/main/java/dev/kins/getcarrierconfig/MainActivity.java:31-43 | the result is the capitalised model alone exactly when the lower-cased model starts with the lower-cased manufacturer; otherwise it is capitalised manufacturer, space, capitalised model; either way it starts with the manufacturer, ignoring case, and ends with the capitalised model |
| DeviceName.EmptyManufacturer | app/src/main/java/dev/kins/getcarrierconfig/MainActivity.java:35-36 | an empty manufacturer gives the capitalised model alone |
| DeviceName.ManufacturerNotRepeated | app/src/main/java/dev/kins/getcarrierconfig/MainActivity.java:35-36 | a model that starts with the manufacturer's exact name is not prefixed with it again |
| DeviceName.PixelExample | app/src/main/java/dev/kins/getcarrierconfig/MainActivity.java:37-40 | "Google", "Pixel 7" gives "Google Pixel 7" |
| DeviceName.SamsungExample | app/src/main/java/dev/kins/getcarrierconfig/MainActivity.java:37-40 | "samsung", "SM-G991U" gives "Samsung SM-G991U" |
| JsonFormat.ArrayText | app/src/main/java/dev/kins/getcarrierconfig/MainActivity.java:57-89 | an array's text starts with `[` and ends with `]`, and is `[]` exactly when there are no elements |
| JsonFormat.EntriesJoin | app/src/main/java/dev/kins/getcarrierconfig/MainActivity.java:63-70 | the text the builders write element by element equals the reference layout: `[`, newline, indent, then the indented elements joined by `,` + newline + indent |
| JsonFormat.ArrayLayout | app/src/main/java/dev/kins/getcarrierconfig/MainActivity.java:57-89 | an empty array is exactly `[]`; otherwise `[\n` + indent, the elements each preceded by itemIndent and joined by `,\n` + indent, then `\n` + indent + `]` |
| JsonFormat.ArrayTextLength | app/src/main/java/dev/kins/getcarrierconfig/MainActivity.java:57-89 | the text's length is the element lengths plus: a newline, indent and itemIndent per element, one comma per element after the first, the brackets, and a final newline and indent when nonempty |
| JsonFormat.MakeJsonString | app/src/main/java/dev/kins/getcarrierconfig/MainActivity.java:96-111 | the text is nonempty; null is `null`; booleans are `true`/`false`; Integer and Long are their decimal text; Double and Float are their toString text, unquoted; strings, unhandled arrays and other objects are exactly their QuoteString |
| JsonFormat.LeadingCharacter | app/src/main/java/dev/kins/getcarrierconfig/MainActivity.java:96-111 | the first character tells the value's kind, each in both directions: `"` for quoted values, `[` for Object[] and int[], `n` for null, `t`/`f` for booleans, a digit, `-`, `N` or `I` for numbers |
| JsonFormat.ObjArrayLayout | app/src/main/java/dev/kins/getcarrierconfig/MainActivity.java:81-88 | each Object[] element is formatted with the indent extended by exactly one itemIndent, and placed as ArrayLayout says |
| JsonFormat.IntArrayLayout | app/src/main/java/dev/kins/getcarrierconfig/MainActivity.java:64-71 | each int[] element is its bare decimal text, placed as ArrayLayout says |
| JsonFormat.GetIntArray | app/src/main/java/dev/kins/getcarrierconfig/MainActivity.java:57-72 | the loop over prefix, itemIndent and element, with prefix and suffix updated per element, returns exactly the int[] text of MakeJsonString |
| JsonFormat.GetArray | app/src/main/java/dev/kins/getcarrierconfig/MainActivity.java:74-89 | the same loop with recursively formatted elements returns exactly the Object[] text of MakeJsonString |
| Document.Lookup | app/src/main/java/dev/kins/getcarrierconfig/MainActivity.java:166-175 | a field contributes a value exactly when its type accepts a String, its constant can be read, and the bundle maps that constant to a non-null value; the value is the bundle's |
| Document.Emitted | app/src/main/java/dev/kins/getcarrierconfig/MainActivity.java:165-175 | there are at most as many pairs as fields, and no pair holds null |
| Document.EmittedExactly | app/src/main/java/dev/kins/getcarrierconfig/MainActivity.java:165-181 | a (name, value) pair is written exactly when some field of that name contributes that value |
| Document.EmittedAppend | app/src/main/java/dev/kins/getcarrierconfig/MainActivity.java:165 | field order is kept: the pairs of a concatenation of fields are the concatenated pairs |
| Document.FieldDataAppend | app/src/main/java/dev/kins/getcarrierconfig/MainActivity.java:160-189 | the field data of two field lists one after the other is that of their concatenation |
| Document.NoValuesNoData | app/src/main/java/dev/kins/getcarrierconfig/MainActivity.java:172-175 | fields none of which contributes a value write nothing |
| Document.SingleFieldEntry | app/src/main/java/dev/kins/getcarrierconfig/MainActivity.java:176-180 | one contributing field is written as `,\n` + indent + the quoted field name + `: ` + the formatted value |
| Document.EmptyStringEntry | app/src/main/java/dev/kins/getcarrierconfig/MainActivity.java:172-180 | a present empty string is written as `"name": ""`, not left out |
| Document.GetClassFieldData | app/src/main/java/dev/kins/getcarrierconfig/MainActivity.java:160-189 | the loop appends one Entry per contributing field, in field order, and returns exactly FieldData |
| Document.GetNestedClassesData | app/src/main/java/dev/kins/getcarrierconfig/MainActivity.java:153-155 | the loop over the nested classes returns exactly the field data of each class, in order |
| Document.GenerateJSON | app/src/main/java/dev/kins/getcarrierconfig/MainActivity.java:133-158 | the appended text is exactly Json: the header, the main class's field data, each nested class's field data, then `\n}` |
| Document.DocumentFields | app/src/main/java/dev/kins/getcarrierconfig/MainActivity.java:152-155 | the entries of the document are those of all fields taken as one list: the main class's fields, then each nested class's, in order |
| Document.FixedKeys | app/src/main/java/dev/kins/getcarrierconfig/MainActivity.java:141-150 | the fixed keys are written as `"Carrier"` and `"Device"`, unescaped |
| Document.DocumentOpens | app/src/main/java/dev/kins/getcarrierconfig/MainActivity.java:141-150 | every document starts with `{\n` + indent + `"Carrier": ` + the quoted carrier name + `,\n` + indent + `"Device": ` + the quoted device name |
| Document.DocumentCloses | app/src/main/java/dev/kins/getcarrierconfig/MainActivity.java:156 | every document ends with `\n}` |

## Left out

- The Android user interface and intents are not modelled: `OnClick`, `ShareJSON`, `ShowMissingPermissionsNotice`, `onCreate`, and the activity lifecycle. They hold no logic that shapes the document.
- The platform reads are parameters: `GetCarrierName` (TelephonyManager), `getConfigForSubId(1)`, and `Build.MANUFACTURER` / `Build.MODEL`.
- Reflection is not modelled: `getDeclaredClasses`, `getFields`, `field.get` and `isAssignableFrom`. Its results are given as a sequence of nested classes, each a sequence of `Field` records. A `requireNonNull` failure and a failing `field.get` both appear as a `None` constant.
- Logging is not modelled: `LogJSON` and the `Log.v` calls in `MakeJsonString` and `GetClassFieldData` write no part of the document. The one case where a `Log.v` call changes the outcome is the next line.
- Document.GetClassFieldData: a String-typed field whose constant is null is skipped, like a field whose `field.get` fails. In the source, `requireNonNull` (line 169) then throws an exception whose message is null. The catch block passes that null message to `Log.v` (line 183), which throws on Android. That exception leaves `GenerateJSON`, reaches the catch in `OnClick` (line 119), and no document is produced. The model does not distinguish a null constant from a failed read, so it does not capture this failure. The configuration constants the app reads are never null.
- `JsonValue.FloatText`: the text `Double.toString` and `Float.toString` give is an input string. The model only constrains its first character (a digit, `-`, `N` or `I`), because Java floating-point formatting is not modelled.
- `JsonValue.Value`: `toString` of arrays other than `Object[]` and `int[]`, and of any other object, is an input string (`OtherArray`, `Other`). The model quotes it like the source does.
- `DeviceName.Capitalize`: character case is ASCII only. Other characters are neither upper nor lower case and keep their case, where Java's Unicode case mapping could change them.
- `DeviceName.GetDeviceName`: the `toLowerCase()` calls in the prefix test (line 35) are modelled on ASCII letters only and without a locale. Under a locale with other case rules, such as Turkish, where "INFINIX" lower-cases to "ınfınıx", Java's test can fail where the model's succeeds.
- `DeviceName.Capitalize`: the null check on line 46 is not modelled, because the model has no null strings.
- `DeviceName.GetDeviceName`: it takes the manufacturer and model as parameters instead of reading `Build`.
- Document.GetNestedClassesData: the loop over the nested classes appends each class's data to the document directly. The model collects the data in its own method and appends the result once, which gives the same text.
- Quoting.QuoteString: the output is only JSON-like, as in the source. Backslashes and control characters are not escaped, which section 7 of RFC 8259 would require.
