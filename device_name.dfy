/**
 * The device name shown in the document: the model, capitalised, after
 * the capitalised manufacturer unless the model already starts with the
 * manufacturer's name. Character case is modelled on ASCII letters only:
 * every other character counts as neither upper nor lower case and is
 * left unchanged by case mapping.
 */
module DeviceName {

  predicate IsUpper(c: char) {
    'A' <= c <= 'Z'
  }

  predicate IsLower(c: char) {
    'a' <= c <= 'z'
  }

  function ToUpper(c: char): char {
    if IsLower(c) then (c as int - 32) as char else c
  }

  function ToLower(c: char): char {
    if IsUpper(c) then (c as int + 32) as char else c
  }

  /** `String.toLowerCase` under the ASCII model. */
  function Lower(s: string): (r: string)
    ensures |r| == |s|
  {
    seq(|s|, i requires 0 <= i < |s| => ToLower(s[i]))
  }

  predicate StartsWith(s: string, prefix: string) {
    |prefix| <= |s| && s[..|prefix|] == prefix
  }

  predicate EndsWith(s: string, suffix: string) {
    |suffix| <= |s| && s[|s| - |suffix|..] == suffix
  }

  /** A string starts with whatever is appended to. */
  lemma StartsWithAppend(a: string, b: string)
    ensures StartsWith(a + b, a)
  {
    assert (a + b)[..|a|] == a;
  }

  /** A string ends with whatever was appended last. */
  lemma EndsWithAppend(a: string, b: string)
    ensures EndsWith(a + b, b)
  {
    assert (a + b)[|a + b| - |b|..] == b;
  }

  lemma LowerAppend(a: string, b: string)
    ensures Lower(a + b) == Lower(a) + Lower(b)
  {
    assert forall i :: 0 <= i < |a + b| ==> Lower(a + b)[i] == (Lower(a) + Lower(b))[i];
  }

  /**
   * Capitalize: the first character upper-cased. Only that character may
   * change, and only in case; a string that does not start with a
   * lower-case letter comes back unchanged.
   */
  function Capitalize(s: string): (r: string)
    ensures |r| == |s|
    ensures |s| > 0 ==> r[1..] == s[1..] && !IsLower(r[0])
    ensures Lower(r) == Lower(s)
    ensures |s| > 0 && !IsLower(s[0]) ==> r == s
  {
    if |s| == 0 then ""
    else if IsUpper(s[0]) then s
    else
      var r := [ToUpper(s[0])] + s[1..];
      assert forall i :: 0 <= i < |s| ==> Lower(r)[i] == Lower(s)[i];
      r
  }

  lemma CapitalizeIdempotent(s: string)
    ensures Capitalize(Capitalize(s)) == Capitalize(s)
  {
  }

  /** Whether the model name already starts with the manufacturer's name, ignoring case. */
  predicate NamesManufacturer(manufacturer: string, model: string) {
    StartsWith(Lower(model), Lower(manufacturer))
  }

  /**
   * GetDeviceName: the capitalised model alone exactly when the model
   * already starts with the manufacturer's name (ignoring case), else the
   * capitalised manufacturer, a space and the capitalised model. Either
   * way the name starts with the manufacturer and ends with the model,
   * ignoring case.
   */
  function GetDeviceName(manufacturer: string, model: string): (r: string)
    ensures r == Capitalize(model) <==> NamesManufacturer(manufacturer, model)
    ensures !NamesManufacturer(manufacturer, model) ==>
              r == Capitalize(manufacturer) + " " + Capitalize(model)
    ensures StartsWith(Lower(r), Lower(manufacturer))
    ensures EndsWith(r, Capitalize(model))
  {
    if NamesManufacturer(manufacturer, model) then Capitalize(model)
    else
      var r := Capitalize(manufacturer) + " " + Capitalize(model);
      LowerAppend(Capitalize(manufacturer), " " + Capitalize(model));
      assert Lower(r)[..|manufacturer|] == Lower(manufacturer);
      assert r[|r| - |model|..] == Capitalize(model);
      r
  }

  /** An empty manufacturer never shows up: the name is the capitalised model. */
  lemma {:induction false} EmptyManufacturer(model: string)
    ensures GetDeviceName("", model) == Capitalize(model)
  {
    assert Lower("") == "";
  }

  /** A model that starts with the manufacturer's exact name is not prefixed with it again. */
  lemma {:induction false} ManufacturerNotRepeated(manufacturer: string, model: string)
    requires StartsWith(model, manufacturer)
    ensures GetDeviceName(manufacturer, model) == Capitalize(model)
  {
    var rest := model[|manufacturer|..];
    assert model == manufacturer + rest;
    LowerAppend(manufacturer, rest);
  }

  /** A model that does not repeat the manufacturer is prefixed with it: "Google" "Pixel 7". */
  lemma PixelExample()
    ensures GetDeviceName("Google", "Pixel 7") == "Google Pixel 7"
  {
    assert Lower("Pixel 7")[0] == 'p';
  }

  /** The manufacturer is capitalised as well: "samsung" "SM-G991U". */
  lemma SamsungExample()
    ensures GetDeviceName("samsung", "SM-G991U") == "Samsung SM-G991U"
  {
    assert Lower("SM-G991U")[1] == 'm';
    assert Lower("samsung")[1] == 'a';
  }
}
