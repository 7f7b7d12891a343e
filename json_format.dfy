/**
 * The value formatter: MakeJsonString dispatches on a value's run-time
 * class; GetArray and GetIntArray lay out arrays one element per line.
 */
module JsonFormat {
  import opened JsonValue
  import opened Quoting
  import opened Decimal
  import opened Facts

  /** The text the array builders write before an element: `prefix` in the source. */
  function Separator(first: bool, indent: string): string {
    if first then "\n" + indent else ",\n" + indent
  }

  /**
   * What the array builders have written once the given element texts are
   * appended: the opening bracket, then for each element the running
   * prefix, the item indent and the element.
   */
  function Entries(items: seq<string>, indent: string, itemIndent: string): (r: string)
    ensures |r| > 0 && r[0] == '['
  {
    if items == [] then "["
    else Entries(items[..|items| - 1], indent, itemIndent)
         + Separator(|items| == 1, indent) + itemIndent + items[|items| - 1]
  }

  /** The text the array builders return for the given element texts. */
  function ArrayText(items: seq<string>, indent: string, itemIndent: string): (r: string)
    ensures |r| >= 2 && r[0] == '[' && r[|r| - 1] == ']'
    ensures items == [] <==> r == "[]"
  {
    Entries(items, indent, itemIndent) + (if items == [] then "" else "\n" + indent) + "]"
  }

  /** Reference layout: the strings of `xs` with `sep` between neighbours. */
  function Join(xs: seq<string>, sep: string): string {
    if xs == [] then ""
    else if |xs| == 1 then xs[0]
    else xs[0] + sep + Join(xs[1..], sep)
  }

  /** Every element text preceded by the item indent. */
  function Indented(items: seq<string>, itemIndent: string): (r: seq<string>)
    ensures |r| == |items|
    ensures forall i :: 0 <= i < |items| ==> r[i] == itemIndent + items[i]
  {
    seq(|items|, i requires 0 <= i < |items| => itemIndent + items[i])
  }

  lemma {:induction false} JoinSnoc(xs: seq<string>, y: string, sep: string)
    requires xs != []
    ensures Join(xs + [y], sep) == Join(xs, sep) + sep + y
  {
    if |xs| == 1 {
      assert (xs + [y])[1..] == [y];
    } else {
      assert (xs + [y])[1..] == xs[1..] + [y];
      JoinSnoc(xs[1..], y, sep);
    }
  }

  /** One element more on the right: the step of EntriesJoin's induction. */
  lemma EntriesJoinStep(items: seq<string>, indent: string, itemIndent: string)
    requires |items| > 1
    requires Entries(items[..|items| - 1], indent, itemIndent)
             == "[\n" + indent + Join(Indented(items[..|items| - 1], itemIndent), ",\n" + indent)
    ensures Entries(items, indent, itemIndent)
            == "[\n" + indent + Join(Indented(items, itemIndent), ",\n" + indent)
  {
    var n, sep, open := |items|, ",\n" + indent, "[\n" + indent;
    var init, it := items[..n - 1], items[n - 1];
    var last := itemIndent + it;
    var joined := Join(Indented(init, itemIndent), sep);
    calc {
      Entries(items, indent, itemIndent);
      ((Entries(init, indent, itemIndent) + sep) + itemIndent) + it;
      (((open + joined) + sep) + itemIndent) + it;
      { Associative((open + joined) + sep, itemIndent, it); }
      ((open + joined) + sep) + last;
      { Associative(open, joined, sep); }
      (open + (joined + sep)) + last;
      { Associative(open, joined + sep, last); }
      open + ((joined + sep) + last);
      { JoinSnoc(Indented(init, itemIndent), last, sep); }
      open + Join(Indented(init, itemIndent) + [last], sep);
      { assert Indented(items, itemIndent) == Indented(init, itemIndent) + [last]; }
      open + Join(Indented(items, itemIndent), sep);
    }
  }

  /** The builders' element-by-element text is the reference layout. */
  lemma {:induction false} EntriesJoin(items: seq<string>, indent: string, itemIndent: string)
    requires items != []
    ensures Entries(items, indent, itemIndent)
            == "[\n" + indent + Join(Indented(items, itemIndent), ",\n" + indent)
  {
    if |items| == 1 {
      assert Entries(items, indent, itemIndent) == "[" + ("\n" + indent) + itemIndent + items[0];
      assert Indented(items, itemIndent) == [itemIndent + items[0]];
    } else {
      EntriesJoin(items[..|items| - 1], indent, itemIndent);
      EntriesJoinStep(items, indent, itemIndent);
    }
  }

  /**
   * Array layout: an empty array is exactly `[]`; otherwise `[`, then each
   * element on its own line after `indent` and `itemIndent`, the lines
   * separated by commas, then a line holding `indent` and `]`.
   */
  lemma ArrayLayout(items: seq<string>, indent: string, itemIndent: string)
    ensures items == [] ==> ArrayText(items, indent, itemIndent) == "[]"
    ensures items != [] ==>
              ArrayText(items, indent, itemIndent)
              == "[\n" + indent + Join(Indented(items, itemIndent), ",\n" + indent) + "\n" + indent + "]"
  {
    if items != [] {
      EntriesJoin(items, indent, itemIndent);
    }
  }

  /** The sum of the lengths of `items`. */
  function TotalLength(items: seq<string>): nat {
    if items == [] then 0 else TotalLength(items[..|items| - 1]) + |items[|items| - 1]|
  }

  /**
   * The length of an array's text: besides the brackets and the element
   * texts, every element costs one newline, `indent` and `itemIndent`,
   * every element but the first one comma, and a non-empty array one more
   * newline and `indent` before its closing bracket.
   */
  lemma {:induction false} ArrayTextLength(items: seq<string>, indent: string, itemIndent: string)
    ensures |ArrayText(items, indent, itemIndent)| ==
            2 + TotalLength(items)
            + |items| * (1 + |indent| + |itemIndent|)
            + (if items == [] then 0 else (|items| - 1) + 1 + |indent|)
  {
    EntriesLength(items, indent, itemIndent);
  }

  lemma {:induction false} EntriesLength(items: seq<string>, indent: string, itemIndent: string)
    ensures |Entries(items, indent, itemIndent)| ==
            1 + TotalLength(items) + |items| * (1 + |indent| + |itemIndent|)
            + (if items == [] then 0 else |items| - 1)
  {
    if items != [] {
      var n, k := |items|, 1 + |indent| + |itemIndent|;
      var init := items[..n - 1];
      EntriesLength(init, indent, itemIndent);
      var before := Entries(init, indent, itemIndent);
      var sep := Separator(n == 1, indent);
      assert Entries(items, indent, itemIndent) == before + sep + itemIndent + items[n - 1];
      assert TotalLength(items) == TotalLength(init) + |items[n - 1]|;
      MultiplyStep(n, k);
    }
  }

  /** Writing element `k` extends the entries of the first `k` elements. */
  lemma EntriesSnoc(items: seq<string>, k: nat, indent: string, itemIndent: string)
    requires k < |items|
    ensures Entries(items[..k + 1], indent, itemIndent)
            == Entries(items[..k], indent, itemIndent) + Separator(k == 0, indent) + itemIndent + items[k]
  {
    assert items[..k + 1][..k] == items[..k];
  }

  /**
   * MakeJsonString: null is `null`; booleans and boxed numbers are their
   * unquoted toString() text; Object[] and int[] are laid out as arrays,
   * Object[] elements formatted one item indent deeper and int[] elements
   * as decimal integers; strings, other arrays and any other object are
   * quoted by QuoteString.
   */
  function MakeJsonString(v: Value, indent: string, itemIndent: string): (r: string)
    decreases v
    ensures |r| > 0
    ensures v.Null? ==> r == "null"
    ensures v.Bool? ==> r == (if v.b then "true" else "false")
    ensures v.Int? ==> r == DecimalText(v.i)
    ensures v.Long? ==> r == DecimalText(v.l)
    ensures v.Double? ==> r == v.d
    ensures v.Float? ==> r == v.f
    ensures v.Str? ==> r == QuoteString(v.s)
    ensures v.Other? ==> r == QuoteString(v.text)
    ensures v.OtherArray? ==> r == QuoteString(v.arrayText)
  {
    match v
    case Null => "null"
    case ObjArray(vs) =>
      ArrayText(seq(|vs|, i requires 0 <= i < |vs| => MakeJsonString(vs[i], indent + itemIndent, itemIndent)),
                indent, itemIndent)
    case IntArray(xs) =>
      ArrayText(seq(|xs|, i requires 0 <= i < |xs| => DecimalText(xs[i])), indent, itemIndent)
    case Bool(b) => if b then "true" else "false"
    case Int(x) => DecimalText(x)
    case Long(x) => DecimalText(x)
    case Double(t) => t
    case Float(t) => t
    case Str(s) => QuoteString(s)
    case OtherArray(t) => QuoteString(t)
    case Other(t) => QuoteString(t)
  }

  /**
   * The first character of a formatted value tells its kind: `"` exactly
   * for quoted values, `[` exactly for Object[] and int[], `n` exactly for
   * null, `t` or `f` exactly for booleans, and a digit, `-`, `N` or `I`
   * exactly for numbers.
   */
  lemma LeadingCharacter(v: Value, indent: string, itemIndent: string)
    ensures var c := MakeJsonString(v, indent, itemIndent)[0];
            && (c == '"' <==> v.Str? || v.Other? || v.OtherArray?)
            && (c == '[' <==> v.ObjArray? || v.IntArray?)
            && (c == 'n' <==> v.Null?)
            && (c == 't' || c == 'f' <==> v.Bool?)
            && (IsDigit(c) || c == '-' || c == 'N' || c == 'I' <==> v.Int? || v.Long? || v.Double? || v.Float?)
  {
  }

  /**
   * Object[] layout: each element is formatted with the indent extended by
   * exactly one item indent, and placed on its own line as ArrayLayout says.
   */
  lemma ObjArrayLayout(vs: seq<Value>, indent: string, itemIndent: string)
    ensures vs == [] ==> MakeJsonString(ObjArray(vs), indent, itemIndent) == "[]"
    ensures vs != [] ==>
              MakeJsonString(ObjArray(vs), indent, itemIndent)
              == "[\n" + indent
                 + Join(seq(|vs|, i requires 0 <= i < |vs| =>
                              itemIndent + MakeJsonString(vs[i], indent + itemIndent, itemIndent)),
                        ",\n" + indent)
                 + "\n" + indent + "]"
  {
    var items := seq(|vs|, i requires 0 <= i < |vs| => MakeJsonString(vs[i], indent + itemIndent, itemIndent));
    ArrayLayout(items, indent, itemIndent);
    assert Indented(items, itemIndent)
        == seq(|vs|, i requires 0 <= i < |vs| => itemIndent + MakeJsonString(vs[i], indent + itemIndent, itemIndent));
  }

  /** int[] layout: each element is its decimal text, placed as ArrayLayout says. */
  lemma IntArrayLayout(xs: seq<Int32>, indent: string, itemIndent: string)
    ensures xs == [] ==> MakeJsonString(IntArray(xs), indent, itemIndent) == "[]"
    ensures xs != [] ==>
              MakeJsonString(IntArray(xs), indent, itemIndent)
              == "[\n" + indent
                 + Join(seq(|xs|, i requires 0 <= i < |xs| => itemIndent + DecimalText(xs[i])), ",\n" + indent)
                 + "\n" + indent + "]"
  {
    var items := seq(|xs|, i requires 0 <= i < |xs| => DecimalText(xs[i]));
    ArrayLayout(items, indent, itemIndent);
    assert Indented(items, itemIndent)
        == seq(|xs|, i requires 0 <= i < |xs| => itemIndent + DecimalText(xs[i]));
  }

  /**
   * GetIntArray: appends `[`, then per element the running prefix, the
   * item indent and the element's decimal text, then the final suffix and
   * `]`; the result is the int[] text MakeJsonString promises.
   */
  method GetIntArray(arr: seq<Int32>, indent: string, itemIndent: string) returns (s: string)
    ensures s == MakeJsonString(IntArray(arr), indent, itemIndent)
  {
    ghost var items := seq(|arr|, i requires 0 <= i < |arr| => DecimalText(arr[i]));
    var value := "[";
    var prefix := "\n" + indent;
    var suffix := "";
    for i := 0 to |arr|
      invariant value == Entries(items[..i], indent, itemIndent)
      invariant prefix == Separator(i == 0, indent)
      invariant suffix == if i == 0 then "" else "\n" + indent
    {
      EntriesSnoc(items, i, indent, itemIndent);
      value := value + prefix;
      value := value + itemIndent;
      value := value + DecimalText(arr[i]);
      prefix := ",\n" + indent;
      suffix := "\n" + indent;
    }
    assert items[..|arr|] == items;
    s := value + suffix + "]";
  }

  /**
   * GetArray: as GetIntArray, with every element formatted by
   * MakeJsonString one item indent deeper; the result is the Object[] text
   * MakeJsonString promises.
   */
  method GetArray(arr: seq<Value>, indent: string, itemIndent: string) returns (s: string)
    ensures s == MakeJsonString(ObjArray(arr), indent, itemIndent)
  {
    ghost var items := seq(|arr|, i requires 0 <= i < |arr| => MakeJsonString(arr[i], indent + itemIndent, itemIndent));
    var value := "[";
    var prefix := "\n" + indent;
    var suffix := "";
    for i := 0 to |arr|
      invariant value == Entries(items[..i], indent, itemIndent)
      invariant prefix == Separator(i == 0, indent)
      invariant suffix == if i == 0 then "" else "\n" + indent
    {
      EntriesSnoc(items, i, indent, itemIndent);
      value := value + prefix;
      value := value + itemIndent;
      value := value + MakeJsonString(arr[i], indent + itemIndent, itemIndent);
      prefix := ",\n" + indent;
      suffix := "\n" + indent;
    }
    assert items[..|arr|] == items;
    s := value + suffix + "]";
  }
}
