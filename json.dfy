/**
 * The minimal JSON encoder of the telemetry client (`JsonUtil`).
 *
 * Two encodings share one string quoter:
 *  - `PropertiesJson` / `ToJsonProperties`: a flat, ordered property map
 *    becomes a JSON object whose values are all JSON strings (the value's
 *    display text, quoted), except that a null value stays the JSON literal
 *    `null`;
 *  - `ToJson`: a general recursive encoder that keeps native JSON structure
 *    (objects, arrays, numbers, booleans), drops map entries whose key is not
 *    a string, and writes non-finite floating-point numbers as `null`.
 *
 * The Java code builds its output with a `StringBuilder` inside loops; those
 * loops are the methods `QuoteString`, `ToJsonProperties`, `MapToJson`,
 * `ListToJson` and `ArrayToJson`, each proved equal to the recursive
 * definition it is specified by.
 */
module Json {
  import opened Text

  // ---------------------------------------------------------------------------
  // Dynamic values

  /** The boxed class of a `java.lang.Number`, as far as the encoder tells them apart. */
  datatype NumberKind =
    | DoubleBox(nonFinite: bool)  // `Double`, and whether it is NaN or infinite
    | FloatBox(nonFinite: bool)   // `Float`, and whether it is NaN or infinite
    | OtherNumber                 // `Integer`, `Long`, `BigDecimal`, ...

  /** A `java.lang.Number`: its class and its `toString()` text. */
  datatype Number = Number(kind: NumberKind, text: string)

  /** The closed set of value kinds `toJson` dispatches on. */
  datatype Value =
    | Null
    | Str(s: string)
    | Num(n: Number)
    | Bool(b: bool)
    | Obj(entries: seq<Entry>)   // a `java.util.Map`, in its iteration order
    | Lst(items: seq<Value>)     // a `java.util.List`
    | Arr(items: seq<Value>)     // a Java array of any component type
    | Other(id: nat)             // any other object

  /** One map entry; a key is any value, and only `Str` keys are encoded. */
  datatype Entry = Entry(key: Value, value: Value)

  /** One entry of a top-level property map, whose keys are always strings. */
  datatype Property = Property(name: string, value: Value)

  /**
   * `String.valueOf` for the values whose text the JDK defines (maps, lists,
   * arrays and other objects): supplied by the caller, never inspected.
   */
  type Display = Value -> string

  /** A `Double` or `Float` that is NaN or infinite. */
  predicate IsNonFinite(n: Number)
  {
    match n.kind
    case DoubleBox(nonFinite) => nonFinite
    case FloatBox(nonFinite) => nonFinite
    case OtherNumber => false
  }

  /**
   * `String.valueOf(v)`: the text a top-level property value is written with.
   * It agrees with `toJson` on null, booleans and finite numbers, and quoting
   * it gives `toJson` of a string or of any other object.
   */
  function ValueText(v: Value, display: Display): (r: string)
    ensures v.Null? || v.Bool? || (v.Num? && !IsNonFinite(v.n)) ==> r == ToJson(v, display)
    ensures v.Str? || v.Other? ==> Quote(r) == ToJson(v, display)
  {
    match v
    case Null => "null"
    case Str(s) => s
    case Num(n) => n.text
    case Bool(b) => if b then "true" else "false"
    case _ => display(v)
  }

  // ---------------------------------------------------------------------------
  // String quoting

  /** No char of `s` is a raw control char (below U+0020). */
  predicate NoRawControl(s: string)
  {
    forall i :: 0 <= i < |s| ==> s[i] >= ' '
  }

  const Backspace: char := '\U{0008}'
  const FormFeed: char := '\U{000C}'

  /**
   * The escape of one char: backslash, quote and the five named control chars
   * get their two-char escapes, any other char below U+0020 becomes `\u00xx`
   * in lower-case hex, and every other char is copied.
   */
  function Escape(c: char): (r: string)
    ensures |r| == 1 <==> (c >= ' ' && c != '"' && c != '\\')
    ensures |r| == 1 ==> r == [c]
    ensures |r| != 1 ==> |r| >= 2 && r[0] == '\\'
    ensures NoRawControl(r)
  {
    if c == '\\' then "\\\\"
    else if c == '"' then "\\\""
    else if c == Backspace then "\\b"
    else if c == FormFeed then "\\f"
    else if c == '\n' then "\\n"
    else if c == '\r' then "\\r"
    else if c == '\t' then "\\t"
    else if c < ' ' then "\\u" + Hex4(c as int)
    else [c]
  }

  /** The escapes of the chars of `s`, in order. */
  function EscapeAll(s: string): string
  {
    if s == [] then [] else Escape(s[0]) + EscapeAll(s[1..])
  }

  /** Escaping leaves no raw control char, whatever the input holds. */
  lemma {:induction false} EscapeAllNoRawControl(s: string)
    ensures NoRawControl(EscapeAll(s))
  {
    if s != [] {
      EscapeAllNoRawControl(s[1..]);
      var a, b := Escape(s[0]), EscapeAll(s[1..]);
      assert forall i :: 0 <= i < |a + b| ==> (a + b)[i] == if i < |a| then a[i] else b[i - |a|];
    }
  }

  lemma {:induction false} EscapeAllSnoc(s: string, c: char)
    ensures EscapeAll(s + [c]) == EscapeAll(s) + Escape(c)
  {
    if s == [] {
      assert s + [c] == [c];
      assert EscapeAll([c]) == Escape(c) + EscapeAll([]);
    } else {
      assert (s + [c])[1..] == s[1..] + [c];
      EscapeAllSnoc(s[1..], c);
    }
  }

  /** A char `quote` copies unchanged. */
  predicate IsPlain(c: char)
  {
    c >= ' ' && c != '"' && c != '\\'
  }

  /** Text with no quote, backslash or control char is copied unchanged. */
  lemma {:induction false} EscapeAllPlain(s: string)
    requires forall i :: 0 <= i < |s| ==> IsPlain(s[i])
    ensures EscapeAll(s) == s
  {
    if s != [] {
      EscapeAllPlain(s[1..]);
      assert [s[0]] + s[1..] == s;
    }
  }

  /** The escapes of a non-empty `s` in front of `q`, split after the first char's escape. */
  lemma EscapeAllThen(s: string, q: string)
    requires s != []
    ensures EscapeAll(s) + q == Escape(s[0]) + (EscapeAll(s[1..]) + q)
  {
    AppendAssoc(Escape(s[0]), EscapeAll(s[1..]), q);
  }

  /**
   * The escape table of `quote`: backslash, quote and the five named control
   * chars get their two-char escapes, and every other char below U+0020 is
   * `\u00` followed by its two lower-case hex digits.
   */
  lemma EscapeTable(c: char)
    ensures c == '\\' ==> Escape(c) == "\\\\"
    ensures c == '"' ==> Escape(c) == "\\\""
    ensures c == Backspace ==> Escape(c) == "\\b"
    ensures c == FormFeed ==> Escape(c) == "\\f"
    ensures c == '\n' ==> Escape(c) == "\\n"
    ensures c == '\r' ==> Escape(c) == "\\r"
    ensures c == '\t' ==> Escape(c) == "\\t"
    ensures c < ' ' && c != Backspace && c != FormFeed && c != '\n' && c != '\r' && c != '\t'
            ==> Escape(c) == "\\u00" + [HexDigit(c as int / 16), HexDigit(c as int % 16)]
  {
    if c < ' ' {
      var n := c as int;
      assert n / 16 / 16 == 0 && n / 16 / 16 / 16 == 0;
      assert Hex4(n) == "00" + [HexDigit(n / 16), HexDigit(n % 16)];
    }
  }

  /** `quote(s)`: a JSON string literal for `s`, between double quotes and free of raw control chars. */
  function Quote(s: string): (r: string)
    ensures |r| >= 2 && r[0] == '"' && r[|r| - 1] == '"'
    ensures NoRawControl(r)
  {
    EscapeAllNoRawControl(s);
    "\"" + EscapeAll(s) + "\""
  }

  lemma QuotedPrefixStep(s: string, i: nat)
    requires i < |s|
    ensures "\"" + EscapeAll(s[..i + 1]) == "\"" + EscapeAll(s[..i]) + Escape(s[i])
  {
    assert s[..i + 1] == s[..i] + [s[i]];
    EscapeAllSnoc(s[..i], s[i]);
  }

  /** The `StringBuilder` loop of `quote`, one `switch` per char. */
  method QuoteString(s: string) returns (r: string)
    ensures r == Quote(s)
  {
    var out := "\"";
    for i := 0 to |s|
      invariant out == "\"" + EscapeAll(s[..i])
    {
      var c := s[i];
      var piece;
      if c == '\\' {
        piece := "\\\\";
      } else if c == '"' {
        piece := "\\\"";
      } else if c == Backspace {
        piece := "\\b";
      } else if c == FormFeed {
        piece := "\\f";
      } else if c == '\n' {
        piece := "\\n";
      } else if c == '\r' {
        piece := "\\r";
      } else if c == '\t' {
        piece := "\\t";
      } else if c < ' ' {
        piece := "\\u" + Hex4(c as int);
      } else {
        piece := [c];
      }
      assert piece == Escape(c);
      QuotedPrefixStep(s, i);
      out := out + piece;
    }
    assert s[..|s|] == s;
    r := out + "\"";
  }

  // ---------------------------------------------------------------------------
  // Top-level properties: every non-null value becomes a JSON string

  /** `"key":value`, the text of one object member. */
  function Member(key: string, valueJson: string): string
  {
    Quote(key) + ":" + valueJson
  }

  /** One property: a null value is the literal `null`, any other is its quoted display text. */
  function PropertyText(p: Property, display: Display): string
  {
    Member(p.name, if p.value.Null? then "null" else Quote(ValueText(p.value, display)))
  }

  function PropertyTexts(props: seq<Property>, display: Display): (r: seq<string>)
    ensures |r| == |props|
    ensures forall i :: 0 <= i < |props| ==> r[i] == PropertyText(props[i], display)
  {
    seq(|props|, i requires 0 <= i < |props| => PropertyText(props[i], display))
  }

  /** `toJsonProperties(map)`: the members of `props` in order, comma separated, in braces; `{}` exactly for the empty map. */
  function PropertiesJson(props: seq<Property>, display: Display): (r: string)
    ensures |r| >= 2 && r[0] == '{' && r[|r| - 1] == '}'
    ensures r == "{}" <==> props == []
  {
    var parts := PropertyTexts(props, display);
    assert parts != [] ==> |JoinComma(parts)| >= |parts[0]| >= |Quote(props[0].name)|;
    "{" + JoinComma(parts) + "}"
  }

  lemma PropertiesPrefixStep(props: seq<Property>, i: nat, display: Display)
    requires i < |props|
    ensures "{" + JoinComma(PropertyTexts(props[..i + 1], display))
         == (if i == 0 then "{" else "{" + JoinComma(PropertyTexts(props[..i], display)) + ",") + PropertyText(props[i], display)
  {
    assert PropertyTexts(props[..i + 1], display) == PropertyTexts(props[..i], display) + [PropertyText(props[i], display)];
    JoinCommaAppend("{", PropertyTexts(props[..i], display), PropertyText(props[i], display));
  }

  /** The loop of `toJsonProperties`, with its `first` flag. */
  method ToJsonProperties(props: seq<Property>, display: Display) returns (r: string)
    ensures r == PropertiesJson(props, display)
  {
    var out := "{";
    var first := true;
    for i := 0 to |props|
      invariant first <==> i == 0
      invariant out == "{" + JoinComma(PropertyTexts(props[..i], display))
    {
      if !first {
        out := out + ",";
      }
      first := false;
      var key := QuoteString(props[i].name);
      var value := "null";
      if !props[i].value.Null? {
        value := QuoteString(ValueText(props[i].value, display));
      }
      assert key + ":" + value == PropertyText(props[i], display);
      PropertiesPrefixStep(props, i, display);
      out := out + (key + ":" + value);
    }
    assert props[..|props|] == props;
    r := out + "}";
  }

  // ---------------------------------------------------------------------------
  // The general encoder

  /** `numberToJson`: NaN and infinite `Double`/`Float` values become `null`, every other number its text. */
  function NumberToJson(n: Number): (r: string)
    ensures IsNonFinite(n) ==> r == "null"
    ensures !IsNonFinite(n) ==> r == n.text
  {
    match n.kind
    case DoubleBox(nonFinite) => if nonFinite then "null" else n.text
    case FloatBox(nonFinite) => if nonFinite then "null" else n.text
    case OtherNumber => n.text
  }

  /** The entries of a map whose key is a string, in iteration order. */
  function TextEntries(entries: seq<Entry>): (r: seq<Entry>)
    ensures |r| <= |entries|
    ensures forall i :: 0 <= i < |r| ==> r[i] in entries && r[i].key.Str?
    ensures forall i :: 0 <= i < |entries| && entries[i].key.Str? ==> entries[i] in r
    ensures (forall i :: 0 <= i < |entries| ==> entries[i].key.Str?) ==> r == entries
  {
    if entries == [] then []
    else (if entries[0].key.Str? then [entries[0]] else []) + TextEntries(entries[1..])
  }

  lemma {:induction false} TextEntriesSnoc(entries: seq<Entry>, e: Entry)
    ensures TextEntries(entries + [e]) == TextEntries(entries) + (if e.key.Str? then [e] else [])
  {
    if entries == [] {
      assert entries + [e] == [e];
      assert TextEntries([e]) == (if e.key.Str? then [e] else []) + TextEntries([]);
    } else {
      assert (entries + [e])[1..] == entries[1..] + [e];
      TextEntriesSnoc(entries[1..], e);
    }
  }

  /** The member texts `mapToJson` writes: one per string-keyed entry, in order. */
  function MemberTexts(entries: seq<Entry>, display: Display): (r: seq<string>)
    decreases Obj(entries), 0
  {
    var kept := TextEntries(entries);
    seq(|kept|, i requires 0 <= i < |kept| => Member(kept[i].key.s, ToJson(kept[i].value, display)))
  }

  /** The element texts `listToJson` and `arrayToJson` write, in index order. */
  function ElementTexts(items: seq<Value>, display: Display): (r: seq<string>)
    ensures |r| == |items|
    decreases items
  {
    seq(|items|, i requires 0 <= i < |items| => ToJson(items[i], display))
  }

  /**
   * `toJson(value)`: dispatch on the kind of the value. Maps are written in
   * braces, lists and arrays in brackets, strings and other objects as string
   * literals; a map with no string key is `{}` and an empty list or array `[]`.
   */
  function ToJson(v: Value, display: Display): (r: string)
    ensures v.Obj? ==> |r| >= 2 && r[0] == '{' && r[|r| - 1] == '}'
    ensures v.Obj? && TextEntries(v.entries) == [] ==> r == "{}"
    ensures v.Lst? || v.Arr? ==> |r| >= 2 && r[0] == '[' && r[|r| - 1] == ']'
    ensures (v.Lst? || v.Arr?) && v.items == [] ==> r == "[]"
    ensures v.Str? || v.Other? ==> |r| >= 2 && r[0] == '"' && r[|r| - 1] == '"'
    decreases v, 1
  {
    match v
    case Null => "null"
    case Str(s) => Quote(s)
    case Num(n) => NumberToJson(n)
    case Bool(b) => if b then "true" else "false"
    case Obj(entries) => "{" + JoinComma(MemberTexts(entries, display)) + "}"
    case Lst(items) => "[" + JoinComma(ElementTexts(items, display)) + "]"
    case Arr(items) => "[" + JoinComma(ElementTexts(items, display)) + "]"
    case Other(_) => Quote(display(v))
  }

  lemma MembersPrefixStep(entries: seq<Entry>, i: nat, display: Display)
    requires i < |entries|
    ensures var e := entries[i];
      TextEntries(entries[..i + 1]) == TextEntries(entries[..i]) + (if e.key.Str? then [e] else [])
    ensures var e, done := entries[i], MemberTexts(entries[..i], display);
      "{" + JoinComma(MemberTexts(entries[..i + 1], display))
      == if !e.key.Str? then "{" + JoinComma(done)
         else (if done == [] then "{" else "{" + JoinComma(done) + ",") + Member(e.key.s, ToJson(e.value, display))
  {
    var e := entries[i];
    assert entries[..i + 1] == entries[..i] + [e];
    TextEntriesSnoc(entries[..i], e);
    var done := MemberTexts(entries[..i], display);
    if e.key.Str? {
      assert MemberTexts(entries[..i + 1], display) == done + [Member(e.key.s, ToJson(e.value, display))];
      JoinCommaAppend("{", done, Member(e.key.s, ToJson(e.value, display)));
    } else {
      assert MemberTexts(entries[..i + 1], display) == done;
    }
  }

  /** The loop of `mapToJson`: entries with a non-string key are skipped, and commas go only between written members. */
  method MapToJson(entries: seq<Entry>, display: Display) returns (r: string)
    ensures r == ToJson(Obj(entries), display)
  {
    var out := "{";
    var first := true;
    for i := 0 to |entries|
      invariant first <==> MemberTexts(entries[..i], display) == []
      invariant out == "{" + JoinComma(MemberTexts(entries[..i], display))
    {
      var e := entries[i];
      MembersPrefixStep(entries, i, display);
      if !e.key.Str? {
        continue;  // skip non-string keys
      }
      if !first {
        out := out + ",";
      }
      first := false;
      var key := QuoteString(e.key.s);
      assert key + ":" + ToJson(e.value, display) == Member(e.key.s, ToJson(e.value, display));
      out := out + (key + ":" + ToJson(e.value, display));
    }
    assert entries[..|entries|] == entries;
    r := out + "}";
  }

  lemma ElementsPrefixStep(items: seq<Value>, i: nat, display: Display)
    requires i < |items|
    ensures "[" + JoinComma(ElementTexts(items[..i + 1], display))
         == (if i == 0 then "[" else "[" + JoinComma(ElementTexts(items[..i], display)) + ",") + ToJson(items[i], display)
  {
    assert ElementTexts(items[..i + 1], display) == ElementTexts(items[..i], display) + [ToJson(items[i], display)];
    JoinCommaAppend("[", ElementTexts(items[..i], display), ToJson(items[i], display));
  }

  /** The indexed loop shared by `listToJson` and `arrayToJson`. */
  method ElementsToJson(items: seq<Value>, display: Display) returns (r: string)
    ensures r == "[" + JoinComma(ElementTexts(items, display)) + "]"
  {
    var out := "[";
    for i := 0 to |items|
      invariant out == "[" + JoinComma(ElementTexts(items[..i], display))
    {
      if i > 0 {
        out := out + ",";
      }
      ElementsPrefixStep(items, i, display);
      out := out + ToJson(items[i], display);
    }
    assert items[..|items|] == items;
    r := out + "]";
  }

  /** `listToJson`: the elements' encodings in index order, comma separated, in brackets. */
  method ListToJson(items: seq<Value>, display: Display) returns (r: string)
    ensures r == ToJson(Lst(items), display)
  {
    r := ElementsToJson(items, display);
  }

  /** `arrayToJson`: an array encodes exactly as the list of its elements. */
  method ArrayToJson(items: seq<Value>, display: Display) returns (r: string)
    ensures r == ToJson(Arr(items), display)
    ensures r == ToJson(Lst(items), display)
  {
    r := ElementsToJson(items, display);
  }
}
