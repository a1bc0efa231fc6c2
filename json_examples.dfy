/** The encoder's documented behaviour on simple property maps. */
module JsonExamples {
  import opened Text
  import opened Json

  /** An empty property map is the empty object. */
  lemma EmptyProperties(display: Display)
    ensures PropertiesJson([], display) == "{}"
  {
  }

  predicate AllPlain(s: string)
  {
    forall i :: 0 <= i < |s| ==> IsPlain(s[i])
  }

  /** A string of plain chars is quoted as itself between double quotes. */
  lemma QuotePlainText(s: string)
    requires AllPlain(s)
    ensures Quote(s) == "\"" + s + "\""
  {
    EscapeAllPlain(s);
  }

  /**
   * When names and value texts hold no quote, backslash or control char and
   * no value is null, each property is written as `"name":"text"`: numbers
   * and booleans included, as their text in quotes.
   */
  lemma PlainProperties(props: seq<Property>, display: Display)
    requires forall i :: 0 <= i < |props| ==> AllPlain(props[i].name)
    requires forall i :: 0 <= i < |props| ==> !props[i].value.Null? && AllPlain(ValueText(props[i].value, display))
    ensures PropertiesJson(props, display)
         == "{" + JoinComma(seq(|props|, i requires 0 <= i < |props| =>
                               "\"" + props[i].name + "\":\"" + ValueText(props[i].value, display) + "\"")) + "}"
  {
    var plain := seq(|props|, i requires 0 <= i < |props| =>
                       "\"" + props[i].name + "\":\"" + ValueText(props[i].value, display) + "\"");
    forall i | 0 <= i < |props|
      ensures PropertyTexts(props, display)[i] == plain[i]
    {
      var name, text := props[i].name, ValueText(props[i].value, display);
      QuotePlainText(name);
      QuotePlainText(text);
      assert PropertyText(props[i], display) == Member(name, Quote(text));
      assert ("\"" + name + "\"") + ":" + ("\"" + text + "\"") == "\"" + name + "\":\"" + text + "\"";
    }
    assert PropertyTexts(props, display) == plain;
  }

  /** Escaping a non-empty text: the first char's escape, then the rest's. */
  lemma EscapeAllCons(c: char, s: string)
    ensures EscapeAll([c] + s) == Escape(c) + EscapeAll(s)
  {
    assert ([c] + s)[0] == c && ([c] + s)[1..] == s;
  }

  /** A map with one string property is its one member in braces. */
  lemma OneProperty(name: string, text: string, quotedName: string, quotedText: string, display: Display)
    requires Quote(name) == quotedName && Quote(text) == quotedText
    ensures PropertiesJson([Property(name, Str(text))], display) == "{" + (quotedName + ":" + quotedText) + "}"
  {
    var p := Property(name, Str(text));
    var member := quotedName + ":" + quotedText;
    assert PropertyText(p, display) == member;
    assert PropertyTexts([p], display) == [member];
    assert JoinComma([member]) == member;
  }

  /** The last three chars of the escaping test's value: a backslash, `c` and a newline. */
  lemma EscapedSampleTail()
    ensures EscapeAll("\\c\n") == "\\\\c\\n"
  {
    assert EscapeAll("\n") == "\\n" by { EscapeAllCons('\n', ""); }
    assert EscapeAll("c\n") == "c\\n" by { EscapeAllCons('c', "\n"); }
    EscapeAllCons('\\', "c\n");
  }

  lemma EscapedSampleMiddle()
    ensures EscapeAll("\"b\\c\n") == "\\\"b\\\\c\\n"
  {
    EscapedSampleTail();
    assert EscapeAll("b\\c\n") == "b\\\\c\\n" by { EscapeAllCons('b', "\\c\n"); }
    EscapeAllCons('"', "b\\c\n");
  }

  /** The value of the escaping test, escaped one char at a time. */
  lemma EscapedSample()
    ensures EscapeAll("a\"b\\c\n") == "a\\\"b\\\\c\\n"
  {
    EscapedSampleMiddle();
    EscapeAllCons('a', "\"b\\c\n");
  }

  lemma QuotedSample()
    ensures Quote("a\"b\\c\n") == "\"a\\\"b\\\\c\\n\""
  {
    EscapedSample();
  }

  lemma QuotedKey()
    ensures Quote("s") == "\"s\""
  {
    EscapeAllCons('s', "");
  }

  /** A quote, a backslash and a newline inside a value are written as `\"`, `\\` and `\n`. */
  lemma StringEscaping(display: Display)
    ensures PropertiesJson([Property("s", Str("a\"b\\c\n"))], display) == "{\"s\":\"a\\\"b\\\\c\\n\"}"
  {
    QuotedKey();
    QuotedSample();
    OneProperty("s", "a\"b\\c\n", "\"s\"", "\"a\\\"b\\\\c\\n\"", display);
    EscapingTestText();
  }

  lemma EscapingTestText()
    ensures "{" + ("\"s\"" + ":" + "\"a\\\"b\\\\c\\n\"") + "}" == "{\"s\":\"a\\\"b\\\\c\\n\"}"
  {
  }

  /** A control char without a named escape is written as `\u00` and two lower-case hex digits. */
  lemma UnitSeparatorEscape()
    ensures Escape('\U{001F}') == "\\u001f"
  {
    EscapeTable('\U{001F}');
  }

  /** A non-null property whose name and text are plain is written `"name":"text"`. */
  lemma PlainMember(p: Property, display: Display)
    requires !p.value.Null? && AllPlain(p.name) && AllPlain(ValueText(p.value, display))
    ensures PropertyText(p, display) == "\"" + p.name + "\":\"" + ValueText(p.value, display) + "\""
  {
    var text := ValueText(p.value, display);
    QuotePlainText(p.name);
    QuotePlainText(text);
    assert ("\"" + p.name + "\"") + ":" + ("\"" + text + "\"") == "\"" + p.name + "\":\"" + text + "\"";
  }

  /** A property map is its member texts, comma-joined, in braces. */
  lemma PropertiesOfTexts(props: seq<Property>, texts: seq<string>, display: Display)
    requires |texts| == |props|
    requires forall i :: 0 <= i < |props| ==> PropertyText(props[i], display) == texts[i]
    ensures PropertiesJson(props, display) == "{" + JoinComma(texts) + "}"
  {
    assert PropertyTexts(props, display) == texts;
  }

  lemma ThreeMembers(a: string, b: string, c: string)
    ensures JoinComma([a, b, c]) == a + ("," + (b + ("," + c)))
  {
    assert [a, b, c][1..] == [b, c];
    assert [b, c][1..] == [c];
    assert JoinComma([b, c]) == b + "," + c;
    assert JoinComma([a, b, c]) == a + "," + JoinComma([b, c]);
    AppendAssoc(b, ",", c);
    AppendAssoc(a, ",", b + ("," + c));
  }

  lemma ConversionText()
    ensures "{" + ("\"a\":\"1\"" + ("," + ("\"b\":\"true\"" + ("," + "\"c\":\"12.5\"")))) + "}"
         == "{\"a\":\"1\",\"b\":\"true\",\"c\":\"12.5\"}"
  {
  }

  lemma IntegerMember(display: Display)
    ensures PropertyText(Property("a", Num(Number(OtherNumber, "1"))), display) == "\"a\":\"1\""
  {
    PlainMember(Property("a", Num(Number(OtherNumber, "1"))), display);
  }

  lemma BooleanMember(display: Display)
    ensures PropertyText(Property("b", Bool(true)), display) == "\"b\":\"true\""
  {
    PlainMember(Property("b", Bool(true)), display);
  }

  lemma DoubleMember(display: Display)
    ensures PropertyText(Property("c", Num(Number(DoubleBox(false), "12.5"))), display) == "\"c\":\"12.5\""
  {
    var p := Property("c", Num(Number(DoubleBox(false), "12.5")));
    assert ValueText(p.value, display) == "12.5";
    assert AllPlain("c") && AllPlain("12.5");
    PlainMember(p, display);
    DoubleMemberText();
  }

  lemma DoubleMemberText()
    ensures "\"" + "c" + "\":\"" + "12.5" + "\"" == "\"c\":\"12.5\""
  {
  }

  /** An integer, a boolean and a double are written as their text in quotes. */
  lemma ToStringConversion(display: Display)
    ensures PropertiesJson([Property("a", Num(Number(OtherNumber, "1"))), Property("b", Bool(true)),
                            Property("c", Num(Number(DoubleBox(false), "12.5")))], display)
         == "{\"a\":\"1\",\"b\":\"true\",\"c\":\"12.5\"}"
  {
    IntegerMember(display);
    BooleanMember(display);
    DoubleMember(display);
    PropertiesOfTexts([Property("a", Num(Number(OtherNumber, "1"))), Property("b", Bool(true)),
                       Property("c", Num(Number(DoubleBox(false), "12.5")))],
                      ["\"a\":\"1\"", "\"b\":\"true\"", "\"c\":\"12.5\""], display);
    ThreeMembers("\"a\":\"1\"", "\"b\":\"true\"", "\"c\":\"12.5\"");
    ConversionText();
  }
}
