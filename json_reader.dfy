/**
 * A small JSON reader, written only to state what the encoder's output
 * means: reading back `ToJson(v)` gives the JSON tree `Decoded(v)` (map
 * entries with non-string keys dropped, non-finite numbers as `null`), and
 * reading back `PropertiesJson(props)` gives an object with the same keys in
 * the same order whose values are `null` or the quoted display text.
 *
 * The reader accepts the compact form the encoder writes (no whitespace
 * between tokens) and takes a number to be the longest run of number chars.
 */
module JsonReader {
  import opened Wrappers
  import opened Text
  import opened Json

  /** A JSON document as a tree; object members keep their order. */
  datatype JsonTree =
    | JNull
    | JBool(b: bool)
    | JNum(text: string)
    | JStr(s: string)
    | JObj(members: seq<(string, JsonTree)>)
    | JArr(elems: seq<JsonTree>)

  /** A value read from the front of the input, and the input left after it. */
  datatype Read<T> = Read(value: T, rest: string)

  // ---------------------------------------------------------------------------
  // The reader

  predicate IsNumberChar(c: char)
  {
    '0' <= c <= '9' || c == '-' || c == '+' || c == '.' || c == 'e' || c == 'E'
  }

  /** The text of a number as Java prints it: non-empty, digits, signs, point and exponent marks only. */
  predicate IsNumberText(t: string)
  {
    |t| > 0 && forall i :: 0 <= i < |t| ==> IsNumberChar(t[i])
  }

  /** What may follow a value inside an encoded document (or nothing at all). */
  predicate Delimited(rest: string)
  {
    rest == [] || rest[0] == ',' || rest[0] == '}' || rest[0] == ']'
  }

  /** Length of the run of number chars at the front of `t`. */
  function NumberLength(t: string): (n: nat)
    ensures n <= |t|
    ensures t != [] && IsNumberChar(t[0]) ==> n >= 1
  {
    if t != [] && IsNumberChar(t[0]) then 1 + NumberLength(t[1..]) else 0
  }

  /** The char an escape sequence stands for, and how many chars after the backslash it spans. */
  function Unescape(u: string): (r: Option<(char, nat)>)
    ensures r.Some? ==> 1 <= r.value.1 <= |u|
  {
    if u == [] then None
    else if u[0] == '"' || u[0] == '\\' || u[0] == '/' then Some((u[0], 1))
    else if u[0] == 'b' then Some((Backspace, 1))
    else if u[0] == 'f' then Some((FormFeed, 1))
    else if u[0] == 'n' then Some(('\n', 1))
    else if u[0] == 'r' then Some(('\r', 1))
    else if u[0] == 't' then Some(('\t', 1))
    else if u[0] == 'u' && |u| >= 5 && HexValue(u[1]) >= 0 && HexValue(u[2]) >= 0 && HexValue(u[3]) >= 0 && HexValue(u[4]) >= 0 then
      var code := ((HexValue(u[1]) * 16 + HexValue(u[2])) * 16 + HexValue(u[3])) * 16 + HexValue(u[4]);
      if code < 0xD800 || 0xE000 <= code then Some((code as char, 5)) else None
    else None
  }

  /** The char at the front of a string literal's body and how many input chars it spans. */
  function NextChar(t: string): (r: Option<(char, nat)>)
    ensures r.Some? ==> 1 <= r.value.1 <= |t|
  {
    if t == [] then None
    else if t[0] == '\\' then
      match Unescape(t[1..])
      case None => None
      case Some((c, n)) => Some((c, n + 1))
    else if t[0] < ' ' then None
    else Some((t[0], 1))
  }

  /** `x` in front of what `r` read. */
  function Cons<T>(x: T, r: Option<Read<seq<T>>>): Option<Read<seq<T>>>
  {
    match r
    case None => None
    case Some(p) => Some(Read([x] + p.value, p.rest))
  }

  /** The rest of a string literal whose opening quote is already read, through its closing quote. */
  function ReadString(t: string): (r: Option<Read<string>>)
    ensures r.Some? ==> |r.value.rest| < |t|
    decreases |t|
  {
    if t == [] then None
    else if t[0] == '"' then Some(Read([], t[1..]))
    else
      match NextChar(t)
      case None => None
      case Some((c, n)) => Cons(c, ReadString(t[n..]))
  }

  /** One value from the front of `t`. */
  function ReadValue(t: string): (r: Option<Read<JsonTree>>)
    ensures r.Some? ==> |r.value.rest| < |t|
    decreases |t|, 0
  {
    if t == [] then None
    else if t[0] == '"' then
      match ReadString(t[1..])
      case None => None
      case Some(p) => Some(Read(JStr(p.value), p.rest))
    else if t[0] == '{' then
      if |t| >= 2 && t[1] == '}' then Some(Read(JObj([]), t[2..]))
      else
        match ReadMembers(t[1..])
        case None => None
        case Some(p) => Some(Read(JObj(p.value), p.rest))
    else if t[0] == '[' then
      if |t| >= 2 && t[1] == ']' then Some(Read(JArr([]), t[2..]))
      else
        match ReadElements(t[1..])
        case None => None
        case Some(p) => Some(Read(JArr(p.value), p.rest))
    else if StartsWith(t, "null") then Some(Read(JNull, t[4..]))
    else if StartsWith(t, "true") then Some(Read(JBool(true), t[4..]))
    else if StartsWith(t, "false") then Some(Read(JBool(false), t[5..]))
    else if IsNumberChar(t[0]) then
      var n := NumberLength(t);
      Some(Read(JNum(t[..n]), t[n..]))
    else None
  }

  /** The members of a non-empty object whose opening brace is already read, through the closing brace. */
  function ReadMembers(t: string): (r: Option<Read<seq<(string, JsonTree)>>>)
    ensures r.Some? ==> |r.value.rest| < |t|
    decreases |t|, 1
  {
    if t == [] || t[0] != '"' then None
    else
      match ReadString(t[1..])
      case None => None
      case Some(k) =>
        if k.rest == [] || k.rest[0] != ':' then None
        else
          match ReadValue(k.rest[1..])
          case None => None
          case Some(v) => MoreMembers((k.value, v.value), v.rest)
  }

  /** After one member: the closing brace, or a comma and further members. */
  function MoreMembers(m: (string, JsonTree), t: string): (r: Option<Read<seq<(string, JsonTree)>>>)
    ensures r.Some? ==> |r.value.rest| < |t|
    decreases |t|, 2
  {
    if t == [] then None
    else if t[0] == '}' then Some(Read([m], t[1..]))
    else if t[0] == ',' then Cons(m, ReadMembers(t[1..]))
    else None
  }

  /** The elements of a non-empty array whose opening bracket is already read, through the closing bracket. */
  function ReadElements(t: string): (r: Option<Read<seq<JsonTree>>>)
    ensures r.Some? ==> |r.value.rest| < |t|
    decreases |t|, 1
  {
    match ReadValue(t)
    case None => None
    case Some(v) => MoreElements(v.value, v.rest)
  }

  /** After one element: the closing bracket, or a comma and further elements. */
  function MoreElements(e: JsonTree, t: string): (r: Option<Read<seq<JsonTree>>>)
    ensures r.Some? ==> |r.value.rest| < |t|
    decreases |t|, 2
  {
    if t == [] then None
    else if t[0] == ']' then Some(Read([e], t[1..]))
    else if t[0] == ',' then Cons(e, ReadElements(t[1..]))
    else None
  }

  // ---------------------------------------------------------------------------
  // What an encoded value means

  /**
   * The JSON tree `toJson` is meant to write for `v`: strings, booleans and
   * finite numbers as themselves, null and non-finite numbers as `null`,
   * maps as objects of their string-keyed entries, lists and arrays as
   * arrays, and any other object as the string of its display text.
   */
  function Decoded(v: Value, display: Display): JsonTree
    decreases v, 1
  {
    match v
    case Null => JNull
    case Str(s) => JStr(s)
    case Num(n) => if IsNonFinite(n) then JNull else JNum(n.text)
    case Bool(b) => JBool(b)
    case Obj(entries) => JObj(DecodedMembers(entries, display))
    case Lst(items) => JArr(DecodedElements(items, display))
    case Arr(items) => JArr(DecodedElements(items, display))
    case Other(_) => JStr(display(v))
  }

  function DecodedMembers(entries: seq<Entry>, display: Display): seq<(string, JsonTree)>
    decreases Obj(entries), 0
  {
    var kept := TextEntries(entries);
    seq(|kept|, i requires 0 <= i < |kept| => (kept[i].key.s, Decoded(kept[i].value, display)))
  }

  function DecodedElements(items: seq<Value>, display: Display): seq<JsonTree>
    decreases items
  {
    seq(|items|, i requires 0 <= i < |items| => Decoded(items[i], display))
  }

  /** Every number that is written as a number (not as `null`) has number text. */
  predicate NumbersWellFormed(v: Value)
  {
    match v
    case Num(n) => IsNonFinite(n) || IsNumberText(n.text)
    case Obj(entries) => forall i :: 0 <= i < |entries| ==> NumbersWellFormed(entries[i].value)
    case Lst(items) => forall i :: 0 <= i < |items| ==> NumbersWellFormed(items[i])
    case Arr(items) => forall i :: 0 <= i < |items| ==> NumbersWellFormed(items[i])
    case _ => true
  }

  /** The object a property map is meant to be written as: same keys, same order, values `null` or strings. */
  function PropertyFields(props: seq<Property>, display: Display): seq<(string, JsonTree)>
  {
    seq(|props|, i requires 0 <= i < |props| =>
      (props[i].name, if props[i].value.Null? then JNull else JStr(ValueText(props[i].value, display))))
  }

  // ---------------------------------------------------------------------------
  // Reading back strings

  /** Every escape `quote` writes is one char of a string literal's body: the char it escapes. */
  lemma NextCharOfEscape(c: char, t: string)
    ensures (Escape(c) + t)[0] != '"'
    ensures NextChar(Escape(c) + t) == Some((c, |Escape(c)|))
  {
    var e := Escape(c);
    if |e| == 1 {
      assert (e + t)[0] == c;
    } else if c < ' ' && c != Backspace && c != FormFeed && c != '\n' && c != '\r' && c != '\t' {
      var h := Hex4(c as int);
      assert e == "\\u" + h;
      var u := (e + t)[1..];
      assert u == ['u'] + h + t;
      assert u[1..5] == h;
      assert Unescape(u) == Some((c, 5));
    } else {
      assert |e| == 2;
      var u := (e + t)[1..];
      assert u == [e[1]] + t;
      assert Unescape(u) == Some((c, 1));
    }
  }

  lemma ReadEscapeChar(c: char, t: string)
    ensures ReadString(Escape(c) + t) == Cons(c, ReadString(t))
  {
    NextCharOfEscape(c, t);
    assert (Escape(c) + t)[|Escape(c)|..] == t;
  }

  /** The escaped chars of `s` followed by a closing quote read back as `s`. */
  lemma {:induction false} ReadEscaped(s: string, rest: string)
    ensures ReadString(EscapeAll(s) + ("\"" + rest)) == Some(Read(s, rest))
  {
    var q := "\"" + rest;
    if s == [] {
      assert EscapeAll(s) + q == q;
      assert q[1..] == rest;
    } else {
      var u := EscapeAll(s[1..]) + q;
      EscapeAllThen(s, q);
      ReadEscaped(s[1..], rest);
      ReadEscapeChar(s[0], u);
      assert [s[0]] + s[1..] == s;
    }
  }

  /** `quote` round-trips: a quoted string reads back as the string itself, whatever follows. */
  lemma ReadQuoted(s: string, rest: string)
    ensures ReadValue(Quote(s) + rest) == Some(Read(JStr(s), rest))
  {
    var t := Quote(s) + rest;
    assert t[1..] == EscapeAll(s) + ("\"" + rest);
    ReadEscaped(s, rest);
  }

  // ---------------------------------------------------------------------------
  // Reading back joined members and elements

  /** `text` followed by `rest` reads back as `tree`, leaving `rest`. */
  predicate ReadsBack(text: string, tree: JsonTree, rest: string)
  {
    ReadValue(text + rest) == Some(Read(tree, rest))
  }

  /** Each text reads back as the tree at the same index, whatever delimiter follows it. */
  ghost predicate ReadsAs(texts: seq<string>, trees: seq<JsonTree>)
  {
    && |texts| == |trees|
    && forall i, rest :: 0 <= i < |texts| && Delimited(rest) ==> ReadsBack(texts[i], trees[i], rest)
  }

  lemma ReadsAsTail(texts: seq<string>, trees: seq<JsonTree>)
    requires |texts| > 0 && ReadsAs(texts, trees)
    ensures ReadsAs(texts[1..], trees[1..])
  {
    forall i, rest | 0 <= i < |texts| - 1 && Delimited(rest)
      ensures ReadsBack(texts[1..][i], trees[1..][i], rest)
    {
      assert ReadsBack(texts[i + 1], trees[i + 1], rest);
    }
  }

  function MemberList(keys: seq<string>, texts: seq<string>): (r: seq<string>)
    requires |keys| == |texts|
    ensures |r| == |keys|
  {
    seq(|keys|, i requires 0 <= i < |keys| => Member(keys[i], texts[i]))
  }

  function Zip(keys: seq<string>, trees: seq<JsonTree>): (r: seq<(string, JsonTree)>)
    requires |keys| == |trees|
    ensures |r| == |keys|
  {
    seq(|keys|, i requires 0 <= i < |keys| => (keys[i], trees[i]))
  }

  lemma MemberListTail(keys: seq<string>, texts: seq<string>)
    requires |keys| == |texts| > 0
    ensures MemberList(keys, texts)[0] == Member(keys[0], texts[0])
    ensures MemberList(keys, texts)[1..] == MemberList(keys[1..], texts[1..])
  {
  }

  lemma ZipCons(keys: seq<string>, trees: seq<JsonTree>)
    requires |keys| == |trees| > 0
    ensures Zip(keys, trees) == [(keys[0], trees[0])] + Zip(keys[1..], trees[1..])
  {
  }

  /** One member `"key":text` reads back as `(key, tree)`, and the reader goes on after it. */
  lemma ReadMember(key: string, text: string, tree: JsonTree, tail: string)
    requires ReadsBack(text, tree, tail)
    ensures ReadMembers(Member(key, text) + tail) == MoreMembers((key, tree), tail)
  {
    var e := EscapeAll(key);
    var after := ":" + (text + tail);
    AppendAssoc(Quote(key) + ":", text, tail);
    AppendAssoc(Quote(key), ":", text + tail);
    AppendAssoc("\"" + e, "\"", after);
    AppendAssoc("\"", e, "\"" + after);
    var t := Member(key, text) + tail;
    assert t == "\"" + (e + ("\"" + after));
    ReadEscaped(key, after);
    assert after[1..] == text + tail;
  }

  lemma MoreMembersLast(m: (string, JsonTree), rest: string)
    ensures MoreMembers(m, "}" + rest) == Some(Read([m], rest))
  {
    assert ("}" + rest)[1..] == rest;
  }

  lemma MoreMembersComma(m: (string, JsonTree), s: string)
    ensures MoreMembers(m, "," + s) == Cons(m, ReadMembers(s))
  {
    assert ("," + s)[1..] == s;
  }

  lemma {:induction false} ReadJoinedMembers(keys: seq<string>, texts: seq<string>, trees: seq<JsonTree>, rest: string)
    requires |keys| == |texts| > 0 && ReadsAs(texts, trees)
    ensures ReadMembers(JoinComma(MemberList(keys, texts)) + ("}" + rest)) == Some(Read(Zip(keys, trees), rest))
    decreases |keys|
  {
    var m := MemberList(keys, texts);
    var after := "}" + rest;
    JoinCommaThen(m, after);
    MemberListTail(keys, texts);
    ZipCons(keys, trees);
    var first := (keys[0], trees[0]);
    if |keys| == 1 {
      assert Delimited(after);
      assert ReadsBack(texts[0], trees[0], after);
      ReadMember(keys[0], texts[0], trees[0], after);
      MoreMembersLast(first, rest);
      assert Zip(keys, trees) == [first];
    } else {
      var s := JoinComma(m[1..]) + after;
      assert Delimited("," + s);
      assert ReadsBack(texts[0], trees[0], "," + s);
      ReadMember(keys[0], texts[0], trees[0], "," + s);
      MoreMembersComma(first, s);
      ReadsAsTail(texts, trees);
      ReadJoinedMembers(keys[1..], texts[1..], trees[1..], rest);
    }
  }

  /** An object written as `{`, comma-joined members, `}` reads back as the object of the zipped keys and trees. */
  lemma ReadObject(keys: seq<string>, texts: seq<string>, trees: seq<JsonTree>, rest: string)
    requires |keys| == |texts| && ReadsAs(texts, trees)
    ensures ReadValue("{" + JoinComma(MemberList(keys, texts)) + "}" + rest) == Some(Read(JObj(Zip(keys, trees)), rest))
  {
    var t := "{" + JoinComma(MemberList(keys, texts)) + "}" + rest;
    if |keys| == 0 {
      assert t == "{}" + rest;
      assert t[2..] == rest;
      assert Zip(keys, trees) == [];
    } else {
      var m := MemberList(keys, texts);
      assert t[1..] == JoinComma(m) + ("}" + rest);
      assert JoinComma(m)[0] == Quote(keys[0])[0] == '"';
      ReadJoinedMembers(keys, texts, trees, rest);
    }
  }

  /** One element reads back as its tree, and the reader goes on after it. */
  lemma ReadElement(text: string, tree: JsonTree, tail: string)
    requires ReadsBack(text, tree, tail)
    ensures ReadElements(text + tail) == MoreElements(tree, tail)
  {
  }

  lemma MoreElementsLast(e: JsonTree, rest: string)
    ensures MoreElements(e, "]" + rest) == Some(Read([e], rest))
  {
    assert ("]" + rest)[1..] == rest;
  }

  lemma MoreElementsComma(e: JsonTree, s: string)
    ensures MoreElements(e, "," + s) == Cons(e, ReadElements(s))
  {
    assert ("," + s)[1..] == s;
  }

  /** The first of several comma-joined elements reads back, and the reader goes on with the others. */
  lemma FirstOfElements(texts: seq<string>, trees: seq<JsonTree>, rest: string)
    requires |texts| > 1 && ReadsAs(texts, trees)
    ensures ReadElements(JoinComma(texts) + ("]" + rest)) == Cons(trees[0], ReadElements(JoinComma(texts[1..]) + ("]" + rest)))
  {
    var after := "]" + rest;
    JoinCommaThen(texts, after);
    var s := JoinComma(texts[1..]) + after;
    assert Delimited("," + s);
    assert ReadsBack(texts[0], trees[0], "," + s);
    ReadElement(texts[0], trees[0], "," + s);
    MoreElementsComma(trees[0], s);
  }

  /** A single element before the closing bracket reads back as a one-element list. */
  lemma LastOfElements(texts: seq<string>, trees: seq<JsonTree>, rest: string)
    requires |texts| == 1 && ReadsAs(texts, trees)
    ensures ReadElements(JoinComma(texts) + ("]" + rest)) == Some(Read(trees, rest))
  {
    var after := "]" + rest;
    JoinCommaThen(texts, after);
    assert Delimited(after);
    assert ReadsBack(texts[0], trees[0], after);
    ReadElement(texts[0], trees[0], after);
    MoreElementsLast(trees[0], rest);
    assert trees == [trees[0]];
  }

  lemma {:induction false} ReadJoinedElements(texts: seq<string>, trees: seq<JsonTree>, rest: string)
    requires |texts| > 0 && ReadsAs(texts, trees)
    ensures ReadElements(JoinComma(texts) + ("]" + rest)) == Some(Read(trees, rest))
    decreases |texts|
  {
    if |texts| == 1 {
      LastOfElements(texts, trees, rest);
    } else {
      FirstOfElements(texts, trees, rest);
      ReadsAsTail(texts, trees);
      ReadJoinedElements(texts[1..], trees[1..], rest);
      assert trees == [trees[0]] + trees[1..];
    }
  }

  /** An array written as `[`, comma-joined elements, `]` reads back as the array of the trees. */
  lemma ReadArray(texts: seq<string>, trees: seq<JsonTree>, rest: string)
    requires ReadsAs(texts, trees)
    ensures ReadValue("[" + JoinComma(texts) + "]" + rest) == Some(Read(JArr(trees), rest))
  {
    var t := "[" + JoinComma(texts) + "]" + rest;
    if |texts| == 0 {
      assert t == "[]" + rest;
      assert t[2..] == rest;
    } else {
      assert t[1..] == JoinComma(texts) + ("]" + rest);
      assert Delimited([]);
      assert ReadsBack(texts[0], trees[0], []);
      assert texts[0] + [] == texts[0];
      assert JoinComma(texts)[0] == texts[0][0] != ']';
      ReadJoinedElements(texts, trees, rest);
    }
  }

  // ---------------------------------------------------------------------------
  // Reading back the encoder's output

  /** A number's text is one whole number token: the reader stops exactly at the delimiter after it. */
  lemma {:induction false} NumberLengthOfText(text: string, rest: string)
    requires (forall i :: 0 <= i < |text| ==> IsNumberChar(text[i])) && Delimited(rest)
    ensures NumberLength(text + rest) == |text|
  {
    if text == [] {
      assert text + rest == rest;
    } else {
      assert (text + rest)[1..] == text[1..] + rest;
      NumberLengthOfText(text[1..], rest);
    }
  }

  /** The three keywords read back as the literals they spell. */
  lemma ReadKeyword(word: string, rest: string)
    requires word == "null" || word == "true" || word == "false"
    ensures ReadValue(word + rest) == Some(Read(if word == "null" then JNull else JBool(word == "true"), rest))
  {
    var t := word + rest;
    assert t[..|word|] == word;
    assert t[|word|..] == rest;
  }

  /** A number's text reads back as that number token. */
  lemma ReadNumberText(text: string, rest: string)
    requires IsNumberText(text) && Delimited(rest)
    ensures ReadValue(text + rest) == Some(Read(JNum(text), rest))
  {
    var t := text + rest;
    assert t[0] == text[0];
    NumberLengthOfText(text, rest);
    assert t[..|text|] == text;
    assert t[|text|..] == rest;
  }

  /** The literal and number cases of `ReadToJson`. */
  lemma ReadScalar(v: Value, display: Display, rest: string)
    requires (v.Null? || v.Bool? || v.Num?) && NumbersWellFormed(v) && Delimited(rest)
    ensures ReadValue(ToJson(v, display) + rest) == Some(Read(Decoded(v, display), rest))
  {
    match v
    case Null =>
      ReadKeyword("null", rest);
    case Bool(b) =>
      ReadKeyword(if b then "true" else "false", rest);
    case Num(n) =>
      if IsNonFinite(n) {
        ReadKeyword("null", rest);
      } else {
        ReadNumberText(n.text, rest);
      }
  }

  /**
   * `toJson` round-trips: reading back what it writes for `v` gives `Decoded(v)`
   * and stops exactly at the delimiter that follows.
   */
  lemma {:induction false} ReadToJson(v: Value, display: Display, rest: string)
    requires NumbersWellFormed(v) && Delimited(rest)
    ensures ReadValue(ToJson(v, display) + rest) == Some(Read(Decoded(v, display), rest))
    decreases v, 1
  {
    match v
    case Null => ReadScalar(v, display, rest);
    case Bool(_) => ReadScalar(v, display, rest);
    case Num(_) => ReadScalar(v, display, rest);
    case Str(s) =>
      ReadQuoted(s, rest);
    case Other(_) =>
      ReadQuoted(display(v), rest);
    case Obj(entries) =>
      ReadEntries(entries, display, rest);
    case Lst(items) =>
      ReadItems(v, items, display, rest);
    case Arr(items) =>
      ReadItems(v, items, display, rest);
  }

  /** The map case of `ReadToJson`. */
  lemma {:induction false} ReadEntries(entries: seq<Entry>, display: Display, rest: string)
    requires NumbersWellFormed(Obj(entries)) && Delimited(rest)
    ensures ReadValue(ToJson(Obj(entries), display) + rest) == Some(Read(Decoded(Obj(entries), display), rest))
    decreases Obj(entries), 0
  {
    var kept := TextEntries(entries);
    var keys := seq(|kept|, i requires 0 <= i < |kept| => kept[i].key.s);
    var texts := seq(|kept|, i requires 0 <= i < |kept| => ToJson(kept[i].value, display));
    var trees := seq(|kept|, i requires 0 <= i < |kept| => Decoded(kept[i].value, display));
    forall i, tail | 0 <= i < |kept| && Delimited(tail)
      ensures ReadsBack(texts[i], trees[i], tail)
    {
      assert kept[i] in entries;
      ReadToJson(kept[i].value, display, tail);
    }
    assert MemberTexts(entries, display) == MemberList(keys, texts);
    assert DecodedMembers(entries, display) == Zip(keys, trees);
    ReadObject(keys, texts, trees, rest);
  }

  /** The list and array cases of `ReadToJson`. */
  lemma {:induction false} ReadItems(v: Value, items: seq<Value>, display: Display, rest: string)
    requires (v == Lst(items) || v == Arr(items)) && NumbersWellFormed(v) && Delimited(rest)
    ensures ReadValue(ToJson(v, display) + rest) == Some(Read(Decoded(v, display), rest))
    decreases v, 0
  {
    var texts := ElementTexts(items, display);
    var trees := DecodedElements(items, display);
    forall i, tail | 0 <= i < |items| && Delimited(tail)
      ensures ReadsBack(texts[i], trees[i], tail)
    {
      ReadToJson(items[i], display, tail);
    }
    ReadArray(texts, trees, rest);
  }

  /**
   * `toJsonProperties` round-trips: its output reads back as an object with
   * the property names in order, each value `null` or the value's text as a
   * JSON string, and the reader stops exactly at the delimiter that follows.
   */
  lemma ReadPropertiesJson(props: seq<Property>, display: Display, rest: string)
    requires Delimited(rest)
    ensures ReadValue(PropertiesJson(props, display) + rest) == Some(Read(JObj(PropertyFields(props, display)), rest))
  {
    var keys := seq(|props|, i requires 0 <= i < |props| => props[i].name);
    var texts := seq(|props|, i requires 0 <= i < |props| =>
      if props[i].value.Null? then "null" else Quote(ValueText(props[i].value, display)));
    var trees := seq(|props|, i requires 0 <= i < |props| =>
      if props[i].value.Null? then JNull else JStr(ValueText(props[i].value, display)));
    forall i, tail | 0 <= i < |props| && Delimited(tail)
      ensures ReadsBack(texts[i], trees[i], tail)
    {
      if props[i].value.Null? {
        ReadScalar(Null, display, tail);
      } else {
        ReadQuoted(ValueText(props[i].value, display), tail);
      }
    }
    assert PropertyTexts(props, display) == MemberList(keys, texts);
    assert PropertyFields(props, display) == Zip(keys, trees);
    ReadObject(keys, texts, trees, rest);
  }

  /** `quote` is injective: different strings never get the same literal. */
  lemma QuoteInjective(a: string, b: string)
    ensures Quote(a) == Quote(b) ==> a == b
  {
    ReadQuoted(a, []);
    ReadQuoted(b, []);
    assert Quote(a) + [] == Quote(a) && Quote(b) + [] == Quote(b);
  }

  /** Two values `toJson` writes the same way mean the same JSON tree. */
  lemma ToJsonDetermines(v: Value, w: Value, display: Display)
    requires NumbersWellFormed(v) && NumbersWellFormed(w)
    ensures ToJson(v, display) == ToJson(w, display) ==> Decoded(v, display) == Decoded(w, display)
  {
    ReadToJson(v, display, []);
    ReadToJson(w, display, []);
  }
}
