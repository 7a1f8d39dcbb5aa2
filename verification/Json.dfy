/** JSON text (RFC 8259): the canonical printer of the audit log, with sorted
    keys and no white space, and a reader that accepts any JSON layout. Number
    tokens are kept as text. */
module Json {
  import opened Basics

  datatype Json =
    | Null
    | Bool(truth: bool)
    | Num(token: string)
    | Str(text: string)
    | Arr(items: seq<Json>)
    | Obj(fields: map<string, Json>)

  // ---------------------------------------------------------------- key order

  /** Strictly before, comparing code point by code point. */
  predicate Before(x: string, y: string) {
    if y == "" then false
    else if x == "" then true
    else if x[0] == y[0] then Before(x[1..], y[1..])
    else x[0] < y[0]
  }

  predicate Sorted(ks: seq<string>) {
    forall i, j :: 0 <= i < j < |ks| ==> Before(ks[i], ks[j])
  }

  lemma {:induction false} BeforeTotal(x: string, y: string)
    ensures x == y || Before(x, y) || Before(y, x)
    ensures !(Before(x, y) && Before(y, x)) && !Before(x, x)
  {
    if x != "" && y != "" && x[0] == y[0] {
      BeforeTotal(x[1..], y[1..]);
      if x[1..] == y[1..] {
        assert x == [x[0]] + x[1..] == [y[0]] + y[1..] == y;
      }
    }
    if x != "" {
      BeforeTotal(x[1..], x[1..]);
    }
  }

  lemma {:induction false} BeforeTrans(x: string, y: string, z: string)
    requires Before(x, y) && Before(y, z)
    ensures Before(x, z)
  {
    if x != "" && x[0] == y[0] == z[0] {
      BeforeTrans(x[1..], y[1..], z[1..]);
    }
  }

  predicate Least(ks: set<string>, k: string) {
    k in ks && forall x :: x in ks ==> x == k || Before(k, x)
  }

  lemma {:induction false} LeastExists(ks: set<string>)
    requires ks != {}
    ensures exists k :: Least(ks, k)
    decreases |ks|
  {
    var k :| k in ks;
    var rest := ks - {k};
    if rest == {} {
      assert ks == {k};
      assert Least(ks, k);
    } else {
      LeastExists(rest);
      var l :| Least(rest, l);
      BeforeTotal(k, l);
      if Before(k, l) {
        forall x | x in ks ensures x == k || Before(k, x) {
          if x != k && x != l {
            BeforeTrans(k, l, x);
          }
        }
        assert Least(ks, k);
      } else {
        assert Least(ks, l);
      }
    }
  }

  lemma {:induction false} LeastUnique(ks: set<string>)
    ensures forall k, l :: Least(ks, k) && Least(ks, l) ==> k == l
  {
    forall k, l | Least(ks, k) && Least(ks, l) ensures k == l {
      BeforeTotal(k, l);
    }
  }

  /** The keys of an object in the order they are printed. */
  function SortKeys(ks: set<string>): (sorted: seq<string>)
    ensures |sorted| == |ks|
    decreases |ks|
  {
    if ks == {} then []
    else
      LeastExists(ks);
      LeastUnique(ks);
      var k :| Least(ks, k);
      [k] + SortKeys(ks - {k})
  }

  /** Printing order is strictly increasing and leaves no key out. */
  lemma {:induction false} SortKeysSorts(ks: set<string>)
    ensures Sorted(SortKeys(ks))
    ensures forall k :: k in SortKeys(ks) <==> k in ks
    decreases |ks|
  {
    if ks != {} {
      LeastExists(ks);
      LeastUnique(ks);
      var k :| Least(ks, k) && SortKeys(ks) == [k] + SortKeys(ks - {k});
      SortKeysSorts(ks - {k});
      var rest := SortKeys(ks - {k});
      hide SortKeys, Before;
      forall i | 0 <= i < |rest| ensures Before(k, rest[i]) {
        assert rest[i] in rest;
      }
      LedBy(k, rest);
    }
  }

  lemma {:induction false} LedBy(k: string, rest: seq<string>)
    requires Sorted(rest) && forall i :: 0 <= i < |rest| ==> Before(k, rest[i])
    ensures Sorted([k] + rest)
  {
    hide Before;
    var all := [k] + rest;
    forall i, j | 0 <= i < j < |all| ensures Before(all[i], all[j]) {
      assert all[j] == rest[j - 1];
      assert i > 0 ==> all[i] == rest[i - 1];
    }
  }

  // ------------------------------------------------------------------ printing

  function HexDigit(n: nat): char
    requires n < 16
  {
    "0123456789abcdef"[n]
  }

  function Escape(c: char): string {
    if c == '"' then "\\\""
    else if c == '\\' then "\\\\"
    else if c == '\n' then "\\n"
    else if c == '\r' then "\\r"
    else if c == '\t' then "\\t"
    else if c == 8 as char then "\\b"
    else if c == 12 as char then "\\f"
    else if c < ' ' then "\\u00" + [HexDigit(c as int / 16), HexDigit(c as int % 16)]
    else [c]
  }

  function EscapeAll(s: string): string {
    if s == "" then "" else Escape(s[0]) + EscapeAll(s[1..])
  }

  function Quote(s: string): string {
    "\"" + EscapeAll(s) + "\""
  }

  function Print(j: Json): string
    decreases j, 1, 0
  {
    match j
    case Null => "null"
    case Bool(truth) => if truth then "true" else "false"
    case Num(token) => token
    case Str(text) => Quote(text)
    case Arr(items) => "[" + PrintItems(j, items)
    case Obj(fields) =>
      SortKeysSorts(fields.Keys);
      "{" + PrintFields(j, SortKeys(fields.Keys))
  }

  /** Elements separated by commas, then the closing bracket. */
  function PrintItems(j: Json, items: seq<Json>): string
    requires j.Arr? && forall i :: 0 <= i < |items| ==> items[i] in j.items
    decreases j, 0, |items|
  {
    if items == [] then "]"
    else Print(items[0]) + (if |items| == 1 then "]" else "," + PrintItems(j, items[1..]))
  }

  function PrintFields(j: Json, ks: seq<string>): string
    requires j.Obj? && forall i :: 0 <= i < |ks| ==> ks[i] in j.fields
    decreases j, 0, |ks|
  {
    if ks == [] then "}"
    else
      Quote(ks[0]) + ":" + Print(j.fields[ks[0]])
      + (if |ks| == 1 then "}" else "," + PrintFields(j, ks[1..]))
  }

  // ------------------------------------------------------------------- reading

  predicate White(c: char) {
    c == ' ' || c == '\t' || c == '\n' || c == '\r'
  }

  predicate NumberChar(c: char) {
    '0' <= c <= '9' || c == '-' || c == '+' || c == '.' || c == 'e' || c == 'E'
  }

  predicate NumberStart(c: char) {
    '0' <= c <= '9' || c == '-'
  }

  predicate NumberToken(t: string) {
    t != "" && NumberStart(t[0]) && forall i :: 0 <= i < |t| ==> NumberChar(t[i])
  }

  function Skip(s: string): (r: string)
    ensures |r| <= |s|
  {
    if s != "" && White(s[0]) then Skip(s[1..]) else s
  }

  function Munch(s: string): (n: nat)
    ensures n <= |s|
  {
    if s != "" && NumberChar(s[0]) then 1 + Munch(s[1..]) else 0
  }

  predicate Starts(s: string, word: string) {
    |word| <= |s| && s[..|word|] == word
  }

  function HexValue(c: char): Option<nat> {
    if '0' <= c <= '9' then Some(c as int - '0' as int)
    else if 'a' <= c <= 'f' then Some(c as int - 'a' as int + 10)
    else if 'A' <= c <= 'F' then Some(c as int - 'A' as int + 10)
    else None
  }

  /** The character of a \uXXXX escape, when the four digits name one. */
  function Unescape4(s: string): Option<char>
    requires |s| >= 4
  {
    var a, b, c, d := HexValue(s[0]), HexValue(s[1]), HexValue(s[2]), HexValue(s[3]);
    if a.None? || b.None? || c.None? || d.None? then None
    else
      var n := a.value * 4096 + b.value * 256 + c.value * 16 + d.value;
      if n < 0xD800 || 0xE000 <= n < 0x10000 then Some(n as char) else None
  }

  function Unescape(c: char): Option<char> {
    if c == '"' || c == '\\' || c == '/' then Some(c)
    else if c == 'n' then Some('\n')
    else if c == 'r' then Some('\r')
    else if c == 't' then Some('\t')
    else if c == 'b' then Some(8 as char)
    else if c == 'f' then Some(12 as char)
    else None
  }

  /** The rest of a string literal after its opening quote. */
  function Literal(s: string): (r: Option<(string, string)>)
    ensures r.Some? ==> |r.value.1| < |s|
    decreases |s|
  {
    if s == "" || s[0] < ' ' then None
    else if s[0] == '"' then Some(("", s[1..]))
    else if s[0] != '\\' then Cons(s[0], Literal(s[1..]))
    else if |s| < 2 then None
    else if s[1] == 'u' then
      if |s| < 6 then None
      else
        var c := Unescape4(s[2..6]);
        if c.None? then None else Cons(c.value, Literal(s[6..]))
    else
      var c := Unescape(s[1]);
      if c.None? then None else Cons(c.value, Literal(s[2..]))
  }

  function Cons(c: char, r: Option<(string, string)>): Option<(string, string)> {
    if r.None? then None else Some(([c] + r.value.0, r.value.1))
  }

  /** One value after optional white space, and the text left over. */
  function Value(s: string): (r: Option<(Json, string)>)
    ensures r.Some? ==> |r.value.1| < |s|
    decreases |s|, 1
  {
    var t := Skip(s);
    if t == "" then None
    else if t[0] == '"' then
      var lit := Literal(t[1..]);
      if lit.None? then None else Some((Str(lit.value.0), lit.value.1))
    else if t[0] == '[' then
      var u := Skip(t[1..]);
      if u != "" && u[0] == ']' then Some((Arr([]), u[1..]))
      else
        var items := Items(u);
        if items.None? then None else Some((Arr(items.value.0), items.value.1))
    else if t[0] == '{' then
      var u := Skip(t[1..]);
      if u != "" && u[0] == '}' then Some((Obj(map[]), u[1..]))
      else
        var pairs := Pairs(u);
        if pairs.None? then None else Some((Obj(FromPairs(pairs.value.0)), pairs.value.1))
    else if Starts(t, "null") then Some((Null, t[4..]))
    else if Starts(t, "true") then Some((Bool(true), t[4..]))
    else if Starts(t, "false") then Some((Bool(false), t[5..]))
    else if NumberStart(t[0]) then Some((Num(t[..Munch(t)]), t[Munch(t)..]))
    else None
  }

  function Items(s: string): (r: Option<(seq<Json>, string)>)
    ensures r.Some? ==> |r.value.1| < |s|
    decreases |s|, 2
  {
    var v := Value(s);
    if v.None? then None
    else
      var u := Skip(v.value.1);
      if u != "" && u[0] == ']' then Some(([v.value.0], u[1..]))
      else if u != "" && u[0] == ',' then
        var rest := Items(u[1..]);
        if rest.None? then None else Some(([v.value.0] + rest.value.0, rest.value.1))
      else None
  }

  function Pairs(s: string): (r: Option<(seq<(string, Json)>, string)>)
    ensures r.Some? ==> |r.value.1| < |s|
    decreases |s|, 2
  {
    if s == "" || s[0] != '"' then None
    else
      var k := Literal(s[1..]);
      if k.None? then None
      else
        var colon := Skip(k.value.1);
        if colon == "" || colon[0] != ':' then None
        else
          var v := Value(colon[1..]);
          if v.None? then None
          else
            var u := Skip(v.value.1);
            if u != "" && u[0] == '}' then Some(([(k.value.0, v.value.0)], u[1..]))
            else if u != "" && u[0] == ',' then
              var rest := Pairs(Skip(u[1..]));
              if rest.None? then None else Some(([(k.value.0, v.value.0)] + rest.value.0, rest.value.1))
            else None
  }

  /** A repeated key keeps its last value. */
  function FromPairs(pairs: seq<(string, Json)>): map<string, Json> {
    if pairs == [] then map[]
    else FromPairs(pairs[..|pairs| - 1])[pairs[|pairs| - 1].0 := pairs[|pairs| - 1].1]
  }

  function Loads(s: string): Option<Json> {
    var v := Value(s);
    if v.None? || Skip(v.value.1) != "" then None else Some(v.value.0)
  }

  // ---------------------------------------------------------------- round trip

  /** Every number token inside is one. */
  predicate Printable(j: Json) {
    match j
    case Num(token) => NumberToken(token)
    case Arr(items) => forall i :: 0 <= i < |items| ==> Printable(items[i])
    case Obj(fields) => forall k :: k in fields ==> Printable(fields[k])
    case _ => true
  }

  /** What follows cannot be taken for more digits. */
  predicate Ends(rest: string) {
    rest == "" || !NumberChar(rest[0])
  }

  lemma {:induction false} HexRoundTrip(n: nat)
    requires n < 16
    ensures HexValue(HexDigit(n)) == Some(n)
  {
  }

  lemma {:induction false} LiteralPlain(c: char, rest: string)
    requires c >= ' ' && c != '"' && c != '\\'
    ensures Literal([c] + rest) == Cons(c, Literal(rest))
  {
    assert ([c] + rest)[1..] == rest;
  }

  lemma {:induction false} LiteralPair(e: string, c: char, rest: string)
    requires |e| == 2 && e[0] == '\\' && e[1] != 'u' && Unescape(e[1]) == Some(c)
    ensures Literal(e + rest) == Cons(c, Literal(rest))
  {
    var s := e + rest;
    assert s[0] == e[0] && s[1] == e[1] && s[2..] == rest;
    hide Unescape;
  }

  lemma {:induction false} LiteralHex(e: string, c: char, rest: string)
    requires |e| == 6 && e[0] == '\\' && e[1] == 'u' && Unescape4(e[2..6]) == Some(c)
    ensures Literal(e + rest) == Cons(c, Literal(rest))
  {
    var s := e + rest;
    assert s[0] == e[0] && s[1] == e[1] && s[2..6] == e[2..6] && s[6..] == rest;
    hide Unescape4;
  }

  lemma {:induction false} EscapeShape(c: char)
    ensures
      var e := Escape(c);
      || (e == [c] && c >= ' ' && c != '"' && c != '\\')
      || (|e| == 2 && e[0] == '\\' && e[1] != 'u' && Unescape(e[1]) == Some(c))
      || (|e| == 6 && e[0] == '\\' && e[1] == 'u' && Unescape4(e[2..6]) == Some(c))
  {
    var n := c as int;
    var e := Escape(c);
    if |e| == 6 {
      HexRoundTrip(n / 16);
      HexRoundTrip(n % 16);
      assert e[2..6] == ['0', '0', HexDigit(n / 16), HexDigit(n % 16)];
      assert HexValue('0') == Some(0);
    }
  }

  lemma {:induction false} EscapeLiteral(c: char, rest: string)
    ensures Literal(Escape(c) + rest) == Cons(c, Literal(rest))
  {
    EscapeShape(c);
    var e := Escape(c);
    hide *;
    if e == [c] && c >= ' ' && c != '"' && c != '\\' {
      LiteralPlain(c, rest);
    } else if |e| == 2 {
      LiteralPair(e, c, rest);
    } else {
      LiteralHex(e, c, rest);
    }
  }

  lemma {:induction false} QuoteLiteral(text: string, rest: string)
    ensures Literal(EscapeAll(text) + "\"" + rest) == Some((text, rest))
  {
    if text == "" {
      assert ("\"" + rest)[1..] == rest;
      assert EscapeAll(text) + "\"" + rest == "\"" + rest;
    } else {
      var tail := EscapeAll(text[1..]) + "\"" + rest;
      assert EscapeAll(text) + "\"" + rest == Escape(text[0]) + tail;
      EscapeLiteral(text[0], tail);
      QuoteLiteral(text[1..], rest);
      assert [text[0]] + text[1..] == text;
    }
  }

  lemma {:induction false} MunchToken(t: string, rest: string)
    requires forall i :: 0 <= i < |t| ==> NumberChar(t[i])
    requires Ends(rest)
    ensures Munch(t + rest) == |t|
  {
    if t == "" {
      assert t + rest == rest;
    } else {
      assert (t + rest)[1..] == t[1..] + rest;
      MunchToken(t[1..], rest);
    }
  }

  /** A printed value starts with the first character of its own kind. */
  lemma {:induction false} PrintStarts(j: Json)
    requires Printable(j)
    ensures Print(j) != "" && !White(Print(j)[0]) && Print(j)[0] != ']'
  {
  }

  lemma {:induction false} ValueOfWord(word: string, rest: string)
    requires word == "null" || word == "true" || word == "false"
    ensures Value(word + rest) == Some((if word == "null" then Null else Bool(word == "true"), rest))
  {
    var s := word + rest;
    assert s[..|word|] == word && s[|word|..] == rest && s[0] == word[0];
    assert Skip(s) == s;
  }

  lemma {:induction false} ValueOfNumber(token: string, rest: string)
    requires NumberToken(token) && Ends(rest)
    ensures Value(token + rest) == Some((Num(token), rest))
  {
    var s := token + rest;
    MunchToken(token, rest);
    assert s[0] == token[0] && Skip(s) == s;
    assert s[..|token|] == token && s[|token|..] == rest;
    assert !Starts(s, "null") && !Starts(s, "true") && !Starts(s, "false") by {
      assert "null"[0] == 'n' && "true"[0] == 't' && "false"[0] == 'f';
    }
  }

  lemma {:induction false} ValueOfString(text: string, rest: string)
    ensures Value(Quote(text) + rest) == Some((Str(text), rest))
  {
    var s := Quote(text) + rest;
    assert s[0] == '"' && Skip(s) == s;
    assert s[1..] == EscapeAll(text) + "\"" + rest;
    QuoteLiteral(text, rest);
  }

  /** A text led by a character that is not white space. */
  lemma {:induction false} Lead(c: char, t: string)
    requires !White(c)
    ensures ([c] + t)[0] == c && ([c] + t)[1..] == t && Skip([c] + t) == [c] + t
  {
  }

  lemma {:induction false} ValueOfArray(s: string)
    requires s != "" && s[0] == '['
    ensures var u := Skip(s[1..]);
      if u != "" && u[0] == ']' then Value(s) == Some((Arr([]), u[1..]))
      else Items(u).Some? ==> Value(s) == Some((Arr(Items(u).value.0), Items(u).value.1))
  {
    assert Skip(s) == s;
  }

  lemma {:induction false} ValueOfObject(s: string)
    requires s != "" && s[0] == '{'
    ensures var u := Skip(s[1..]);
      if u != "" && u[0] == '}' then Value(s) == Some((Obj(map[]), u[1..]))
      else Pairs(u).Some? ==> Value(s) == Some((Obj(FromPairs(Pairs(u).value.0)), Pairs(u).value.1))
  {
    assert Skip(s) == s;
  }

  /** Reading back a printed value returns it and leaves what followed it. */
  lemma {:induction false} ReadPrinted(j: Json, rest: string)
    requires Printable(j) && Ends(rest)
    ensures Value(Print(j) + rest) == Some((j, rest))
    decreases j, 1, 0
  {
    match j
    case Null => ValueOfWord("null", rest);
    case Bool(truth) => ValueOfWord(if truth then "true" else "false", rest);
    case Num(token) => ValueOfNumber(token, rest);
    case Str(text) => ValueOfString(text, rest);
    case Arr(items) => ReadArray(j, rest);
    case Obj(fields) => ReadObject(j, rest);
  }

  lemma {:induction false} ReadArray(j: Json, rest: string)
    requires j.Arr? && Printable(j)
    ensures Value(Print(j) + rest) == Some((j, rest))
    decreases j, 0, |j.items| + 1
  {
    var inner := PrintItems(j, j.items) + rest;
    hide Value, Items, Munch;
    assert Print(j) + rest == "[" + inner;
    assert ("[" + inner)[1..] == inner;
    ValueOfArray("[" + inner);
    if j.items == [] {
      assert inner == "]" + rest && inner[1..] == rest;
      assert Skip(inner) == inner;
    } else {
      ReadItems(j, j.items, rest);
      PrintStarts(j.items[0]);
      assert inner[0] == Print(j.items[0])[0];
      assert Skip(inner) == inner;
    }
  }

  lemma {:induction false} ObjectText(j: Json, rest: string)
    requires j.Obj?
    ensures
      var ks := SortKeys(j.fields.Keys);
      && (forall k :: k in ks <==> k in j.fields)
      && |ks| == |j.fields|
      && Print(j) + rest == ['{'] + (PrintFields(j, ks) + rest)
      && (j.fields == map[] ==> PrintFields(j, ks) + rest == ['}'] + rest)
  {
    SortKeysSorts(j.fields.Keys);
  }

  lemma {:induction false} ReadObject(j: Json, rest: string)
    requires j.Obj? && Printable(j)
    ensures Value(Print(j) + rest) == Some((j, rest))
    decreases j, 0, |j.fields| + 1
  {
    ObjectText(j, rest);
    var ks := SortKeys(j.fields.Keys);
    var inner := PrintFields(j, ks) + rest;
    Lead('{', inner);
    assert !White('}') && !White('"');
    hide *;
    ValueOfObject(['{'] + inner);
    if j.fields == map[] {
      Lead('}', rest);
    } else {
      ReadFields(j, ks, rest);
      FieldText(j, ks, rest);
      Lead('"', FieldTail(j, ks, rest));
      PairsOf(j.fields, ks);
    }
  }

  lemma {:induction false} ItemsStep(s: string, v: Json, after: string)
    requires Value(s) == Some((v, after)) && after != "" && Skip(after) == after
    ensures after[0] == ']' ==> Items(s) == Some(([v], after[1..]))
    ensures after[0] == ',' && Items(after[1..]).Some? ==>
              Items(s) == Some(([v] + Items(after[1..]).value.0, Items(after[1..]).value.1))
  {
    hide Value, Skip;
  }

  lemma {:induction false} PairsStep(s: string, k: string, colon: string, v: Json, after: string)
    requires s != "" && s[0] == '"' && Literal(s[1..]) == Some((k, colon))
    requires Skip(colon) == colon && colon != "" && colon[0] == ':'
    requires Value(colon[1..]) == Some((v, after)) && after != "" && Skip(after) == after
    ensures after[0] == '}' ==> Pairs(s) == Some(([(k, v)], after[1..]))
    ensures after[0] == ',' && Pairs(Skip(after[1..])).Some? ==>
              Pairs(s) == Some(([(k, v)] + Pairs(Skip(after[1..])).value.0, Pairs(Skip(after[1..])).value.1))
  {
    hide Value, Skip, Literal;
  }

  lemma {:induction false} ItemText(j: Json, items: seq<Json>, rest: string)
    requires j.Arr? && items != [] && forall i :: 0 <= i < |items| ==> items[i] in j.items
    ensures
      var tail := if |items| == 1 then rest else PrintItems(j, items[1..]) + rest;
      PrintItems(j, items) + rest == Print(items[0]) + ([if |items| == 1 then ']' else ','] + tail)
  {
    hide Print;
    if |items| > 1 {
      var more := PrintItems(j, items[1..]);
      hide PrintItems;
      assert Print(items[0]) + ("," + more) + rest == Print(items[0]) + ([','] + (more + rest));
    }
  }

  lemma {:induction false} ReadItems(j: Json, items: seq<Json>, rest: string)
    requires j.Arr? && Printable(j) && items != []
    requires forall i :: 0 <= i < |items| ==> items[i] in j.items
    ensures Items(PrintItems(j, items) + rest) == Some((items, rest))
    decreases j, 0, |items|
  {
    var end := if |items| == 1 then ']' else ',';
    var tail := if |items| == 1 then rest else PrintItems(j, items[1..]) + rest;
    assert Printable(items[0]);
    Lead(end, tail);
    ItemText(j, items, rest);
    assert Ends([end] + tail);
    assert items == [items[0]] + items[1..];
    assert |items| == 1 ==> items == [items[0]];
    hide *;
    ReadPrinted(items[0], [end] + tail);
    ItemsStep(PrintItems(j, items) + rest, items[0], [end] + tail);
    if |items| > 1 {
      ReadItems(j, items[1..], rest);
    }
  }

  function PairList(fields: map<string, Json>, ks: seq<string>): seq<(string, Json)>
    requires forall i :: 0 <= i < |ks| ==> ks[i] in fields
  {
    seq(|ks|, i requires 0 <= i < |ks| => (ks[i], fields[ks[i]]))
  }

  /** The text after a printed field, and the text of the field itself. */
  ghost function AfterField(j: Json, ks: seq<string>, rest: string): string
    requires j.Obj? && ks != [] && forall i :: 0 <= i < |ks| ==> ks[i] in j.fields
  {
    if |ks| == 1 then "}" + rest else "," + (PrintFields(j, ks[1..]) + rest)
  }

  /** A printed field after its opening quote. */
  ghost function FieldTail(j: Json, ks: seq<string>, rest: string): string
    requires j.Obj? && ks != [] && forall i :: 0 <= i < |ks| ==> ks[i] in j.fields
  {
    EscapeAll(ks[0]) + "\"" + FieldValue(j, ks, rest)
  }

  ghost function FieldValue(j: Json, ks: seq<string>, rest: string): string
    requires j.Obj? && ks != [] && forall i :: 0 <= i < |ks| ==> ks[i] in j.fields
  {
    [':'] + (Print(j.fields[ks[0]]) + AfterField(j, ks, rest))
  }

  lemma {:induction false} FieldText(j: Json, ks: seq<string>, rest: string)
    requires j.Obj? && ks != [] && forall i :: 0 <= i < |ks| ==> ks[i] in j.fields
    ensures PrintFields(j, ks) + rest == ['"'] + FieldTail(j, ks, rest)
  {
    hide EscapeAll, Print;
    var end := if |ks| == 1 then "}" else "," + PrintFields(j, ks[1..]);
    assert end + rest == AfterField(j, ks, rest);
    hide PrintFields;
    Regroup(EscapeAll(ks[0]), Print(j.fields[ks[0]]), end, rest);
  }

  lemma {:induction false} Regroup(key: string, value: string, end: string, rest: string)
    ensures "\"" + key + "\"" + ":" + value + end + rest == ['"'] + (key + "\"" + ([':'] + (value + (end + rest))))
  {
    var whole := "\"" + key + "\"" + ":" + value + end + rest;
    assert whole == ("\"" + key + "\"" + ":" + value) + (end + rest);
    assert whole == ("\"" + key + "\"") + (":" + (value + (end + rest)));
  }

  lemma {:induction false} ReadFieldValue(j: Json, ks: seq<string>, rest: string)
    requires j.Obj? && ks != [] && forall i :: 0 <= i < |ks| ==> ks[i] in j.fields
    ensures Literal(FieldTail(j, ks, rest)) == Some((ks[0], FieldValue(j, ks, rest)))
    ensures FieldValue(j, ks, rest)[0] == ':' && Skip(FieldValue(j, ks, rest)) == FieldValue(j, ks, rest)
    ensures FieldValue(j, ks, rest)[1..] == Print(j.fields[ks[0]]) + AfterField(j, ks, rest)
  {
    Lead(':', Print(j.fields[ks[0]]) + AfterField(j, ks, rest));
    QuoteLiteral(ks[0], FieldValue(j, ks, rest));
  }

  lemma {:induction false} ReadAfterField(j: Json, ks: seq<string>, rest: string)
    requires j.Obj? && ks != [] && forall i :: 0 <= i < |ks| ==> ks[i] in j.fields
    ensures
      var after := AfterField(j, ks, rest);
      && after != "" && Skip(after) == after && Ends(after)
      && (if |ks| == 1 then after[0] == '}' && after[1..] == rest
          else after[0] == ',' && after[1..] == PrintFields(j, ks[1..]) + rest)
  {
    hide PrintFields;
    Lead('}', rest);
    if |ks| > 1 {
      Lead(',', PrintFields(j, ks[1..]) + rest);
    }
  }

  lemma {:induction false} ReadFields(j: Json, ks: seq<string>, rest: string)
    requires j.Obj? && Printable(j) && ks != []
    requires forall i :: 0 <= i < |ks| ==> ks[i] in j.fields
    ensures Pairs(PrintFields(j, ks) + rest) == Some((PairList(j.fields, ks), rest))
    decreases j, 0, |ks|
  {
    var v := j.fields[ks[0]];
    var after := AfterField(j, ks, rest);
    assert Printable(v);
    assert !White('"');
    PairListStep(j.fields, ks);
    hide *;
    FieldText(j, ks, rest);
    Lead('"', FieldTail(j, ks, rest));
    ReadFieldValue(j, ks, rest);
    ReadAfterField(j, ks, rest);
    ReadPrinted(v, after);
    PairsStep(PrintFields(j, ks) + rest, ks[0], FieldValue(j, ks, rest), v, after);
    if |ks| > 1 {
      ReadFields(j, ks[1..], rest);
      FieldText(j, ks[1..], rest);
      Lead('"', FieldTail(j, ks[1..], rest));
    }
  }

  lemma {:induction false} PairListStep(fields: map<string, Json>, ks: seq<string>)
    requires ks != [] && forall i :: 0 <= i < |ks| ==> ks[i] in fields
    ensures PairList(fields, ks) == [(ks[0], fields[ks[0]])] + PairList(fields, ks[1..])
    ensures |ks| == 1 ==> PairList(fields, ks) == [(ks[0], fields[ks[0]])]
  {
  }

  lemma {:induction false} FromPairList(fields: map<string, Json>, ks: seq<string>)
    requires forall i :: 0 <= i < |ks| ==> ks[i] in fields
    ensures FromPairs(PairList(fields, ks)) == map k | k in ks :: fields[k]
  {
    if ks != [] {
      var n := |ks| - 1;
      assert PairList(fields, ks)[..n] == PairList(fields, ks[..n]);
      FromPairList(fields, ks[..n]);
      assert ks == ks[..n] + [ks[n]];
    }
  }

  lemma {:induction false} PairsOf(fields: map<string, Json>, ks: seq<string>)
    requires forall k :: k in ks <==> k in fields
    ensures FromPairs(PairList(fields, ks)) == fields
  {
    FromPairList(fields, ks);
  }

  /** Main result: parsing the canonical text of a value gives the value back. */
  lemma {:induction false} LoadsPrint(j: Json)
    requires Printable(j)
    ensures Loads(Print(j)) == Some(j)
  {
    ReadPrinted(j, "");
    assert Print(j) + "" == Print(j);
  }
}
