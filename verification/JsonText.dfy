/** JSON as `json.dumps` writes it, with `ensure_ascii=False` and the separators "," and ":". */
module JsonText {
  import opened Strings

  /** A number is the text it is written with. */
  datatype Json = Null | Bool(b: bool) | Num(text: string) | Str(s: string) | Arr(items: Items) | Obj(fields: Fields)
  datatype Items = NoItems | Item(head: Json, tail: Items)
  datatype Fields = NoFields | Entry(key: string, value: Json, rest: Fields)

  predicate Digital(c: char) { '0' <= c <= '9' || c == '-' || c == '+' || c == '.' || c == 'e' || c == 'E' }

  predicate IsNumber(s: string) {
    s != "" && ('0' <= s[0] <= '9' || s[0] == '-') && forall i :: 0 <= i < |s| ==> Digital(s[i])
  }

  predicate Valid(v: Json) {
    match v
    case Num(text) => IsNumber(text)
    case Arr(items) => ValidItems(items)
    case Obj(fields) => ValidFields(fields)
    case _ => true
  }

  predicate ValidItems(items: Items) { items.Item? ==> Valid(items.head) && ValidItems(items.tail) }

  predicate ValidFields(fields: Fields) { fields.Entry? ==> Valid(fields.value) && ValidFields(fields.rest) }

  // ---------------------------------------------------------------- writing

  function Hex(n: nat): char
    requires n < 16
  {
    "0123456789abcdef"[n]
  }

  function Escape(c: char): (e: string)
    ensures 1 <= |e| <= 6
  {
    if c == '"' then "\\\""
    else if c == '\\' then "\\\\"
    else if c == '\n' then "\\n"
    else if c == '\r' then "\\r"
    else if c == '\t' then "\\t"
    else if c as int == 8 then "\\b"
    else if c as int == 12 then "\\f"
    else if c < ' ' then "\\u00" + [Hex(c as int / 16), Hex(c as int % 16)]
    else [c]
  }

  function Escaped(s: string): string { if s == "" then "" else Escape(s[0]) + Escaped(s[1..]) }

  function Quoted(s: string): string { "\"" + (Escaped(s) + "\"") }

  function Write(v: Json): string
    decreases v, 0
  {
    match v
    case Null => "null"
    case Bool(b) => if b then "true" else "false"
    case Num(text) => text
    case Str(s) => Quoted(s)
    case Arr(NoItems) => "[]"
    case Arr(Item(head, tail)) => "[" + (Write(head) + WriteItems(tail))
    case Obj(NoFields) => "{}"
    case Obj(Entry(key, value, rest)) => "{" + (WriteField(key, value) + WriteFields(rest))
  }

  function WriteField(key: string, value: Json): string
    decreases value, 1
  {
    Quoted(key) + (":" + Write(value))
  }

  /** The items after the first, and the end. */
  function WriteItems(items: Items): string
    decreases items, 0
  {
    match items
    case NoItems => "]"
    case Item(head, tail) => "," + (Write(head) + WriteItems(tail))
  }

  function WriteFields(fields: Fields): string
    decreases fields, 0
  {
    match fields
    case NoFields => "}"
    case Entry(key, value, rest) => "," + (WriteField(key, value) + WriteFields(rest))
  }

  // ---------------------------------------------------------------- on one line

  lemma EscapeOneLine(c: char)
    ensures OneLine(Escape(c))
  {
    assert forall n: nat :: n < 16 ==> Hex(n) != '\n' && Hex(n) != '\r';
  }

  lemma {:induction false} EscapedOneLine(s: string)
    ensures OneLine(Escaped(s))
    decreases |s|
  {
    if s != "" {
      EscapedOneLine(s[1..]);
      EscapeOneLine(s[0]);
    }
  }

  /** Written JSON never breaks a line. */
  lemma {:induction false} WriteOneLine(v: Json)
    requires Valid(v)
    ensures OneLine(Write(v))
  {
    match v {
      case Null =>
      case Bool(_) =>
      case Num(_) =>
      case Str(s) => EscapedOneLine(s);
      case Arr(NoItems) =>
      case Arr(Item(head, tail)) =>
        WriteOneLine(head);
        ItemsOneLine(tail);
      case Obj(NoFields) =>
      case Obj(Entry(key, value, rest)) =>
        EscapedOneLine(key);
        WriteOneLine(value);
        FieldsOneLine(rest);
    }
  }

  lemma {:induction false} ItemsOneLine(items: Items)
    requires ValidItems(items)
    ensures OneLine(WriteItems(items))
  {
    if items.Item? {
      WriteOneLine(items.head);
      ItemsOneLine(items.tail);
    }
  }

  lemma {:induction false} FieldsOneLine(fields: Fields)
    requires ValidFields(fields)
    ensures OneLine(WriteFields(fields))
  {
    if fields.Entry? {
      EscapedOneLine(fields.key);
      WriteOneLine(fields.value);
      FieldsOneLine(fields.rest);
    }
  }

  // ---------------------------------------------------------------- text determines its value

  lemma Cancel(p: string, x: string, y: string)
    requires p + x == p + y
    ensures x == y
  {
    assert x == (p + x)[|p|..] && y == (p + y)[|p|..];
  }

  lemma Regroup(p: string, s: string, x: string)
    ensures p + s + x == p + (s + x)
  {
  }

  lemma EscapeStarts(c: char)
    ensures Escape(c)[0] != '"' && (Escape(c)[0] == '\\' || Escape(c) == [c])
  {
  }

  lemma HexDiffers(m: nat, n: nat)
    requires m < 16 && n < 16
    ensures Hex(m) == Hex(n) <==> m == n
  {
  }

  /** No escape is the beginning of another. */
  lemma EscapePeel(a: char, b: char, x: string, y: string)
    requires Escape(a) + x == Escape(b) + y
    ensures a == b && x == y
  {
    var s, t := Escape(a) + x, Escape(b) + y;
    assert s[0] == Escape(a)[0] && t[0] == Escape(b)[0];
    if s[0] == '\\' {
      assert s[1] == Escape(a)[1] && t[1] == Escape(b)[1];
      if s[1] == 'u' {
        assert s[4] == Escape(a)[4] && s[5] == Escape(a)[5] && t[4] == Escape(b)[4] && t[5] == Escape(b)[5];
        HexDiffers(a as int / 16, b as int / 16);
        HexDiffers(a as int % 16, b as int % 16);
      }
    }
    assert a == b;
    Cancel(Escape(a), x, y);
  }

  lemma EscapedOpens(a: string, x: string)
    ensures
      var s := Escaped(a) + ("\"" + x);
      && (s[0] == '"' <==> a == "")
      && (a == "" ==> s == "\"" + x)
      && (a != "" ==> s == Escape(a[0]) + (Escaped(a[1..]) + ("\"" + x)))
  {
    if a == "" {
      assert Escaped(a) + ("\"" + x) == "\"" + x;
    } else {
      EscapeStarts(a[0]);
      assert Escape(a[0]) + Escaped(a[1..]) + ("\"" + x) == Escape(a[0]) + (Escaped(a[1..]) + ("\"" + x));
    }
  }

  lemma {:induction false} EscapedPeel(a: string, b: string, x: string, y: string)
    requires Escaped(a) + ("\"" + x) == Escaped(b) + ("\"" + y)
    ensures a == b && x == y
    decreases |a|
  {
    EscapedOpens(a, x);
    EscapedOpens(b, y);
    if a == "" {
      Cancel("\"", x, y);
    } else {
      EscapePeel(a[0], b[0], Escaped(a[1..]) + ("\"" + x), Escaped(b[1..]) + ("\"" + y));
      EscapedPeel(a[1..], b[1..], x, y);
      assert a == [a[0]] + a[1..] && b == [b[0]] + b[1..];
    }
  }

  lemma QuotedOpens(a: string, x: string)
    ensures Quoted(a) + x == "\"" + (Escaped(a) + ("\"" + x))
  {
    var e := Escaped(a);
    assert "\"" + (e + "\"") + x == "\"" + (e + ("\"" + x));
  }

  lemma QuotedPeel(a: string, b: string, x: string, y: string)
    requires Quoted(a) + x == Quoted(b) + y
    ensures a == b && x == y
  {
    QuotedOpens(a, x);
    QuotedOpens(b, y);
    Cancel("\"", Escaped(a) + ("\"" + x), Escaped(b) + ("\"" + y));
    EscapedPeel(a, b, x, y);
  }

  /** What may follow a value. */
  predicate Delimits(x: string) { x == "" || x[0] == ',' || x[0] == ']' || x[0] == '}' }

  lemma DigitsOpen(a: string, x: string)
    requires (forall i :: 0 <= i < |a| ==> Digital(a[i])) && Delimits(x)
    ensures a == "" <==> a + x == "" || !Digital((a + x)[0])
    ensures a == "" ==> a + x == x
    ensures a != "" ==> (a + x)[0] == a[0] && (a + x)[1..] == a[1..] + x
  {
    if a == "" { assert a + x == x; }
  }

  lemma {:induction false} NumberPeel(a: string, b: string, x: string, y: string)
    requires (forall i :: 0 <= i < |a| ==> Digital(a[i])) && (forall i :: 0 <= i < |b| ==> Digital(b[i]))
    requires Delimits(x) && Delimits(y) && a + x == b + y
    ensures a == b && x == y
    decreases |a|
  {
    DigitsOpen(a, x);
    DigitsOpen(b, y);
    if a != "" {
      NumberPeel(a[1..], b[1..], x, y);
      assert a == [a[0]] + a[1..] && b == [b[0]] + b[1..];
    }
  }

  datatype Kind = Word | Number | Text | List | Record

  function KindOf(v: Json): Kind {
    match v
    case Null => Word
    case Bool(_) => Word
    case Num(_) => Number
    case Str(_) => Text
    case Arr(_) => List
    case Obj(_) => Record
  }

  /** The first character tells the kind of a value. */
  function KindAt(c: char): Kind {
    if c == '"' then Text else if c == '[' then List else if c == '{' then Record
    else if '0' <= c <= '9' || c == '-' then Number else Word
  }

  lemma WriteOpens(v: Json)
    requires Valid(v)
    ensures Write(v) != "" && KindAt(Write(v)[0]) == KindOf(v)
  {
  }

  lemma WordPeel(a: Json, b: Json, x: string, y: string)
    requires KindOf(a) == KindOf(b) == Word && Write(a) + x == Write(b) + y
    ensures a == b && x == y
  {
    assert (Write(a) + x)[0] == Write(a)[0] && (Write(b) + y)[0] == Write(b)[0];
    assert a == b;
    Cancel(Write(a), x, y);
  }

  /** No written value is the beginning of another: what has been written is the only value it can be read as. */
  lemma {:induction false} WritePeel(a: Json, b: Json, x: string, y: string)
    requires Valid(a) && Valid(b) && Delimits(x) && Delimits(y) && Write(a) + x == Write(b) + y
    ensures a == b && x == y
    decreases a
  {
    WriteOpens(a);
    WriteOpens(b);
    assert (Write(a) + x)[0] == Write(a)[0] && (Write(b) + y)[0] == Write(b)[0];
    match KindOf(a) {
      case Word => WordPeel(a, b, x, y);
      case Number => NumberPeel(a.text, b.text, x, y);
      case Text => QuotedPeel(a.s, b.s, x, y);
      case List => ListPeel(a.items, b.items, x, y);
      case Record => RecordPeel(a.fields, b.fields, x, y);
    }
  }

  /** Items as they stand after the opening bracket, the first without a comma. */
  function FirstItems(items: Items): string {
    if items.NoItems? then "]" else Write(items.head) + WriteItems(items.tail)
  }

  lemma {:induction false} ListPeel(a: Items, b: Items, x: string, y: string)
    requires ValidItems(a) && ValidItems(b) && Delimits(x) && Delimits(y) && Write(Arr(a)) + x == Write(Arr(b)) + y
    ensures a == b && x == y
    decreases a, 1
  {
    ListOpens(a, x);
    ListOpens(b, y);
    Cancel("[", FirstItems(a) + x, FirstItems(b) + y);
    FirstItem(a, x);
    FirstItem(b, y);
    if a.Item? && b.Item? { ItemPeel(a, b, x, y); } else { Cancel("]", x, y); }
  }

  lemma ListOpens(items: Items, x: string)
    ensures Write(Arr(items)) + x == "[" + (FirstItems(items) + x)
  {
    assert Write(Arr(items)) == "[" + FirstItems(items);
    Regroup("[", FirstItems(items), x);
  }

  lemma FirstItem(items: Items, x: string)
    requires ValidItems(items)
    ensures
      var s := FirstItems(items) + x;
      && s != "" && (s[0] == ']' <==> items.NoItems?)
      && (items.Item? ==> s == Write(items.head) + (WriteItems(items.tail) + x))
  {
    if items.Item? {
      WriteOpens(items.head);
      assert Write(items.head) + WriteItems(items.tail) + x == Write(items.head) + (WriteItems(items.tail) + x);
    }
  }

  lemma {:induction false} ItemPeel(a: Items, b: Items, x: string, y: string)
    requires a.Item? && b.Item? && ValidItems(a) && ValidItems(b) && Delimits(x) && Delimits(y)
    requires Write(a.head) + (WriteItems(a.tail) + x) == Write(b.head) + (WriteItems(b.tail) + y)
    ensures a == b && x == y
    decreases a, 0
  {
    assert Delimits(WriteItems(a.tail) + x) && Delimits(WriteItems(b.tail) + y);
    WritePeel(a.head, b.head, WriteItems(a.tail) + x, WriteItems(b.tail) + y);
    ItemsPeel(a.tail, b.tail, x, y);
  }

  lemma {:induction false} ItemsPeel(a: Items, b: Items, x: string, y: string)
    requires ValidItems(a) && ValidItems(b) && Delimits(x) && Delimits(y) && WriteItems(a) + x == WriteItems(b) + y
    ensures a == b && x == y
    decreases a, 1
  {
    assert (WriteItems(a) + x)[0] == WriteItems(a)[0] && (WriteItems(b) + y)[0] == WriteItems(b)[0];
    if a.Item? && b.Item? {
      MoreItems(a, x);
      MoreItems(b, y);
      Cancel(",", Write(a.head) + (WriteItems(a.tail) + x), Write(b.head) + (WriteItems(b.tail) + y));
      ItemPeel(a, b, x, y);
    } else {
      Cancel("]", x, y);
    }
  }

  lemma MoreItems(items: Items, x: string)
    requires items.Item?
    ensures WriteItems(items) + x == "," + (Write(items.head) + (WriteItems(items.tail) + x))
  {
    var h, t := Write(items.head), WriteItems(items.tail);
    assert "," + (h + t) + x == "," + (h + (t + x));
  }

  function FirstFields(fields: Fields): string {
    if fields.NoFields? then "}" else WriteField(fields.key, fields.value) + WriteFields(fields.rest)
  }

  lemma {:induction false} RecordPeel(a: Fields, b: Fields, x: string, y: string)
    requires ValidFields(a) && ValidFields(b) && Delimits(x) && Delimits(y) && Write(Obj(a)) + x == Write(Obj(b)) + y
    ensures a == b && x == y
    decreases a, 1
  {
    RecordOpens(a, x);
    RecordOpens(b, y);
    Cancel("{", FirstFields(a) + x, FirstFields(b) + y);
    FirstField(a, x);
    FirstField(b, y);
    if a.Entry? && b.Entry? { FieldPeel(a, b, x, y); } else { Cancel("}", x, y); }
  }

  lemma RecordOpens(fields: Fields, x: string)
    ensures Write(Obj(fields)) + x == "{" + (FirstFields(fields) + x)
  {
    assert Write(Obj(fields)) == "{" + FirstFields(fields);
    Regroup("{", FirstFields(fields), x);
  }

  lemma FieldSpells(fields: Fields, x: string)
    requires fields.Entry?
    ensures WriteField(fields.key, fields.value) + WriteFields(fields.rest) + x == Spelt(fields, x)
  {
    var k, v, r := Quoted(fields.key), Write(fields.value), WriteFields(fields.rest);
    Regroup(k + (":" + v), r, x);
    Regroup(k, ":" + v, r + x);
    Regroup(":", v, r + x);
  }

  /** A field, the fields after it, and what follows them. */
  function Spelt(fields: Fields, x: string): string
    requires fields.Entry?
  {
    Quoted(fields.key) + (":" + (Write(fields.value) + (WriteFields(fields.rest) + x)))
  }

  lemma FirstField(fields: Fields, x: string)
    ensures
      var s := FirstFields(fields) + x;
      && s != "" && (s[0] == '}' <==> fields.NoFields?)
      && (fields.Entry? ==> s == Spelt(fields, x))
  {
    if fields.Entry? { FieldSpells(fields, x); }
  }

  lemma {:induction false} FieldPeel(a: Fields, b: Fields, x: string, y: string)
    requires a.Entry? && b.Entry? && ValidFields(a) && ValidFields(b) && Delimits(x) && Delimits(y)
    requires Spelt(a, x) == Spelt(b, y)
    ensures a == b && x == y
    decreases a, 0
  {
    var m, n := Write(a.value) + (WriteFields(a.rest) + x), Write(b.value) + (WriteFields(b.rest) + y);
    QuotedPeel(a.key, b.key, ":" + m, ":" + n);
    Cancel(":", m, n);
    assert Delimits(WriteFields(a.rest) + x) && Delimits(WriteFields(b.rest) + y);
    WritePeel(a.value, b.value, WriteFields(a.rest) + x, WriteFields(b.rest) + y);
    FieldsPeel(a.rest, b.rest, x, y);
  }

  lemma {:induction false} FieldsPeel(a: Fields, b: Fields, x: string, y: string)
    requires ValidFields(a) && ValidFields(b) && Delimits(x) && Delimits(y) && WriteFields(a) + x == WriteFields(b) + y
    ensures a == b && x == y
    decreases a, 1
  {
    assert (WriteFields(a) + x)[0] == WriteFields(a)[0] && (WriteFields(b) + y)[0] == WriteFields(b)[0];
    if a.Entry? && b.Entry? {
      MoreFields(a, x);
      MoreFields(b, y);
      Cancel(",", Spelt(a, x), Spelt(b, y));
      FieldPeel(a, b, x, y);
    } else {
      Cancel("}", x, y);
    }
  }

  lemma MoreFields(fields: Fields, x: string)
    requires fields.Entry?
    ensures WriteFields(fields) + x == "," + Spelt(fields, x)
  {
    FieldSpells(fields, x);
    Regroup(",", WriteField(fields.key, fields.value) + WriteFields(fields.rest), x);
  }

  /** Written JSON can be read back. */
  lemma TextsDiffer(a: Json, b: Json)
    requires Valid(a) && Valid(b)
    ensures Write(a) == Write(b) <==> a == b
  {
    if Write(a) == Write(b) {
      assert Write(a) + "" == Write(a) && Write(b) + "" == Write(b);
      WritePeel(a, b, "", "");
    }
  }

  // ---------------------------------------------------------------- length

  /** Printable ASCII that needs no escape. */
  predicate Simple(s: string) { forall i :: 0 <= i < |s| ==> ' ' <= s[i] <= '~' && s[i] != '"' && s[i] != '\\' }

  predicate SimpleJson(v: Json) {
    match v
    case Num(text) => IsNumber(text)
    case Str(s) => Simple(s)
    case Arr(items) => SimpleItems(items)
    case Obj(fields) => SimpleFields(fields)
    case _ => true
  }

  predicate SimpleItems(items: Items) { items.Item? ==> SimpleJson(items.head) && SimpleItems(items.tail) }

  predicate SimpleFields(fields: Fields) {
    fields.Entry? ==> Simple(fields.key) && SimpleJson(fields.value) && SimpleFields(fields.rest)
  }

  /** Characters as written: every item and field is followed by one more, a comma or the end. */
  function Length(v: Json): nat {
    match v
    case Null => 4
    case Bool(b) => if b then 4 else 5
    case Num(text) => |text|
    case Str(s) => |s| + 2
    case Arr(items) => if items.NoItems? then 2 else 1 + ItemsLength(items)
    case Obj(fields) => if fields.NoFields? then 2 else 1 + FieldsLength(fields)
  }

  function ItemsLength(items: Items): nat {
    if items.NoItems? then 0 else Length(items.head) + 1 + ItemsLength(items.tail)
  }

  function FieldsLength(fields: Fields): nat {
    if fields.NoFields? then 0 else |fields.key| + 3 + Length(fields.value) + 1 + FieldsLength(fields.rest)
  }

  lemma {:induction false} EscapedSimple(s: string)
    requires Simple(s)
    ensures Escaped(s) == s
    decreases |s|
  {
    if s != "" {
      EscapedSimple(s[1..]);
      assert Escape(s[0]) == [s[0]] && [s[0]] + s[1..] == s;
    }
  }

  lemma QuotedSimple(s: string)
    requires Simple(s)
    ensures |Quoted(s)| == Width(Quoted(s)) == |s| + 2
  {
    EscapedSimple(s);
    WidthAscii(Quoted(s));
  }

  lemma {:induction false} WriteLength(v: Json)
    requires SimpleJson(v)
    ensures Width(Write(v)) == Length(v)
    decreases v, 0
  {
    match v {
      case Null => WidthAscii("null");
      case Bool(b) => WidthAscii(if b then "true" else "false");
      case Num(text) => WidthAscii(text);
      case Str(s) => QuotedSimple(s);
      case Arr(NoItems) => WidthAscii("[]");
      case Arr(Item(head, tail)) =>
        WriteLength(head);
        WriteItemsLength(tail);
        WidthOf("[", Write(head), WriteItems(tail));
      case Obj(NoFields) => WidthAscii("{}");
      case Obj(Entry(key, value, rest)) =>
        WriteFieldLength(key, value);
        WriteFieldsLength(rest);
        WidthOf("{", WriteField(key, value), WriteFields(rest));
    }
  }

  lemma WidthOf(p: string, s: string, t: string)
    requires |p| == 1 && Ascii(p)
    ensures Width(p + (s + t)) == 1 + Width(s) + Width(t)
  {
    WidthAscii(p);
    WidthJoins(p, s + t);
    WidthJoins(s, t);
  }

  lemma {:induction false} WriteFieldLength(key: string, value: Json)
    requires Simple(key) && SimpleJson(value)
    ensures Width(WriteField(key, value)) == |key| + 3 + Length(value)
    decreases value, 1
  {
    QuotedSimple(key);
    WriteLength(value);
    WidthAscii(":");
    WidthJoins(":", Write(value));
    WidthJoins(Quoted(key), ":" + Write(value));
  }

  lemma {:induction false} WriteItemsLength(items: Items)
    requires SimpleItems(items)
    ensures Width(WriteItems(items)) == 1 + ItemsLength(items)
    decreases items, 0
  {
    if items.NoItems? {
      WidthAscii("]");
    } else {
      WriteLength(items.head);
      WriteItemsLength(items.tail);
      WidthOf(",", Write(items.head), WriteItems(items.tail));
    }
  }

  lemma {:induction false} WriteFieldsLength(fields: Fields)
    requires SimpleFields(fields)
    ensures Width(WriteFields(fields)) == 1 + FieldsLength(fields)
    decreases fields, 0
  {
    if fields.NoFields? {
      WidthAscii("}");
    } else {
      WriteFieldLength(fields.key, fields.value);
      WriteFieldsLength(fields.rest);
      WidthOf(",", WriteField(fields.key, fields.value), WriteFields(fields.rest));
    }
  }
}
