/** Printing and walking pointers into a workflow document (definitions.py; RFC 6901 sections 3 and 4). */
module JsonPointers {
  import opened Prelude
  import opened Strings
  import opened EventMatching

  // ---------------------------------------------------------------- token escaping

  /** `s.replace(c, with)` for one character. */
  function ReplaceChar(s: string, c: char, with: string): string {
    if s == "" then "" else (if s[0] == c then with else [s[0]]) + ReplaceChar(s[1..], c, with)
  }

  /** `s.replace(a + b, with)`: leftmost occurrences, without overlap. */
  function ReplacePair(s: string, a: char, b: char, with: string): string {
    if s == "" then ""
    else if |s| >= 2 && s[0] == a && s[1] == b then with + ReplacePair(s[2..], a, b, with)
    else [s[0]] + ReplacePair(s[1..], a, b, with)
  }

  function PointerToken(s: string): string { ReplaceChar(ReplaceChar(s, '~', "~0"), '/', "~1") }

  function Unescape(s: string): string { ReplacePair(ReplacePair(s, '~', '1', "/"), '~', '0', "~") }

  /** Character by character, what `pointer_token` writes. */
  function Escaped(s: string): string {
    if s == "" then "" else (if s[0] == '~' then "~0" else if s[0] == '/' then "~1" else [s[0]]) + Escaped(s[1..])
  }

  lemma {:induction false} ReplaceCharJoins(s: string, t: string, c: char, with: string)
    ensures ReplaceChar(s + t, c, with) == ReplaceChar(s, c, with) + ReplaceChar(t, c, with)
  {
    if s == "" {
      assert s + t == t;
    } else {
      assert (s + t)[1..] == s[1..] + t;
      ReplaceCharJoins(s[1..], t, c, with);
    }
  }

  lemma {:induction false} TokenIsEscaped(s: string)
    ensures PointerToken(s) == Escaped(s)
  {
    if s != "" {
      TokenIsEscaped(s[1..]);
      var first := if s[0] == '~' then "~0" else [s[0]];
      var rest := ReplaceChar(s[1..], '~', "~0");
      ReplaceCharJoins(first, rest, '/', "~1");
      assert first[1..] == "" || first[1..] == "0";
      assert ReplaceChar("0", '/', "~1") == "0" by { assert "0"[1..] == ""; }
    }
  }

  lemma {:induction false} NoSlash(s: string)
    ensures '/' !in PointerToken(s)
  {
    TokenIsEscaped(s);
    if s != "" { TokenIsEscaped(s[1..]); NoSlash(s[1..]); }
  }

  /** Undoing ~1 leaves the tildes still escaped. */
  lemma {:induction false} UndoSlashes(s: string)
    ensures ReplacePair(Escaped(s), '~', '1', "/") == ReplaceChar(s, '~', "~0")
  {
    if s != "" {
      UndoSlashes(s[1..]);
      var rest := Escaped(s[1..]);
      if s[0] == '~' {
        assert Escaped(s) == "~0" + rest && ("~0" + rest)[1..] == "0" + rest && ("0" + rest)[1..] == rest;
      } else if s[0] == '/' {
        assert Escaped(s) == "~1" + rest && ("~1" + rest)[2..] == rest;
      } else {
        assert Escaped(s) == [s[0]] + rest && ([s[0]] + rest)[1..] == rest;
      }
    }
  }

  lemma {:induction false} UndoTildes(s: string)
    ensures ReplacePair(ReplaceChar(s, '~', "~0"), '~', '0', "~") == s
  {
    if s != "" {
      UndoTildes(s[1..]);
      var rest := ReplaceChar(s[1..], '~', "~0");
      if s[0] == '~' {
        assert ("~0" + rest)[2..] == rest;
      } else {
        assert ([s[0]] + rest)[1..] == rest;
      }
    }
  }

  /** Undoing ~1 and then ~0 inverts the escaping of every string. */
  lemma TokenRoundTrip(s: string)
    ensures Unescape(PointerToken(s)) == s
  {
    TokenIsEscaped(s);
    UndoSlashes(s);
    UndoTildes(s);
  }

  // ---------------------------------------------------------------- tokens and text

  /** A pointer: each token after a slash. */
  function Print(tokens: seq<string>): string {
    if tokens == [] then "" else "/" + tokens[0] + Print(tokens[1..])
  }

  function LeftStrip(s: string): string { if s != "" && s[0] == '/' then LeftStrip(s[1..]) else s }

  /** The tokens read from a pointer: the code strips leading slashes and splits at the others. */
  function Tokens(text: string): seq<string> { Split(LeftStrip(text), '/') }

  ghost predicate Slashless(tokens: seq<string>) {
    forall i :: 0 <= i < |tokens| ==> '/' !in tokens[i]
  }

  lemma {:induction false} PrintStep(tokens: seq<string>)
    requires tokens != []
    ensures Print(tokens) != "" && Print(tokens)[0] == '/' && Print(tokens)[1..] == tokens[0] + Print(tokens[1..])
  {
  }

  lemma {:induction false} SplitPrint(tokens: seq<string>)
    requires Slashless(tokens) && tokens != []
    ensures Split(Print(tokens)[1..], '/') == tokens
  {
    PrintStep(tokens);
    if tokens[1..] != [] {
      PrintStep(tokens[1..]);
      SplitPrint(tokens[1..]);
    }
    SplitJoins(tokens[0], Print(tokens[1..]), '/');
  }

  lemma {:induction false} StripShortens(s: string)
    ensures |LeftStrip(s)| <= |s| && (s != "" && s[0] == '/' ==> |LeftStrip(s)| < |s|)
  {
    if s != "" && s[0] == '/' { StripShortens(s[1..]); }
  }

  lemma {:induction false} SplitLength(s: string)
    ensures TextLength(Split(s, '/')) == |s| + 1
  {
    if s != "" { SplitLength(s[1..]); }
  }

  function TextLength(tokens: seq<string>): nat {
    if tokens == [] then 0 else |tokens[0]| + 1 + TextLength(tokens[1..])
  }

  lemma {:induction false} PrintLength(tokens: seq<string>)
    ensures |Print(tokens)| == TextLength(tokens)
  {
    if tokens != [] { PrintLength(tokens[1..]); }
  }

  /** With an empty first token and more after it, stripping leading slashes loses text. */
  lemma EmptyFirstLost(tokens: seq<string>)
    requires tokens != [] && tokens[0] == "" && tokens[1..] != []
    ensures Tokens(Print(tokens)) != tokens
  {
    PrintStep(tokens);
    PrintStep(tokens[1..]);
    StripShortens(Print(tokens)[1..]);
    SplitLength(LeftStrip(Print(tokens)));
    PrintLength(tokens);
  }

  lemma FirstTokenKept(tokens: seq<string>)
    requires Slashless(tokens) && tokens != [] && tokens[0] != ""
    ensures Tokens(Print(tokens)) == tokens
  {
    PrintStep(tokens);
    assert LeftStrip(Print(tokens)) == Print(tokens)[1..];
    SplitPrint(tokens);
  }

  /** Reading a printed pointer gives its tokens back exactly when there is a first token and it is not empty, or is all
      there is. The empty pointer, which names the whole document, is read as the member "". */
  lemma PointerRoundTrip(tokens: seq<string>)
    requires Slashless(tokens)
    ensures Tokens(Print(tokens)) == tokens <==> tokens != [] && (tokens[0] != "" || tokens == [""])
  {
    if tokens == [] {
    } else if tokens[0] != "" {
      FirstTokenKept(tokens);
    } else if tokens[1..] != [] {
      EmptyFirstLost(tokens);
    } else {
      assert tokens == [""];
      assert Print([""]) == "/";
    }
  }

  // ---------------------------------------------------------------- list indices

  function Digit(n: nat): char
    requires n < 10
  {
    ('0' as int + n) as char
  }

  function ToDecimal(n: nat): string { if n < 10 then [Digit(n)] else ToDecimal(n / 10) + [Digit(n % 10)] }

  predicate IsDecimal(s: string) { s != "" && forall i :: 0 <= i < |s| ==> '0' <= s[i] <= '9' }

  function FromDecimal(s: string): nat
    requires forall i :: 0 <= i < |s| ==> '0' <= s[i] <= '9'
  {
    if s == "" then 0 else 10 * FromDecimal(s[..|s| - 1]) + (s[|s| - 1] as int - '0' as int)
  }

  lemma AppendDigit(s: string, d: nat)
    requires IsDecimal(s) && d < 10
    ensures IsDecimal(s + [Digit(d)]) && FromDecimal(s + [Digit(d)]) == 10 * FromDecimal(s) + d
  {
    assert (s + [Digit(d)])[..|s|] == s;
  }

  lemma {:induction false} DecimalRoundTrip(n: nat)
    ensures IsDecimal(ToDecimal(n)) && FromDecimal(ToDecimal(n)) == n
  {
    if n < 10 {
      assert [Digit(n)][..0] == "";
    } else {
      var high, low := n / 10, n % 10;
      DecimalRoundTrip(high);
      AppendDigit(ToDecimal(high), low);
      assert n == 10 * high + low;
    }
  }

  // ---------------------------------------------------------------- walking

  /** One token: a member, an item, or nothing. */
  function Look(v: Json, name: string): Json {
    if v.Obj? then if name in v.fields then v.fields[name] else Null
    else if v.Arr? && IsDecimal(name) && FromDecimal(name) < |v.items| then v.items[FromDecimal(name)]
    else Null
  }

  function Descend(v: Json, keys: seq<string>): Json
    decreases |keys|
  {
    if keys == [] then v else Descend(Look(v, keys[0]), keys[1..])
  }

  function Unescaped(tokens: seq<string>): seq<string> {
    seq(|tokens|, i requires 0 <= i < |tokens| => Unescape(tokens[i]))
  }

  lemma {:induction false} NothingBelow(keys: seq<string>)
    ensures Descend(Null, keys) == Null
  {
    if keys != [] { NothingBelow(keys[1..]); }
  }

  method DefinitionAtPointer(source: Json, reference: string) returns (value: Json)
    ensures value == Descend(source, Unescaped(Tokens(reference)))
  {
    var tokens := Tokens(reference);
    ghost var names := Unescaped(tokens);
    value := source;
    var i := 0;
    while i < |tokens|
      invariant 0 <= i <= |tokens| && Descend(source, names) == Descend(value, names[i..])
    {
      var name := Unescape(tokens[i]);
      assert names[i..][0] == name && names[i..][1..] == names[i + 1..];
      if value.Obj? {
        value := if name in value.fields then value.fields[name] else Null;
      } else if value.Arr? && IsDecimal(name) {
        value := if FromDecimal(name) < |value.items| then value.items[FromDecimal(name)] else Null;
      } else {
        NothingBelow(names[i + 1..]);
        return Null;
      }
      i := i + 1;
    }
  }

  /** The empty pointer does not lead to the document: the code looks up the member "" of it. */
  lemma EmptyPointerMisread(source: Json)
    ensures Descend(source, Unescaped(Tokens(Print([])))) == Look(source, "")
  {
    assert Unescaped([""]) == [""] && [""][1..] == [];
    assert Descend(source, [""]) == Descend(Look(source, ""), []);
  }

  function Escapes(keys: seq<string>): seq<string> {
    seq(|keys|, i requires 0 <= i < |keys| => PointerToken(keys[i]))
  }

  /** Walking the pointer printed for any keys follows those keys. */
  lemma WalkFollows(keys: seq<string>)
    requires keys != [] && keys[0] != ""
    ensures Unescaped(Tokens(Print(Escapes(keys)))) == keys
  {
    var tokens := Escapes(keys);
    forall i | 0 <= i < |tokens| ensures '/' !in tokens[i] && Unescape(tokens[i]) == keys[i] {
      NoSlash(keys[i]);
      TokenRoundTrip(keys[i]);
    }
    TokenIsEscaped(keys[0]);
    PointerRoundTrip(tokens);
    assert Unescaped(tokens) == keys;
  }

  // ---------------------------------------------------------------- nested tasks

  /** Where a task holds a list of further tasks. */
  datatype Section = Do | Try | CatchDo | ForeachDo | Branches

  datatype Step = Step(section: Section, index: nat, name: string)

  function SectionKeys(s: Section): seq<string> {
    match s
    case Do => ["do"]
    case Try => ["try"]
    case CatchDo => ["catch", "do"]
    case ForeachDo => ["foreach", "do"]
    case Branches => ["fork", "branches"]
  }

  /** The list in a section the resolver visits; a foreach counts only beside a listen. */
  function Items(v: Json, s: Section): seq<Json> {
    if s == ForeachDo && !(v.Obj? && "listen" in v.fields) then []
    else
      var list := Descend(v, SectionKeys(s));
      if list.Arr? then list.items else []
  }

  function ChildAt(v: Json, s: Step): Option<Json> {
    if s.index < |Items(v, s.section)| && Items(v, s.section)[s.index].Obj?
       && s.name in Items(v, s.section)[s.index].fields
    then Some(Items(v, s.section)[s.index].fields[s.name])
    else None
  }

  /** The definition that the resolver reaches by these steps. */
  function TaskAt(v: Json, steps: seq<Step>): Option<Json>
    decreases |steps|
  {
    if steps == [] then Some(v)
    else match ChildAt(v, steps[0])
      case None => None
      case Some(c) => TaskAt(c, steps[1..])
  }

  /** What one step adds to a reference. */
  function StepText(s: Step): string {
    Print(SectionKeys(s.section)) + "/" + ToDecimal(s.index) + "/" + PointerToken(s.name)
  }

  /** The reference that the resolver builds on the way, adding each step's text in turn. */
  function Extended(prefix: string, steps: seq<Step>, text: Step -> string): string
    decreases |steps|
  {
    if steps == [] then prefix else Extended(prefix + text(steps[0]), steps[1..], text)
  }

  function Reference(prefix: string, steps: seq<Step>): string { Extended(prefix, steps, StepText) }

  function StepKeys(s: Step): seq<string> { SectionKeys(s.section) + [ToDecimal(s.index), s.name] }

  function Gathered(steps: seq<Step>, keys: Step -> seq<string>): seq<string>
    decreases |steps|
  {
    if steps == [] then [] else keys(steps[0]) + Gathered(steps[1..], keys)
  }

  function Keys(steps: seq<Step>): seq<string> { Gathered(steps, StepKeys) }

  lemma {:induction false} DescendJoins(v: Json, a: seq<string>, b: seq<string>)
    ensures Descend(v, a + b) == Descend(Descend(v, a), b)
    decreases |a|
  {
    if a == [] {
      assert a + b == b;
    } else {
      assert (a + b)[1..] == a[1..] + b;
      DescendJoins(Look(v, a[0]), a[1..], b);
    }
  }

  lemma ChildIsBelow(v: Json, s: Step, c: Json)
    requires ChildAt(v, s) == Some(c)
    ensures Descend(v, StepKeys(s)) == c
  {
    var list := Descend(v, SectionKeys(s.section));
    DescendJoins(v, SectionKeys(s.section), [ToDecimal(s.index), s.name]);
    DecimalRoundTrip(s.index);
    var item := Look(list, ToDecimal(s.index));
    assert [ToDecimal(s.index), s.name][1..] == [s.name] && [s.name][1..] == [];
    assert Descend(list, [ToDecimal(s.index), s.name]) == Descend(item, [s.name]);
    assert Descend(item, [s.name]) == Descend(Look(item, s.name), []);
  }

  lemma {:induction false} TaskIsBelow(v: Json, steps: seq<Step>, w: Json)
    requires TaskAt(v, steps) == Some(w)
    ensures Descend(v, Keys(steps)) == w
    decreases |steps|
  {
    if steps != [] {
      var c := ChildAt(v, steps[0]).value;
      ChildIsBelow(v, steps[0], c);
      TaskIsBelow(c, steps[1..], w);
      DescendJoins(v, StepKeys(steps[0]), Keys(steps[1..]));
    }
  }

  // ---------------------------------------------------------------- references lead to their tasks

  predicate Plain(s: string) { forall i :: 0 <= i < |s| ==> s[i] != '~' && s[i] != '/' }

  lemma {:induction false} PlainToken(s: string)
    requires Plain(s)
    ensures PointerToken(s) == s
  {
    TokenIsEscaped(s);
    if s != "" {
      TokenIsEscaped(s[1..]);
      PlainToken(s[1..]);
    }
  }

  lemma {:induction false} PrintJoins(a: seq<string>, b: seq<string>)
    ensures Print(a + b) == Print(a) + Print(b)
    decreases |a|
  {
    if a == [] {
      assert a + b == b;
    } else {
      assert (a + b)[1..] == a[1..] + b;
      PrintJoins(a[1..], b);
    }
  }

  lemma EscapesJoins(a: seq<string>, b: seq<string>)
    ensures Escapes(a + b) == Escapes(a) + Escapes(b)
  {
  }

  ghost predicate AllPlain(keys: seq<string>) { forall i :: 0 <= i < |keys| ==> Plain(keys[i]) }

  lemma PlainEscapes(keys: seq<string>)
    requires AllPlain(keys)
    ensures Escapes(keys) == keys
  {
    forall i | 0 <= i < |keys| ensures PointerToken(keys[i]) == keys[i] { PlainToken(keys[i]); }
  }

  lemma SectionPlain(s: Section)
    ensures AllPlain(SectionKeys(s))
  {
  }

  lemma PrintPair(a: string, b: string)
    ensures Print([a, b]) == "/" + a + "/" + b
  {
    assert [a, b][1..] == [b] && [b][1..] == [];
    assert Print([b]) == "/" + b + Print([]);
    assert Print([a, b]) == "/" + a + Print([b]);
  }

  lemma StepPrintsOver(keys: seq<string>, index: string, name: string)
    requires AllPlain(keys) && Plain(index)
    ensures Print(Escapes(keys + [index, name])) == Print(keys) + "/" + index + "/" + PointerToken(name)
  {
    var token := PointerToken(name);
    EscapesJoins(keys, [index, name]);
    PlainEscapes(keys);
    PlainToken(index);
    assert Escapes([index, name]) == [index, token];
    PrintJoins(keys, [index, token]);
    PrintPair(index, token);
  }

  lemma StepPrints(s: Step)
    ensures Print(Escapes(StepKeys(s))) == StepText(s)
  {
    SectionPlain(s.section);
    DecimalRoundTrip(s.index);
    StepPrintsOver(SectionKeys(s.section), ToDecimal(s.index), s.name);
  }

  lemma {:induction false} ExtendedPrints(above: seq<string>, steps: seq<Step>, text: Step -> string,
                                          keys: Step -> seq<string>)
    requires forall s :: Print(Escapes(keys(s))) == text(s)
    ensures Extended(Print(Escapes(above)), steps, text) == Print(Escapes(above + Gathered(steps, keys)))
    decreases |steps|
  {
    if steps == [] {
      assert above + Gathered(steps, keys) == above;
    } else {
      var next := above + keys(steps[0]);
      EscapesJoins(above, keys(steps[0]));
      PrintJoins(Escapes(above), Escapes(keys(steps[0])));
      ExtendedPrints(next, steps[1..], text, keys);
      assert next + Gathered(steps[1..], keys) == above + Gathered(steps, keys);
    }
  }

  lemma ReferencePrints(above: seq<string>, steps: seq<Step>)
    ensures Reference(Print(Escapes(above)), steps) == Print(Escapes(above + Keys(steps)))
  {
    forall s ensures Print(Escapes(StepKeys(s))) == StepText(s) { StepPrints(s); }
    ExtendedPrints(above, steps, StepText, StepKeys);
  }

  /** The reference built for any task of the workflow leads back to that task. */
  lemma MainTaskFound(source: Json, steps: seq<Step>, w: Json)
    requires steps != [] && steps[0].section == Do && TaskAt(source, steps) == Some(w)
    ensures Descend(source, Unescaped(Tokens(Reference("", steps)))) == w
  {
    ReferencePrints([], steps);
    assert [] + Keys(steps) == Keys(steps);
    assert Print(Escapes([])) == "";
    assert Keys(steps)[0] == "do";
    WalkFollows(Keys(steps));
    TaskIsBelow(source, steps, w);
  }

  lemma PlacedTaskFound(source: Json, above: seq<string>, steps: seq<Step>, w: Json)
    requires above != [] && above[0] != "" && TaskAt(Descend(source, above), steps) == Some(w)
    ensures Descend(source, Unescaped(Tokens(Reference(Print(Escapes(above)), steps)))) == w
  {
    ReferencePrints(above, steps);
    WalkFollows(above + Keys(steps));
    TaskIsBelow(Descend(source, above), steps, w);
    DescendJoins(source, above, Keys(steps));
  }

  lemma FunctionTokens(use: string, functions: string, name: string)
    requires Plain(use) && Plain(functions)
    ensures Escapes([use, functions, name]) == [use, functions, PointerToken(name)]
  {
    PlainToken(use);
    PlainToken(functions);
  }

  /** And so does the reference built for any task inside a reusable function. */
  lemma FunctionTaskFound(source: Json, name: string, steps: seq<Step>, w: Json)
    requires TaskAt(Descend(source, ["use", "functions", name]), steps) == Some(w)
    ensures Descend(source,
                    Unescaped(Tokens(Reference(Print(["use", "functions", PointerToken(name)]), steps)))) == w
  {
    FunctionTokens("use", "functions", name);
    PlacedTaskFound(source, ["use", "functions", name], steps, w);
  }

  // ---------------------------------------------------------------- calls

  const SECTIONS: set<Section> := {Do, Try, CatchDo, ForeachDo, Branches}

  lemma {:induction false} DescendIsSmaller(v: Json, keys: seq<string>)
    ensures Descend(v, keys) == v || Descend(v, keys) == Null || Descend(v, keys) < v
    decreases |keys|
  {
    if keys != [] { DescendIsSmaller(Look(v, keys[0]), keys[1..]); NothingBelow(keys[1..]); }
  }

  lemma ItemsAreSmaller(v: Json, s: Section, i: nat)
    requires i < |Items(v, s)|
    ensures Items(v, s)[i] < v
  {
    DescendIsSmaller(v, SectionKeys(s));
  }

  function Children(v: Json): (cs: set<Json>)
    ensures forall c :: c in cs ==> c < v
    ensures forall c :: c in cs <==> exists s: Step :: ChildAt(v, s) == Some(c)
  {
    var all := set s, i, n | s in SECTIONS && 0 <= i < |Items(v, s)| && Items(v, s)[i].Obj?
               && n in Items(v, s)[i].fields
                           :: Items(v, s)[i].fields[n];
    ChildrenAre(v, all);
    all
  }

  lemma ChildrenAre(v: Json, all: set<Json>)
    requires all == set s, i, n | s in SECTIONS && 0 <= i < |Items(v, s)| && Items(v, s)[i].Obj?
             && n in Items(v, s)[i].fields
                                :: Items(v, s)[i].fields[n]
    ensures forall c :: c in all ==> c < v
    ensures forall c :: c in all <==> exists s: Step :: ChildAt(v, s) == Some(c)
  {
    forall c | c in all ensures c < v && exists s: Step :: ChildAt(v, s) == Some(c) {
      var s, i, n :| s in SECTIONS && 0 <= i < |Items(v, s)| && Items(v, s)[i].Obj? && n in Items(v, s)[i].fields
                     && Items(v, s)[i].fields[n] == c;
      ItemsAreSmaller(v, s, i);
      assert ChildAt(v, Step(s, i, n)) == Some(c);
    }
    forall s: Step, c | ChildAt(v, s) == Some(c) ensures c in all {
      assert s.section in SECTIONS by {
        match s.section { case Do => case Try => case CatchDo => case ForeachDo => case Branches => }
      }
    }
  }

  predicate CallsNamed(v: Json, f: string) { v.Obj? && "call" in v.fields && v.fields["call"] == Str(f) }

  /** The reusable functions that a definition calls, at any depth. */
  function Calls(v: Json, functions: set<string>): set<string>
    decreases v
  {
    (set f | f in functions && CallsNamed(v, f)) + (set c, f | c in Children(v) && f in Calls(c, functions) :: f)
  }

  lemma {:induction false} CallIsTask(v: Json, functions: set<string>, f: string) returns (steps: seq<Step>, w: Json)
    requires f in Calls(v, functions)
    ensures f in functions && TaskAt(v, steps) == Some(w) && CallsNamed(w, f)
    decreases v
  {
    if f in functions && CallsNamed(v, f) {
      steps, w := [], v;
    } else {
      var c :| c in Children(v) && f in Calls(c, functions);
      var s: Step :| ChildAt(v, s) == Some(c);
      var rest, found := CallIsTask(c, functions, f);
      assert ([s] + rest)[1..] == rest;
      steps, w := [s] + rest, found;
    }
  }

  lemma {:induction false} TaskIsCall(v: Json, functions: set<string>, f: string, steps: seq<Step>, w: Json)
    requires f in functions && TaskAt(v, steps) == Some(w) && CallsNamed(w, f)
    ensures f in Calls(v, functions)
    decreases |steps|
  {
    if steps != [] {
      var c := ChildAt(v, steps[0]).value;
      assert c in Children(v);
      TaskIsCall(c, functions, f, steps[1..], w);
    }
  }

  /** They are the functions called by the tasks that the resolver visits. */
  lemma CallsAreTasks(v: Json, functions: set<string>, f: string)
    ensures f in Calls(v, functions) <==>
            f in functions && exists steps, w :: TaskAt(v, steps) == Some(w) && CallsNamed(w, f)
  {
    if f in Calls(v, functions) {
      var steps, w := CallIsTask(v, functions, f);
    }
    if f in functions && exists steps, w :: TaskAt(v, steps) == Some(w) && CallsNamed(w, f) {
      var steps, w :| TaskAt(v, steps) == Some(w) && CallsNamed(w, f);
      TaskIsCall(v, functions, f, steps, w);
    }
  }
}
