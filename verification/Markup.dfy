/** Tool calls a model wrote as markup: reading them out of its text, and the text without them. */
module Markup {
  import opened Texts
  import opened Wrappers
  import Keys

  // ------------------------------------------------------------------ finding a text in a text

  predicate At(s: string, pattern: string, i: nat) {
    i + |pattern| <= |s| && s[i..i + |pattern|] == pattern
  }

  predicate Free(s: string, pattern: string) {
    forall i | 0 <= i <= |s| :: !At(s, pattern, i)
  }

  /** The first place the pattern stands. */
  function IndexOf(s: string, pattern: string): (r: Option<nat>)
    ensures r.Some? ==> At(s, pattern, r.value) && forall i | 0 <= i < r.value :: !At(s, pattern, i)
    ensures r.None? ==> Free(s, pattern)
  {
    IndexFrom(s, pattern, 0)
  }

  function IndexFrom(s: string, pattern: string, from: nat): (r: Option<nat>)
    requires from <= |s| + 1
    ensures r.Some? ==>
              from <= r.value && At(s, pattern, r.value) && forall i | from <= i < r.value :: !At(s, pattern, i)
    ensures r.None? ==> forall i | from <= i <= |s| :: !At(s, pattern, i)
    decreases |s| + 1 - from
  {
    if from > |s| then None
    else if At(s, pattern, from) then Some(from)
    else IndexFrom(s, pattern, from + 1)
  }

  /** A tag begins with an angle bracket and has no other. */
  predicate IsTag(pattern: string) {
    pattern != [] && pattern[0] == '<' && forall i | 0 < i < |pattern| :: pattern[i] != '<'
  }

  predicate Begins(s: string) {
    s == [] || s[0] == '<'
  }

  lemma Across(a: string, b: string, pattern: string, i: nat)
    requires At(a + b, pattern, i) && i < |a|
    ensures if i + |pattern| <= |a| then At(a, pattern, i) else b != [] && pattern[|a| - i] == b[0]
  {
  }

  /** A tag that does not stand in the first part does not reach across into a second that begins one. */
  lemma NotAcross(a: string, b: string, tag: string, i: nat)
    requires IsTag(tag) && Free(a, tag) && Begins(b) && i < |a|
    ensures !At(a + b, tag, i)
  {
    if At(a + b, tag, i) { Across(a, b, tag, i); }
  }

  /** What stands in the second part stands that much further on in the whole. */
  lemma AtShift(a: string, b: string, pattern: string, i: nat)
    ensures At(a + b, pattern, |a| + i) <==> At(b, pattern, i)
  {
  }

  lemma FreeTogether(a: string, b: string, tag: string)
    requires IsTag(tag) && Free(a, tag) && Free(b, tag) && Begins(b)
    ensures Free(a + b, tag)
  {
    forall i | 0 <= i <= |a + b| ensures !At(a + b, tag, i) {
      if i < |a| { NotAcross(a, b, tag, i); } else { AtShift(a, b, tag, i - |a|); }
    }
  }

  /** The first place a tag stands, after a part that is free of it. */
  lemma FirstAfter(a: string, tag: string, b: string)
    requires IsTag(tag) && Free(a, tag)
    ensures IndexOf(a + tag + b, tag) == Some(|a|)
  {
    assert a + tag + b == a + (tag + b);
    assert At(tag + b, tag, 0) by { assert (tag + b)[..|tag|] == tag; }
    AtShift(a, tag + b, tag, 0);
    forall i | 0 <= i < |a| ensures !At(a + tag + b, tag, i) {
      NotAcross(a, tag + b, tag, i);
    }
  }

  // ------------------------------------------------------------------ one element

  predicate NameChar(c: char) {
    'A' <= c <= 'Z' || 'a' <= c <= 'z' || '0' <= c <= '9' || c == '_' || c == '.' || c == '-'
  }

  predicate IsName(s: string) {
    s != [] && forall c | c in s :: NameChar(c)
  }

  /** The longest run of name characters a text begins with. */
  function NameRun(s: string): (n: string)
    ensures n <= s && (forall c | c in n :: NameChar(c)) && (|n| < |s| ==> !NameChar(s[|n|]))
  {
    if s == [] || !NameChar(s[0]) then []
    else
      assert s == [s[0]] + s[1..];
      [s[0]] + NameRun(s[1..])
  }

  function Open(tag: string): string {
    "<" + tag + "="
  }

  function Close(tag: string): string {
    "</" + tag + ">"
  }

  datatype Element = Element(name: string, body: string)

  datatype Found = Found(element: Element, rest: string)

  /** `<tag=name>body</tag>` at the start of a text, the body running to the first close. */
  function MatchHere(s: string, tag: string): (r: Option<Found>)
    ensures r.Some? ==> |r.value.rest| < |s| && IsName(r.value.element.name)
  {
    var open, close := Open(tag), Close(tag);
    if !At(s, open, 0) then None
    else
      var name := NameRun(s[|open|..]);
      var after := |open| + |name|;
      if name == [] || after >= |s| || s[after] != '>' then None
      else
        var inner := s[after + 1..];
        var end := IndexOf(inner, close);
        if end.None? then None
        else Some(Found(Element(name, inner[..end.value]), inner[end.value + |close|..]))
  }

  /** Every element, left to right, none inside another. */
  function Elements(s: string, tag: string): (r: seq<Element>)
    ensures forall e | e in r :: IsName(e.name)
    decreases |s|
  {
    if s == [] then []
    else
      var found := MatchHere(s, tag);
      if found.Some? then [found.value.element] + Elements(found.value.rest, tag) else Elements(s[1..], tag)
  }

  /** The text with every element taken out. */
  function Stripped(s: string, tag: string): string
    decreases |s|
  {
    if s == [] then []
    else
      var found := MatchHere(s, tag);
      if found.Some? then Stripped(found.value.rest, tag) else [s[0]] + Stripped(s[1..], tag)
  }

  // ------------------------------------------------------------------ reading back what was printed

  predicate PlainTag(tag: string) {
    tag != [] && forall c | c in tag :: NameChar(c)
  }

  lemma TagsAreTags(tag: string)
    requires PlainTag(tag)
    ensures IsTag(Open(tag)) && IsTag(Close(tag))
  {
    var open, close := Open(tag), Close(tag);
    forall i | 0 < i < |open| ensures open[i] != '<' {
      if i <= |tag| { assert open[i] == tag[i - 1] && tag[i - 1] in tag; }
    }
    forall i | 0 < i < |close| ensures close[i] != '<' {
      if 2 <= i < |tag| + 2 { assert close[i] == tag[i - 2] && tag[i - 2] in tag; }
    }
  }

  function Print(tag: string, e: Element): string {
    Open(tag) + e.name + ">" + e.body + Close(tag)
  }

  lemma {:induction false} NameRunOfName(name: string, rest: string)
    requires (forall c | c in name :: NameChar(c)) && (rest == [] || !NameChar(rest[0]))
    ensures NameRun(name + rest) == name
  {
    if name == [] {
      assert name + rest == rest;
    } else {
      assert (name + rest)[1..] == name[1..] + rest;
      assert name[0] in name;
      NameRunOfName(name[1..], rest);
    }
  }

  lemma Slices(a: string, b: string)
    ensures (a + b)[..|a|] == a && (a + b)[|a|..] == b
  {
  }

  lemma PrintedShape(tag: string, e: Element, rest: string)
    ensures Print(tag, e) + rest == Open(tag) + (e.name + (">" + (e.body + (Close(tag) + rest))))
  {
  }

  /** Past an opening and a name, a match is decided by the first close. */
  lemma MatchOpened(tag: string, name: string, inner: string)
    requires IsName(name)
    ensures MatchHere(Open(tag) + (name + (">" + inner)), tag)
            == var end := IndexOf(inner, Close(tag));
               if end.None? then None
               else Some(Found(Element(name, inner[..end.value]), inner[end.value + |Close(tag)|..]))
  {
    hide Open, Close, IndexOf;
    var open := Open(tag);
    var s := open + (name + (">" + inner));
    Slices(open, name + (">" + inner));
    Slices(name, ">" + inner);
    NameRunOfName(name, ">" + inner);
    assert At(s, open, 0);
    assert s[|open| + |name|..] == s[|open|..][|name|..];
    assert s[|open| + |name|] == '>' && s[|open| + |name| + 1..] == inner;
  }

  lemma PrintedIsMatched(tag: string, e: Element, rest: string)
    requires PlainTag(tag) && IsName(e.name) && Free(e.body, Close(tag))
    ensures MatchHere(Print(tag, e) + rest, tag) == Some(Found(e, rest))
  {
    hide Open, Close, Print, MatchHere, IndexOf;
    TagsAreTags(tag);
    var close := Close(tag);
    var inner := e.body + (close + rest);
    PrintedShape(tag, e, rest);
    MatchOpened(tag, e.name, inner);
    assert inner == e.body + close + rest;
    FirstAfter(e.body, close, rest);
    Slices(e.body, close + rest);
    Slices(close, rest);
    assert inner[|e.body| + |close|..] == inner[|e.body|..][|close|..];
  }

  lemma NoMatch(s: string, tag: string)
    requires !At(s, Open(tag), 0)
    ensures MatchHere(s, tag) == None
  {
  }

  /** Prose free of the opening is stepped over. */
  lemma {:induction false} ProseIsSkipped(prose: string, rest: string, tag: string)
    requires PlainTag(tag) && Free(prose, Open(tag)) && Begins(rest)
    ensures Elements(prose + rest, tag) == Elements(rest, tag)
    ensures Stripped(prose + rest, tag) == prose + Stripped(rest, tag)
    decreases |prose|
  {
    hide MatchHere, Open, Free;
    if prose == [] {
      assert prose + rest == rest;
    } else {
      TagsAreTags(tag);
      NotAcross(prose, rest, Open(tag), 0);
      NoMatch(prose + rest, tag);
      assert (prose + rest)[1..] == prose[1..] + rest;
      FreeTail(prose, Open(tag));
      ProseIsSkipped(prose[1..], rest, tag);
      assert prose == [prose[0]] + prose[1..];
    }
  }

  lemma FreeTail(s: string, pattern: string)
    requires s != [] && Free(s, pattern)
    ensures Free(s[1..], pattern)
  {
    forall i | 0 <= i <= |s[1..]| ensures !At(s[1..], pattern, i) {
      assert s == [s[0]] + s[1..];
      AtShift([s[0]], s[1..], pattern, i);
    }
  }

  /** An element, and the prose before it. */
  datatype Passage = Passage(prose: string, element: Element)

  function Printed(tag: string, passages: seq<Passage>, tail: string): string {
    if passages == [] then tail
    else passages[0].prose + (Print(tag, passages[0].element) + Printed(tag, passages[1..], tail))
  }

  predicate Readable(tag: string, passages: seq<Passage>, tail: string) {
    && Free(tail, Open(tag))
    && forall p | p in passages ::
         Free(p.prose, Open(tag)) && IsName(p.element.name) && Free(p.element.body, Close(tag))
  }

  function ElementsOf(passages: seq<Passage>): seq<Element> {
    seq(|passages|, i requires 0 <= i < |passages| => passages[i].element)
  }

  function ProseOf(passages: seq<Passage>, tail: string): string {
    if passages == [] then tail else passages[0].prose + ProseOf(passages[1..], tail)
  }

  /** Printed elements come back in order, each with its body, and what is left is the prose. */
  lemma {:induction false} PrintedIsRead(tag: string, passages: seq<Passage>, tail: string)
    requires PlainTag(tag) && Readable(tag, passages, tail)
    ensures Elements(Printed(tag, passages, tail), tag) == ElementsOf(passages)
    ensures Stripped(Printed(tag, passages, tail), tag) == ProseOf(passages, tail)
  {
    if passages == [] {
      assert tail + [] == tail;
      ProseIsSkipped(tail, [], tag);
    } else {
      var p, rest := passages[0], Printed(tag, passages[1..], tail);
      assert p in passages;
      ProseIsSkipped(p.prose, Print(tag, p.element) + rest, tag);
      PrintedIsMatched(tag, p.element, rest);
      PrintedIsRead(tag, passages[1..], tail);
      assert ElementsOf(passages) == [p.element] + ElementsOf(passages[1..]);
    }
  }

  // ------------------------------------------------------------------ calls

  const FUNCTION := "function"
  const PARAMETER := "parameter"
  const OPEN_BLOCK := "<tool_call>"
  const CLOSE_BLOCK := "</tool_call>"

  datatype Value = Text(text: string) | Number(value: real) | Truth(yes: bool) | Json(text: string)

  type Args = map<string, Value>

  /** A tool as this request offered it: its parameters' declared types. */
  datatype Tool = Tool(name: string, types: map<string, string>)

  /** The number parser, the JSON parser, and the hash, none of them the loop's own. */
  datatype Readers = Readers(number: string -> Option<real>, json: string -> Option<Value>,
                             call: string -> Option<(string, Args)>, digest: string -> string)

  datatype Call = Call(id: string, name: string, args: Args)

  function DeclaredType(tool: Tool, parameter: string): string {
    if parameter in tool.types then tool.types[parameter] else "string"
  }

  /** A parameter the schema says nothing of stays the text it was written as, trimmed. */
  lemma UndeclaredStaysText(readers: Readers, tool: Tool, e: Element)
    ensures e.name !in tool.types ==> Argument(readers, tool, e) == Text(Trim(e.body))
  {
  }

  /** What the schema says a value should have been; whatever cannot be read stays text. */
  function Coerce(readers: Readers, value: string, kind: string): Value {
    if kind == "number" || kind == "integer" then
      var parsed := readers.number(value);
      if parsed.Some? then Number(parsed.value) else Text(value)
    else if kind == "boolean" then
      if value == "true" then Truth(true) else if value == "false" then Truth(false) else Text(value)
    else if kind == "object" || kind == "array" then
      var parsed := readers.json(value);
      if parsed.Some? then parsed.value else Text(value)
    else Text(value)
  }

  /** Only a value of the kind its schema asks for is anything but the text it was written as, and every one
      that can be read is: a number as the reader reads it, a boolean by its own name, and an object or an
      array as the reader reads it. */
  lemma CoercedMeans(readers: Readers, value: string, kind: string)
    ensures var coerced := Coerce(readers, value, kind);
            && (kind in {"number", "integer"} ==>
                  coerced == if readers.number(value).Some? then Number(readers.number(value).value) else Text(value))
            && (kind == "boolean" ==>
                  && (coerced == Truth(true) <==> value == "true")
                  && (coerced == Truth(false) <==> value == "false")
                  && (value !in {"true", "false"} ==> coerced == Text(value)))
            && (kind in {"object", "array"} ==>
                  coerced == if readers.json(value).Some? then readers.json(value).value else Text(value))
            && (kind !in {"number", "integer", "boolean", "object", "array"} ==> coerced == Text(value))
  {
  }

  function Argument(readers: Readers, tool: Tool, e: Element): Value {
    Coerce(readers, Trim(e.body), DeclaredType(tool, e.name))
  }

  function Arguments(readers: Readers, tool: Tool, parameters: seq<Element>): Args {
    if parameters == [] then map[]
    else
      var last := parameters[|parameters| - 1];
      Arguments(readers, tool, parameters[..|parameters| - 1])[last.name := Argument(readers, tool, last)]
  }

  function Id(n: nat, digest: string): string {
    "markup_" + Keys.Decimal(n) + "_" + digest
  }

  function CallOf(readers: Readers, tool: Tool, e: Element, n: nat): Call {
    Call(Id(n, readers.digest(e.name + e.body)), e.name, Arguments(readers, tool, Elements(e.body, PARAMETER)))
  }

  function Offered(tools: seq<Tool>): (offered: map<string, Tool>)
    ensures forall name | name in offered :: offered[name].name == name
    ensures forall name :: name in offered <==> exists tool :: tool in tools && tool.name == name
  {
    if tools == [] then map[]
    else
      var last := tools[|tools| - 1];
      assert tools == tools[..|tools| - 1] + [last];
      Offered(tools[..|tools| - 1])[last.name := last]
  }

  function FunctionCalls(readers: Readers, offered: map<string, Tool>, elements: seq<Element>): seq<Call> {
    if elements == [] then []
    else
      var rest, last := FunctionCalls(readers, offered, elements[..|elements| - 1]), elements[|elements| - 1];
      if last.name in offered then rest + [CallOf(readers, offered[last.name], last, |rest|)] else rest
  }

  /** What stands between the first opening and the first close after it, again and again. */
  function Blocks(s: string): seq<string>
    decreases |s|
  {
    var start := IndexOf(s, OPEN_BLOCK);
    if start.None? then []
    else
      var inner := s[start.value + |OPEN_BLOCK|..];
      var end := IndexOf(inner, CLOSE_BLOCK);
      if end.None? then [] else [Trim(inner[..end.value])] + Blocks(inner[end.value + |CLOSE_BLOCK|..])
  }

  function BlockCalls(readers: Readers, offered: map<string, Tool>, blocks: seq<string>, before: seq<Call>): seq<Call> {
    if blocks == [] then before
    else
      var rest := BlockCalls(readers, offered, blocks[..|blocks| - 1], before);
      var last := blocks[|blocks| - 1];
      var read := readers.call(last);
      if read.Some? && read.value.0 in offered
      then rest + [Call(Id(|rest|, readers.digest(last)), read.value.0, read.value.1)] else rest
  }

  function Recovered(readers: Readers, tools: seq<Tool>, text: string): seq<Call> {
    var offered := Offered(tools);
    BlockCalls(readers, offered, Blocks(text), FunctionCalls(readers, offered, Elements(text, FUNCTION)))
  }

  /** The parameters of one call, a later one overwriting an earlier of its name. */
  method ReadArguments(readers: Readers, tool: Tool, body: string) returns (args: Args)
    ensures args == Arguments(readers, tool, Elements(body, PARAMETER))
  {
    hide Elements, Coerce, Trim;
    args := map[];
    var parameters := Elements(body, PARAMETER);
    for j := 0 to |parameters|
      invariant args == Arguments(readers, tool, parameters[..j])
    {
      assert parameters[..j + 1][..j] == parameters[..j];
      var key, raw := parameters[j].name, parameters[j].body;
      args := args[key := Coerce(readers, Trim(raw), DeclaredType(tool, key))];
    }
    assert parameters[..|parameters|] == parameters;
  }

  method ToolCallsFromMarkup(readers: Readers, text: string, tools: seq<Tool>) returns (calls: seq<Call>)
    ensures calls == Recovered(readers, tools, text)
  {
    hide Elements, Blocks, Arguments, Id;
    var offered := Offered(tools);
    calls := [];
    var elements := Elements(text, FUNCTION);
    for i := 0 to |elements|
      invariant calls == FunctionCalls(readers, offered, elements[..i])
    {
      assert elements[..i + 1][..i] == elements[..i];
      var name, body := elements[i].name, elements[i].body;
      if name in offered {
        var args := ReadArguments(readers, offered[name], body);
        calls := calls + [Call(Id(|calls|, readers.digest(name + body)), name, args)];
      }
    }
    assert elements[..|elements|] == elements;
    var blocks := Blocks(text);
    ghost var before := calls;
    for i := 0 to |blocks|
      invariant calls == BlockCalls(readers, offered, blocks[..i], before)
    {
      assert blocks[..i + 1][..i] == blocks[..i];
      var read := readers.call(blocks[i]);
      if read.Some? && read.value.0 in offered {
        calls := calls + [Call(Id(|calls|, readers.digest(blocks[i])), read.value.0, read.value.1)];
      }
    }
    assert blocks[..|blocks|] == blocks;
  }

  // ------------------------------------------------------------------ soundness, for any text

  lemma AtMeans(s: string, pattern: string, i: nat, k: nat)
    requires At(s, pattern, i) && k < |pattern|
    ensures s[i + k] == pattern[k]
  {
  }

  lemma DigitsEnd(a: string, rest: string)
    requires Keys.Digits(a)
    ensures IndexOf(a + ("_" + rest), "_") == Some(|a|)
  {
    var s := a + ("_" + rest);
    assert At(s, "_", |a|);
    forall i | 0 <= i < |a| ensures !At(s, "_", i) {
      assert s[i..i + 1][0] == a[i];
    }
  }

  lemma IdsDiffer(m: nat, n: nat, d: string, e: string)
    ensures Id(m, d) == Id(n, e) ==> m == n
  {
    if Id(m, d) == Id(n, e) {
      var a, b := Keys.Decimal(m), Keys.Decimal(n);
      Keys.DecimalIsDigits(m);
      Keys.DecimalIsDigits(n);
      TailsEqual(m, n, d, e);
      DigitsEnd(a, d);
      DigitsEnd(b, e);
      Slices(a, "_" + d);
      Slices(b, "_" + e);
      Keys.DecimalInjective(m, n);
    }
  }

  lemma TailsEqual(m: nat, n: nat, d: string, e: string)
    requires Id(m, d) == Id(n, e)
    ensures Keys.Decimal(m) + ("_" + d) == Keys.Decimal(n) + ("_" + e)
  {
    assert Id(m, d) == "markup_" + (Keys.Decimal(m) + ("_" + d));
    assert Id(n, e) == "markup_" + (Keys.Decimal(n) + ("_" + e));
    Slices("markup_", Keys.Decimal(m) + ("_" + d));
    Slices("markup_", Keys.Decimal(n) + ("_" + e));
  }

  ghost predicate Numbered(id: string, n: nat) {
    exists digest :: id == Id(n, digest)
  }

  /** Numbered in order, and naming offered tools only. */
  ghost predicate Sound(offered: map<string, Tool>, calls: seq<Call>) {
    forall i | 0 <= i < |calls| :: calls[i].name in offered && Numbered(calls[i].id, i)
  }

  lemma {:induction false} FunctionCallsSound(readers: Readers, offered: map<string, Tool>, elements: seq<Element>)
    ensures Sound(offered, FunctionCalls(readers, offered, elements))
  {
    if elements != [] {
      FunctionCallsSound(readers, offered, elements[..|elements| - 1]);
      var last := elements[|elements| - 1];
      var rest := FunctionCalls(readers, offered, elements[..|elements| - 1]);
      assert Numbered(Id(|rest|, readers.digest(last.name + last.body)), |rest|);
    }
  }

  lemma {:induction false} BlockCallsSound(readers: Readers, offered: map<string, Tool>, blocks: seq<string>,
                                           before: seq<Call>)
    requires Sound(offered, before)
    ensures Sound(offered, BlockCalls(readers, offered, blocks, before))
  {
    if blocks != [] {
      BlockCallsSound(readers, offered, blocks[..|blocks| - 1], before);
      var rest := BlockCalls(readers, offered, blocks[..|blocks| - 1], before);
      assert Numbered(Id(|rest|, readers.digest(blocks[|blocks| - 1])), |rest|);
    }
  }

  /** From arbitrary text: every recovered call names an offered tool, and no two share an id. */
  lemma RecoveredIsSound(readers: Readers, tools: seq<Tool>, text: string)
    ensures var calls := Recovered(readers, tools, text);
            && (forall c | c in calls :: exists tool :: tool in tools && tool.name == c.name)
            && (forall i, j | 0 <= i < j < |calls| :: calls[i].id != calls[j].id)
  {
    var offered := Offered(tools);
    var calls := Recovered(readers, tools, text);
    FunctionCallsSound(readers, offered, Elements(text, FUNCTION));
    BlockCallsSound(readers, offered, Blocks(text), FunctionCalls(readers, offered, Elements(text, FUNCTION)));
    forall i, j | 0 <= i < j < |calls| ensures calls[i].id != calls[j].id {
      assert Numbered(calls[i].id, i) && Numbered(calls[j].id, j);
      var d :| calls[i].id == Id(i, d);
      var e :| calls[j].id == Id(j, e);
      IdsDiffer(i, j, d, e);
    }
  }

  // ------------------------------------------------------------------ the round trip

  /** One parameter, and the text before its tag. */
  datatype Param = Param(before: string, key: string, value: string)

  /** One call as a model writes it: prose, the tool, its parameters, and what follows the last. */
  datatype Written = Written(prose: string, name: string, params: seq<Param>, after: string)

  function ParamPassages(params: seq<Param>): seq<Passage> {
    seq(|params|, i requires 0 <= i < |params| => Passage(params[i].before, Element(params[i].key, params[i].value)))
  }

  function BodyOf(w: Written): string {
    Printed(PARAMETER, ParamPassages(w.params), w.after)
  }

  function CallPassages(written: seq<Written>): seq<Passage> {
    seq(|written|, i requires 0 <= i < |written| =>
          Passage(written[i].prose, Element(written[i].name, BodyOf(written[i]))))
  }

  /** No prose opens a call; no value ends its parameter, and nothing inside a call ends the call. */
  predicate Unambiguous(w: Written) {
    && Free(w.prose, Open(FUNCTION)) && IsName(w.name)
    && Free(w.after, Open(PARAMETER)) && Free(w.after, Close(FUNCTION))
    && forall p | p in w.params ::
         && IsName(p.key)
         && Free(p.before, Open(PARAMETER)) && Free(p.before, Close(FUNCTION))
         && Free(p.value, Close(PARAMETER)) && Free(p.value, Close(FUNCTION))
  }

  predicate DistinctKeys(params: seq<Param>) {
    forall i, j | 0 <= i < j < |params| :: params[i].key != params[j].key
  }

  /** A tag with no second bracket, standing before a text another tag does not stand in. */
  lemma TagThenFree(head: string, rest: string, tag: string, k: nat)
    requires IsTag(tag) && IsTag(head) && Free(rest, tag)
    requires k < |head| && k < |tag| && head[k] != tag[k]
    ensures Free(head + rest, tag)
  {
    forall i | 0 <= i <= |head + rest| ensures !At(head + rest, tag, i) {
      if i >= |head| {
        AtShift(head, rest, tag, i - |head|);
      } else if At(head + rest, tag, i) {
        AtMeans(head + rest, tag, i, if i == 0 then k else 0);
      }
    }
  }

  lemma {:induction false} BodyIsFree(params: seq<Param>, after: string)
    requires Free(after, Close(FUNCTION))
    requires forall p | p in params ::
             IsName(p.key) && Free(p.before, Close(FUNCTION)) && Free(p.value, Close(FUNCTION))
    ensures Free(Printed(PARAMETER, ParamPassages(params), after), Close(FUNCTION))
  {
    hide Open, Close;
    TagsAreTags(FUNCTION);
    if params != [] {
      var p, tag := params[0], Close(FUNCTION);
      assert p in params && ParamPassages(params)[1..] == ParamPassages(params[1..]);
      var rest := Printed(PARAMETER, ParamPassages(params[1..]), after);
      BodyIsFree(params[1..], after);
      ParamIsFree(p, rest);
      FreeTogether(p.before, Print(PARAMETER, Element(p.key, p.value)) + rest, tag);
    }
  }

  lemma ParamIsFree(p: Param, rest: string)
    requires IsName(p.key) && Free(p.value, Close(FUNCTION)) && Free(rest, Close(FUNCTION))
    ensures Free(Print(PARAMETER, Element(p.key, p.value)) + rest, Close(FUNCTION))
    ensures Begins(Print(PARAMETER, Element(p.key, p.value)) + rest)
  {
    var tag, head, close := Close(FUNCTION), Open(PARAMETER) + p.key + ">", Close(PARAMETER);
    TagsAreTags(FUNCTION);
    TagsAreTags(PARAMETER);
    TagThenFree(close, rest, tag, 2);
    FreeTogether(p.value, close + rest, tag);
    OpeningIsTag(PARAMETER, p.key);
    TagThenFree(head, p.value + (close + rest), tag, 1);
    PrintedShape(PARAMETER, Element(p.key, p.value), rest);
    assert Open(PARAMETER) + (p.key + (">" + (p.value + (close + rest)))) == head + (p.value + (close + rest));
  }

  lemma OpeningIsTag(tag: string, name: string)
    requires PlainTag(tag) && IsName(name)
    ensures IsTag(Open(tag) + name + ">")
  {
    TagsAreTags(tag);
    var s, n := Open(tag) + name + ">", |Open(tag)|;
    forall i | 0 < i < |s| ensures s[i] != '<' {
      if n <= i < n + |name| { assert s[i] == name[i - n] && name[i - n] in name; }
    }
  }

  lemma {:induction false} ArgumentsRead(readers: Readers, tool: Tool, params: seq<Param>)
    requires DistinctKeys(params)
    ensures var args := Arguments(readers, tool, ElementsOf(ParamPassages(params)));
            && (forall k | k in args :: exists p :: p in params && p.key == k)
            && (forall p | p in params ::
                  p.key in args && args[p.key] == Coerce(readers, Trim(p.value), DeclaredType(tool, p.key)))
  {
    hide Coerce, Trim, DeclaredType;
    if params != [] {
      var before, last := params[..|params| - 1], params[|params| - 1];
      ArgumentsRead(readers, tool, before);
      var elements := ElementsOf(ParamPassages(params));
      assert elements[..|elements| - 1] == ElementsOf(ParamPassages(before));
      assert params == before + [last];
      assert forall p | p in before :: p.key != last.key;
    }
  }

  lemma {:induction false} AllOffered(readers: Readers, offered: map<string, Tool>, elements: seq<Element>)
    requires forall e | e in elements :: e.name in offered
    ensures var calls := FunctionCalls(readers, offered, elements);
            |calls| == |elements|
            && forall i | 0 <= i < |elements| :: calls[i] == CallOf(readers, offered[elements[i].name], elements[i], i)
  {
    hide CallOf;
    if elements != [] {
      var before := elements[..|elements| - 1];
      AllOffered(readers, offered, before);
      assert forall i | 0 <= i < |before| :: before[i] == elements[i];
      assert elements == elements[..|elements| - 1] + [elements[|elements| - 1]];
    }
  }

  lemma {:induction false} NoBlockCalls(readers: Readers, offered: map<string, Tool>, blocks: seq<string>,
                                        before: seq<Call>)
    requires forall b | b in blocks :: readers.call(b).Some? ==> readers.call(b).value.0 !in offered
    ensures BlockCalls(readers, offered, blocks, before) == before
  {
    if blocks != [] {
      NoBlockCalls(readers, offered, blocks[..|blocks| - 1], before);
      assert blocks[|blocks| - 1] in blocks;
    }
  }

  /** The text a model writes: calls amid prose, then a tail. */
  function WrittenText(written: seq<Written>, tail: string): string {
    Printed(FUNCTION, CallPassages(written), tail)
  }

  lemma WrittenIsReadable(written: seq<Written>, tail: string)
    requires Free(tail, Open(FUNCTION)) && forall w | w in written :: Unambiguous(w)
    ensures Readable(FUNCTION, CallPassages(written), tail)
    ensures forall w | w in written :: Elements(BodyOf(w), PARAMETER) == ElementsOf(ParamPassages(w.params))
  {
    forall w | w in written
      ensures Free(BodyOf(w), Close(FUNCTION))
      ensures Elements(BodyOf(w), PARAMETER) == ElementsOf(ParamPassages(w.params))
    {
      BodyIsFree(w.params, w.after);
      ParamsAreReadable(w);
      PrintedIsRead(PARAMETER, ParamPassages(w.params), w.after);
    }
    forall p | p in CallPassages(written)
      ensures Free(p.prose, Open(FUNCTION)) && IsName(p.element.name) && Free(p.element.body, Close(FUNCTION))
    {
      var i :| 0 <= i < |written| && CallPassages(written)[i] == p;
      assert written[i] in written;
    }
  }

  lemma ParamsAreReadable(w: Written)
    requires Unambiguous(w)
    ensures Readable(PARAMETER, ParamPassages(w.params), w.after)
  {
  }

  /** Printed calls to offered tools, distinct parameters each, come back exactly: in order, each with
      its trimmed values read as its schema declares them and with nothing else; and taking the calls
      out leaves the prose. */
  lemma PrintedCallsAreRecovered(readers: Readers, tools: seq<Tool>, written: seq<Written>, tail: string)
    requires Free(tail, Open(FUNCTION)) && forall w | w in written :: Unambiguous(w) && DistinctKeys(w.params)
    requires forall w | w in written :: w.name in Offered(tools)
    requires forall b | b in Blocks(WrittenText(written, tail)) ::
               readers.call(b).Some? ==> readers.call(b).value.0 !in Offered(tools)
    ensures var calls := Recovered(readers, tools, WrittenText(written, tail));
            && |calls| == |written|
            && (forall i | 0 <= i < |written| ::
                  && calls[i].name == written[i].name
                  && (forall k | k in calls[i].args :: exists p :: p in written[i].params && p.key == k)
                  && (forall p | p in written[i].params ::
                        p.key in calls[i].args
                        && calls[i].args[p.key]
                           == Coerce(readers, Trim(p.value), DeclaredType(Offered(tools)[written[i].name], p.key))))
    ensures Stripped(WrittenText(written, tail), FUNCTION) == ProseOf(CallPassages(written), tail)
  {
    hide Elements, Stripped, Blocks, Arguments, Free, Offered, Printed, BodyOf;
    var offered, text := Offered(tools), WrittenText(written, tail);
    WrittenIsReadable(written, tail);
    PrintedIsRead(FUNCTION, CallPassages(written), tail);
    var elements := ElementsOf(CallPassages(written));
    forall e | e in elements ensures e.name in offered {
      var i :| 0 <= i < |elements| && elements[i] == e;
      assert written[i] in written;
    }
    AllOffered(readers, offered, elements);
    NoBlockCalls(readers, offered, Blocks(text), FunctionCalls(readers, offered, elements));
    forall i | 0 <= i < |written|
      ensures Recovered(readers, tools, text)[i].args
              == Arguments(readers, offered[written[i].name], ElementsOf(ParamPassages(written[i].params)))
    {
      assert written[i] in written && elements[i].name == written[i].name;
      ArgumentsRead(readers, offered[written[i].name], written[i].params);
    }
    forall i | 0 <= i < |written| ensures DistinctKeys(written[i].params) {
      assert written[i] in written;
    }
    forall i | 0 <= i < |written| {
      ArgumentsRead(readers, offered[written[i].name], written[i].params);
    }
  }

  // ------------------------------------------------------------------ the prose

  /** Every block taken out, each from its opening to the first close after it. */
  function WithoutBlocks(s: string): string
    decreases |s|
  {
    var start := IndexOf(s, OPEN_BLOCK);
    if start.None? then s
    else
      var inner := s[start.value + |OPEN_BLOCK|..];
      var end := IndexOf(inner, CLOSE_BLOCK);
      if end.None? then s else s[..start.value] + WithoutBlocks(inner[end.value + |CLOSE_BLOCK|..])
  }

  /** Every opening and every close left standing alone taken out. */
  function WithoutTags(s: string): string
    decreases |s|
  {
    if s == [] then []
    else if At(s, OPEN_BLOCK, 0) then WithoutTags(s[|OPEN_BLOCK|..])
    else if At(s, CLOSE_BLOCK, 0) then WithoutTags(s[|CLOSE_BLOCK|..])
    else [s[0]] + WithoutTags(s[1..])
  }

  function WithoutMarkup(text: string): string {
    Trim(WithoutTags(WithoutBlocks(Stripped(text, FUNCTION))))
  }

  lemma {:induction false} NoTagsNoChange(s: string)
    requires Free(s, OPEN_BLOCK) && Free(s, CLOSE_BLOCK)
    ensures WithoutTags(s) == s
    decreases |s|
  {
    if s != [] {
      FreeTail(s, OPEN_BLOCK);
      FreeTail(s, CLOSE_BLOCK);
      NoTagsNoChange(s[1..]);
      assert s == [s[0]] + s[1..];
    }
  }

  /** What is shown of a message whose calls were recovered is its prose, trimmed, as long as the
      pieces of prose do not come to a block tag when they are put together. */
  lemma OnlyProseIsLeft(written: seq<Written>, tail: string)
    requires Free(tail, Open(FUNCTION)) && forall w | w in written :: Unambiguous(w)
    requires var prose := ProseOf(CallPassages(written), tail); Free(prose, OPEN_BLOCK) && Free(prose, CLOSE_BLOCK)
    ensures WithoutMarkup(WrittenText(written, tail)) == Trim(ProseOf(CallPassages(written), tail))
  {
    hide Elements, Stripped, Printed, Trim, WithoutTags;
    WrittenIsReadable(written, tail);
    PrintedIsRead(FUNCTION, CallPassages(written), tail);
    NoTagsNoChange(ProseOf(CallPassages(written), tail));
  }

  // ------------------------------------------------------------------ the other dialect

  /** A call written as a block of JSON, and the prose before it. */
  datatype Noted = Noted(prose: string, body: string)

  function BlockText(body: string): string {
    "<tool_call>" + (body + "</tool_call>")
  }

  function NotedText(notes: seq<Noted>, tail: string): string {
    if notes == [] then tail else notes[0].prose + (BlockText(notes[0].body) + NotedText(notes[1..], tail))
  }

  function NotedProse(notes: seq<Noted>, tail: string): string {
    if notes == [] then tail else notes[0].prose + NotedProse(notes[1..], tail)
  }

  function Bodies(notes: seq<Noted>): seq<string> {
    seq(|notes|, i requires 0 <= i < |notes| => Trim(notes[i].body))
  }

  /** A block opened and never closed is no block. */
  ghost predicate Blockless(s: string) {
    forall i, j | 0 <= i && i + |"<tool_call>"| <= j && At(s, "<tool_call>", i) :: !At(s, "</tool_call>", j)
  }

  lemma BlocklessReads(s: string)
    requires Blockless(s)
    ensures Blocks(s) == [] && WithoutBlocks(s) == s
  {
    var start := IndexOf(s, OPEN_BLOCK);
    if start.Some? {
      var inner := s[start.value + |OPEN_BLOCK|..];
      var end := IndexOf(inner, CLOSE_BLOCK);
      if end.Some? {
        assert s == s[..start.value + |OPEN_BLOCK|] + inner;
        AtShift(s[..start.value + |OPEN_BLOCK|], inner, CLOSE_BLOCK, end.value);
      }
    }
  }

  lemma FirstBlock(note: Noted, rest: string)
    requires Free(note.prose, "<tool_call>") && Free(note.body, "</tool_call>")
    ensures var text := note.prose + (BlockText(note.body) + rest);
            && Blocks(text) == [Trim(note.body)] + Blocks(rest)
            && WithoutBlocks(text) == note.prose + WithoutBlocks(rest)
  {
    hide Trim;
    var open, close := "<tool_call>", "</tool_call>";
    var text, inner := note.prose + (BlockText(note.body) + rest), note.body + close + rest;
    assert text == note.prose + open + inner;
    FirstAfter(note.prose, open, inner);
    assert text[|note.prose| + |open|..] == inner && text[..|note.prose|] == note.prose;
    FirstAfter(note.body, close, rest);
    assert inner[..|note.body|] == note.body && inner[|note.body| + |close|..] == rest;
  }

  /** Blocks amid prose that opens none come back in order, each trimmed, and taking them out leaves the
      prose. */
  lemma {:induction false} BlocksAreRead(notes: seq<Noted>, tail: string)
    requires Blockless(tail)
    requires forall n | n in notes :: Free(n.prose, "<tool_call>") && Free(n.body, "</tool_call>")
    ensures Blocks(NotedText(notes, tail)) == Bodies(notes)
    ensures WithoutBlocks(NotedText(notes, tail)) == NotedProse(notes, tail)
  {
    hide Trim, Blocks, WithoutBlocks, Free, Blockless;
    if notes == [] {
      BlocklessReads(tail);
    } else {
      assert notes[0] in notes;
      FirstBlock(notes[0], NotedText(notes[1..], tail));
      BlocksAreRead(notes[1..], tail);
      assert Bodies(notes) == [Trim(notes[0].body)] + Bodies(notes[1..]);
    }
  }

  lemma {:induction false} AllBlocksCall(readers: Readers, offered: map<string, Tool>, blocks: seq<string>,
                                         before: seq<Call>)
    requires forall b | b in blocks :: readers.call(b).Some? && readers.call(b).value.0 in offered
    ensures var calls := BlockCalls(readers, offered, blocks, before);
            && |calls| == |before| + |blocks| && before <= calls
            && forall i | 0 <= i < |blocks| ::
                 var n := |before| + i;
                 calls[n] == Call(Id(n, readers.digest(blocks[i])), readers.call(blocks[i]).value.0,
                                  readers.call(blocks[i]).value.1)
  {
    hide Id;
    if blocks != [] {
      AllBlocksCall(readers, offered, blocks[..|blocks| - 1], before);
      assert blocks[|blocks| - 1] in blocks;
    }
  }

  /** Calls of offered tools written as blocks of JSON, with no element among them, are recovered exactly and
      in order, each as the reader reads its body. */
  lemma NotedCallsAreRecovered(readers: Readers, tools: seq<Tool>, notes: seq<Noted>, tail: string)
    requires Blockless(tail) && Free(NotedText(notes, tail), "<function=")
    requires forall n | n in notes ::
               && Free(n.prose, "<tool_call>") && Free(n.body, "</tool_call>")
               && readers.call(Trim(n.body)).Some? && readers.call(Trim(n.body)).value.0 in Offered(tools)
    ensures var calls := Recovered(readers, tools, NotedText(notes, tail));
            && |calls| == |notes|
            && forall i | 0 <= i < |notes| ::
                 var body := Trim(notes[i].body);
                 calls[i] == Call(Id(i, readers.digest(body)), readers.call(body).value.0, readers.call(body).value.1)
  {
    hide Trim, Blocks, Elements, Free, Blockless, Id, Offered;
    var text := NotedText(notes, tail);
    BlocksAreRead(notes, tail);
    NoElements(text);
    assert FunctionCalls(readers, Offered(tools), []) == [];
    forall b | b in Bodies(notes) ensures readers.call(b).Some? && readers.call(b).value.0 in Offered(tools) {
      var i :| 0 <= i < |notes| && Bodies(notes)[i] == b;
      assert notes[i] in notes;
    }
    AllBlocksCall(readers, Offered(tools), Bodies(notes), []);
    assert forall i | 0 <= i < |notes| :: Bodies(notes)[i] == Trim(notes[i].body);
  }

  lemma NoElements(text: string)
    requires Free(text, "<function=")
    ensures Elements(text, FUNCTION) == []
  {
    assert Open(FUNCTION) == "<function=";
    assert text + [] == text;
    ProseIsSkipped(text, [], FUNCTION);
  }

  ghost predicate Unangled(s: string) {
    forall i | 0 <= i < |s| :: s[i] != '<'
  }

  /** Opening and closing tags left alone amid text without an angle bracket are taken out, and nothing else. */
  lemma StrayTagsGo(a: string, first: string, b: string, second: string, c: string)
    requires Unangled(a) && Unangled(b) && Unangled(c)
    requires first in {"<tool_call>", "</tool_call>"} && second in {"<tool_call>", "</tool_call>"}
    ensures WithoutTags(a + (first + (b + (second + c)))) == a + (b + c)
  {
    hide WithoutTags, Unangled;
    NothingToTake();
    PlainThenTag(c, "");
    assert c + "" == c;
    TagGoes(second, c);
    PlainThenTag(b, second + c);
    TagGoes(first, b + (second + c));
    PlainThenTag(a, first + (b + (second + c)));
  }

  /** So a tag left standing alone is not shown either. */
  lemma StrayTagIsNotShown(a: string, tag: string, b: string)
    requires Unangled(a) && Unangled(b) && tag in {"<tool_call>", "</tool_call>"}
    ensures WithoutMarkup(a + (tag + b)) == Trim(a + b)
  {
    hide WithoutTags, Trim, Stripped, Elements, WithoutBlocks;
    var text := a + (tag + b);
    OneTagIsNoBlock(a, tag, b);
    assert text + [] == text;
    ProseIsSkipped(text, [], FUNCTION);
    NothingStripped();
    assert WithoutTags(text) == a + b by {
      NothingToTake();
      PlainThenTag(b, "");
      assert b + "" == b;
      TagGoes(tag, b);
      PlainThenTag(a, tag + b);
    }
  }

  lemma NothingStripped()
    ensures Stripped([], FUNCTION) == []
  {
  }

  lemma OneTagIsNoBlock(a: string, tag: string, b: string)
    requires Unangled(a) && Unangled(b) && tag in {"<tool_call>", "</tool_call>"}
    ensures WithoutBlocks(a + (tag + b)) == a + (tag + b)
    ensures Free(a + (tag + b), Open(FUNCTION))
  {
    var text := a + (tag + b);
    assert Open(FUNCTION) == "<function=";
    forall i | 0 <= i < |text| && i != |a| ensures text[i] != '<' {
      assert text[i] == if i < |a| then a[i] else if i < |a| + |tag| then tag[i - |a|] else b[i - |a| - |tag|];
    }
    forall i, pattern | 0 <= i <= |text| && pattern in {"<tool_call>", "</tool_call>", "<function="}
                        && At(text, pattern, i)
      ensures i == |a| && text[i + 1] == pattern[1] && text[i + 2] == pattern[2]
    {
      assert text[i..i + |pattern|][0] == text[i];
      assert text[i..i + |pattern|][1] == text[i + 1];
      assert text[i..i + |pattern|][2] == text[i + 2];
    }
    assert text[|a| + 1] == tag[1] && text[|a| + 2] == tag[2];
    BlocklessReads(text);
  }

  lemma NothingToTake()
    ensures WithoutTags("") == ""
  {
  }

  lemma TagGoes(tag: string, rest: string)
    requires tag == "<tool_call>" || tag == "</tool_call>"
    ensures WithoutTags(tag + rest) == WithoutTags(rest)
  {
    var s := tag + rest;
    assert s[..|tag|] == tag && s[|tag|..] == rest;
    assert s[1] == tag[1];
    if At(s, OPEN_BLOCK, 0) {
      assert s[0..|OPEN_BLOCK|][1] == OPEN_BLOCK[1];
    }
  }

  lemma {:induction false} PlainThenTag(plain: string, rest: string)
    requires Unangled(plain)
    ensures WithoutTags(plain + rest) == plain + WithoutTags(rest)
  {
    hide WithoutTags;
    if plain == "" {
      assert plain + rest == rest;
    } else {
      var s := plain + rest;
      assert s == [plain[0]] + (plain[1..] + rest);
      PlainFirst(plain[0], plain[1..] + rest);
      PlainThenTag(plain[1..], rest);
      assert plain == [plain[0]] + plain[1..];
    }
  }

  lemma PlainFirst(c: char, rest: string)
    requires c != '<'
    ensures WithoutTags([c] + rest) == [c] + WithoutTags(rest)
  {
    hide At;
    NotHere([c] + rest);
    assert ([c] + rest)[1..] == rest;
  }

  lemma NotHere(s: string)
    requires s != "" && s[0] != '<'
    ensures !At(s, OPEN_BLOCK, 0) && !At(s, CLOSE_BLOCK, 0)
  {
    assert |s| >= |OPEN_BLOCK| ==> s[..|OPEN_BLOCK|][0] == s[0] != OPEN_BLOCK[0];
    assert |s| >= |CLOSE_BLOCK| ==> s[..|CLOSE_BLOCK|][0] == s[0] != CLOSE_BLOCK[0];
  }

  // ------------------------------------------------------------------ the marks themselves

  /** Calls and parameters as they are written, and the characters a name may have. */
  lemma MarksRead(name: string, body: string, c: char)
    ensures Print(FUNCTION, Element(name, body)) == "<function=" + name + ">" + body + "</function>"
    ensures Print(PARAMETER, Element(name, body)) == "<parameter=" + name + ">" + body + "</parameter>"
    ensures var u := c as int;
            NameChar(c) <==> 0x41 <= u <= 0x5A || 0x61 <= u <= 0x7A || 0x30 <= u <= 0x39 || u in {0x5F, 0x2E, 0x2D}
  {
    assert Open(FUNCTION) == "<function=" && Close(FUNCTION) == "</function>";
    assert Open(PARAMETER) == "<parameter=" && Close(PARAMETER) == "</parameter>";
  }
}
