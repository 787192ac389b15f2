/** The stable fingerprint an approval is bound to: one text per call, whatever order the model
    wrote the argument keys in. */
module CanonicalJson {
  import opened Wrappers

  /** An argument value as the model produced it. A finite number is carried as the text JavaScript
      prints for it, which is one text per number; one too large for it, such as 1e999, is infinite. */
  datatype Json =
    | Undefined
    | Null
    | Bool(b: bool)
    | Number(text: string)
    | Infinite(negative: bool)
    | Text(s: string)
    | Array(items: seq<Json>)
    | Object(members: seq<Member>)

  datatype Member = Member(key: string, value: Json)

  /** What an argument value means: key order and absent-versus-undefined members are gone, and an
      infinite number, which no JSON text can carry, reads as null. */
  datatype Value =
    | VNull
    | VBool(b: bool)
    | VNumber(text: string)
    | VText(s: string)
    | VArray(items: seq<Value>)
    | VObject(members: map<string, Value>)

  /** One member after its value has been printed. */
  datatype Printed = Printed(key: string, text: string)

  // ------------------------------------------------------------------ well-formed values

  predicate NumberChar(c: char) {
    '0' <= c <= '9' || c == '-' || c == '+' || c == '.' || c == 'e'
  }

  predicate NumberText(t: string) {
    |t| > 0 && ('0' <= t[0] <= '9' || t[0] == '-') && forall i | 0 <= i < |t| :: NumberChar(t[i])
  }

  predicate DistinctKeys(members: seq<Member>) {
    forall i, j | 0 <= i < j < |members| :: members[i].key != members[j].key
  }

  /** Numbers have a number's text, and no object holds one key twice. */
  predicate WellFormed(v: Json) {
    match v
    case Number(t) => NumberText(t)
    case Array(items) => forall i | 0 <= i < |items| :: WellFormed(items[i])
    case Object(members) =>
      DistinctKeys(members) && forall i | 0 <= i < |members| :: WellFormed(members[i].value)
    case _ => true
  }

  // ------------------------------------------------------------------ meaning

  function Meaning(v: Json): Value {
    match v
    case Undefined => VNull
    case Null => VNull
    case Bool(b) => VBool(b)
    case Number(t) => VNumber(t)
    case Infinite(_) => VNull
    case Text(s) => VText(s)
    case Array(items) => VArray(MeaningOfItems(items))
    case Object(members) => VObject(MeaningOfMembers(members))
  }

  function MeaningOfItems(items: seq<Json>): (r: seq<Value>)
    ensures |r| == |items|
    ensures forall i | 0 <= i < |items| :: r[i] == Meaning(items[i])
  {
    if items == [] then [] else [Meaning(items[0])] + MeaningOfItems(items[1..])
  }

  function MeaningOfMembers(members: seq<Member>): map<string, Value> {
    if members == [] then map[]
    else if members[0].value.Undefined? then MeaningOfMembers(members[1..])
    else MeaningOfMembers(members[1..])[members[0].key := Meaning(members[0].value)]
  }

  // ------------------------------------------------------------------ the printer

  function HexDigit(n: nat): char
    requires n < 16
  {
    "0123456789abcdef"[n]
  }

  /** One character of a JSON string literal. */
  function EscapeChar(c: char): string {
    if c == '\"' then "\\\""
    else if c == '\\' then "\\\\"
    else if c as int == 8 then "\\b"
    else if c as int == 12 then "\\f"
    else if c == '\n' then "\\n"
    else if c == '\r' then "\\r"
    else if c == '\t' then "\\t"
    else if c as int < 0x20 then "\\u00" + [HexDigit(c as int / 16), HexDigit(c as int % 16)]
    else [c]
  }

  function Escape(s: string): string {
    if s == "" then "" else EscapeChar(s[0]) + Escape(s[1..])
  }

  function Quote(s: string): string {
    "\"" + Escape(s) + "\""
  }

  function Join(parts: seq<string>): string {
    if parts == [] then ""
    else if |parts| == 1 then parts[0]
    else parts[0] + "," + Join(parts[1..])
  }

  function Canonical(v: Json): string {
    match v
    case Undefined => "null"
    case Null => "null"
    case Infinite(_) => "null"
    case Bool(b) => if b then "true" else "false"
    case Number(t) => t
    case Text(s) => Quote(s)
    case Array(items) => "[" + Join(PrintItems(items)) + "]"
    case Object(members) => "{" + Join(Rows(SortByKey(PrintMembers(members)))) + "}"
  }

  function PrintItems(items: seq<Json>): (r: seq<string>)
    ensures |r| == |items|
    ensures forall i | 0 <= i < |items| :: r[i] == Canonical(items[i])
  {
    if items == [] then [] else [Canonical(items[0])] + PrintItems(items[1..])
  }

  /** An absent key and a key set to undefined are the same call, so undefined members vanish. */
  function PrintMembers(members: seq<Member>): seq<Printed> {
    if members == [] then []
    else if members[0].value.Undefined? then PrintMembers(members[1..])
    else [Printed(members[0].key, Canonical(members[0].value))] + PrintMembers(members[1..])
  }

  function Row(p: Printed): string {
    Quote(p.key) + ":" + p.text
  }

  function Rows(ps: seq<Printed>): (r: seq<string>)
    ensures |r| == |ps|
    ensures forall i | 0 <= i < |ps| :: r[i] == Row(ps[i])
  {
    if ps == [] then [] else [Row(ps[0])] + Rows(ps[1..])
  }

  /** Lexicographic order on keys. */
  predicate Before(a: string, b: string) {
    if b == "" then false
    else if a == "" then true
    else a[0] < b[0] || (a[0] == b[0] && Before(a[1..], b[1..]))
  }

  function Insert(p: Printed, ps: seq<Printed>): seq<Printed> {
    if ps == [] || Before(p.key, ps[0].key) then [p] + ps else [ps[0]] + Insert(p, ps[1..])
  }

  function SortByKey(ps: seq<Printed>): seq<Printed> {
    if ps == [] then [] else Insert(ps[0], SortByKey(ps[1..]))
  }

  /** The fingerprint itself. SHA-256 is an injective function, so the text stands for its hash. */
  function ArgsHash(args: Json): string {
    Canonical(args)
  }

  // ------------------------------------------------------------------ the order is total

  lemma {:induction false} BeforeIsTotal(a: string, b: string)
    ensures Before(a, b) || Before(b, a) || a == b
    ensures !(Before(a, b) && Before(b, a))
    ensures !Before(a, a)
  {
    if a != "" {
      BeforeIsTotal(a[1..], a[1..]);
      if b != "" && a[0] == b[0] {
        BeforeIsTotal(a[1..], b[1..]);
        assert a[1..] == b[1..] ==> a == [a[0]] + a[1..] == b;
      }
    }
  }

  lemma {:induction false} BeforeIsTransitive(a: string, b: string, c: string)
    requires Before(a, b) && Before(b, c)
    ensures Before(a, c)
  {
    if a != "" && a[0] == b[0] && b[0] == c[0] {
      BeforeIsTransitive(a[1..], b[1..], c[1..]);
    }
  }

  // ------------------------------------------------------------------ sorting

  ghost predicate Sorted(ps: seq<Printed>) {
    forall i, j | 0 <= i < j < |ps| :: Before(ps[i].key, ps[j].key)
  }

  function Dict(ps: seq<Printed>): map<string, string> {
    if ps == [] then map[] else Dict(ps[1..])[ps[0].key := ps[0].text]
  }

  lemma {:induction false} DictKeys(ps: seq<Printed>, k: string)
    ensures k in Dict(ps) <==> exists p :: p in ps && p.key == k
    ensures ps != [] ==> ps[0].key in Dict(ps)
  {
    if ps != [] {
      DictKeys(ps[1..], k);
      assert ps == [ps[0]] + ps[1..];
    }
  }

  lemma {:induction false} InsertKeeps(p: Printed, ps: seq<Printed>)
    requires Sorted(ps) && p.key !in Dict(ps)
    ensures Sorted(Insert(p, ps))
    ensures Dict(Insert(p, ps)) == Dict(ps)[p.key := p.text]
  {
    hide Before;
    if ps == [] {
    } else if Before(p.key, ps[0].key) {
      forall j | 0 < j < |ps| ensures Before(p.key, ps[j].key) {
        BeforeIsTransitive(p.key, ps[0].key, ps[j].key);
      }
      assert ([p] + ps)[1..] == ps;
    } else {
      var rest := Insert(p, ps[1..]);
      InsertKeeps(p, ps[1..]);
      DictKeys(ps, ps[0].key);
      BeforeIsTotal(p.key, ps[0].key);
      forall j | 0 <= j < |rest| ensures Before(ps[0].key, rest[j].key) {
        DictKeys(rest, rest[j].key);
        if rest[j].key != p.key {
          DictKeys(ps[1..], rest[j].key);
          var q :| q in ps[1..] && q.key == rest[j].key;
        }
      }
      assert ([ps[0]] + rest)[1..] == rest;
    }
  }

  ghost predicate DistinctPrinted(ps: seq<Printed>) {
    forall i, j | 0 <= i < j < |ps| :: ps[i].key != ps[j].key
  }

  lemma {:induction false} SortKeeps(ps: seq<Printed>)
    requires DistinctPrinted(ps)
    ensures Sorted(SortByKey(ps)) && Dict(SortByKey(ps)) == Dict(ps)
  {
    if ps != [] {
      SortKeeps(ps[1..]);
      DictKeys(ps[1..], ps[0].key);
      InsertKeeps(ps[0], SortByKey(ps[1..]));
    }
  }

  /** A sorted list is determined by the dictionary it spells. */
  lemma {:induction false} SortedIsUnique(ps: seq<Printed>, qs: seq<Printed>)
    requires Sorted(ps) && Sorted(qs) && Dict(ps) == Dict(qs)
    ensures ps == qs
  {
    DictKeys(ps, "");
    DictKeys(qs, "");
    if ps != [] && qs != [] {
      DictKeys(qs, ps[0].key);
      DictKeys(ps, qs[0].key);
      BeforeIsTotal(ps[0].key, qs[0].key);
      assert ps[0].key == qs[0].key;
      assert ps[0].text == Dict(ps)[ps[0].key] == qs[0].text;
      HeadIsNew(ps);
      HeadIsNew(qs);
      assert Dict(ps[1..]) == Dict(ps) - {ps[0].key};
      assert Dict(qs[1..]) == Dict(qs) - {qs[0].key};
      SortedIsUnique(ps[1..], qs[1..]);
      assert ps == [ps[0]] + ps[1..] && qs == [qs[0]] + qs[1..];
    }
  }

  lemma HeadIsNew(ps: seq<Printed>)
    requires Sorted(ps) && ps != []
    ensures ps[0].key !in Dict(ps[1..])
  {
    DictKeys(ps[1..], ps[0].key);
    BeforeIsTotal(ps[0].key, ps[0].key);
    assert forall p | p in ps[1..] :: Before(ps[0].key, p.key);
  }

  // ------------------------------------------------------------------ members

  /** What a key of an object prints as and means: both come from the one member that carries it. */
  lemma {:induction false} MembersByKey(members: seq<Member>, k: string)
    requires DistinctKeys(members)
    ensures k in Dict(PrintMembers(members)) <==> k in MeaningOfMembers(members)
    ensures k in MeaningOfMembers(members) ==>
              exists m :: m in members && m.key == k
                          && Dict(PrintMembers(members))[k] == Canonical(m.value)
                          && MeaningOfMembers(members)[k] == Meaning(m.value)
  {
    if members != [] {
      MembersByKey(members[1..], k);
      if !members[0].value.Undefined? {
        assert PrintMembers(members)[1..] == PrintMembers(members[1..]);
      }
      if k in MeaningOfMembers(members) && (members[0].value.Undefined? || k != members[0].key) {
        var m :| m in members[1..] && m.key == k
                 && Dict(PrintMembers(members[1..]))[k] == Canonical(m.value)
                 && MeaningOfMembers(members[1..])[k] == Meaning(m.value);
        assert m in members;
      } else {
        assert members[0] in members;
      }
    }
  }

  /** This row was printed from some member of the object. */
  ghost predicate PrintedFrom(p: Printed, members: seq<Member>) {
    exists m :: m in members && p == Printed(m.key, Canonical(m.value))
  }

  ghost predicate AllPrintedFrom(ps: seq<Printed>, members: seq<Member>) {
    forall p | p in ps :: PrintedFrom(p, members)
  }

  lemma {:induction false} PrintedMembers(members: seq<Member>)
    requires DistinctKeys(members)
    ensures DistinctPrinted(PrintMembers(members)) && AllPrintedFrom(PrintMembers(members), members)
  {
    if members != [] {
      PrintedMembers(members[1..]);
      var rest := PrintMembers(members[1..]);
      forall p | p in rest ensures PrintedFrom(p, members) && p.key != members[0].key {
        assert PrintedFrom(p, members[1..]);
        var m :| m in members[1..] && p == Printed(m.key, Canonical(m.value));
        assert m in members;
      }
      assert members[0] in members;
      assert !members[0].value.Undefined? ==>
          PrintedFrom(Printed(members[0].key, Canonical(members[0].value)), members);
    }
  }

  lemma {:induction false} InsertHolds(p: Printed, ps: seq<Printed>, members: seq<Member>)
    requires AllPrintedFrom(ps, members) && PrintedFrom(p, members)
    ensures AllPrintedFrom(Insert(p, ps), members)
  {
    if !(ps == [] || Before(p.key, ps[0].key)) {
      InsertHolds(p, ps[1..], members);
    }
  }

  lemma {:induction false} SortHolds(ps: seq<Printed>, members: seq<Member>)
    requires AllPrintedFrom(ps, members)
    ensures AllPrintedFrom(SortByKey(ps), members)
  {
    if ps != [] {
      SortHolds(ps[1..], members);
      InsertHolds(ps[0], SortByKey(ps[1..]), members);
    }
  }

  // ------------------------------------------------------------------ decoding

  lemma Assoc(a: string, b: string, c: string)
    ensures (a + b) + c == a + (b + c)
  {
  }

  lemma SameLengthSplits(a: string, b: string, s: string, t: string)
    requires a + s == b + t && |a| == |b|
    ensures a == b && s == t
  {
    assert a == (a + s)[..|a|] && b == (b + t)[..|b|];
    assert s == (a + s)[|a|..] && t == (b + t)[|b|..];
  }

  /** What may follow a printed value: nothing, or a separator or closing bracket. */
  ghost predicate Ends(s: string) {
    s == "" || s[0] == ',' || s[0] == ']' || s[0] == '}'
  }

  lemma EscapeCharDecodes(c: char, d: char, s: string, t: string)
    requires EscapeChar(c) + s == EscapeChar(d) + t
    ensures c == d && s == t
  {
    var l, r := EscapeChar(c), EscapeChar(d);
    assert (l + s)[0] == l[0] && (r + t)[0] == r[0];
    if |l| >= 2 && |r| >= 2 {
      assert (l + s)[1] == l[1] && (r + t)[1] == r[1];
    }
    if |l| >= 6 && |r| >= 6 {
      assert (l + s)[4] == l[4] && (r + t)[4] == r[4];
      assert (l + s)[5] == l[5] && (r + t)[5] == r[5];
    }
    assert c == d;
    SameLengthSplits(l, r, s, t);
  }

  lemma EscapeHead(a: string, s: string)
    requires s != "" && s[0] == '\"'
    ensures Escape(a) + s != ""
    ensures (Escape(a) + s)[0] == '\"' <==> a == ""
  {
  }

  lemma {:induction false} EscapeDecodes(a: string, b: string, s: string, t: string)
    requires s != "" && s[0] == '\"' && t != "" && t[0] == '\"'
    requires Escape(a) + s == Escape(b) + t
    ensures a == b && s == t
  {
    EscapeHead(a, s);
    EscapeHead(b, t);
    if a != "" && b != "" {
      Assoc(EscapeChar(a[0]), Escape(a[1..]), s);
      Assoc(EscapeChar(b[0]), Escape(b[1..]), t);
      EscapeCharDecodes(a[0], b[0], Escape(a[1..]) + s, Escape(b[1..]) + t);
      EscapeDecodes(a[1..], b[1..], s, t);
      assert a == [a[0]] + a[1..] && b == [b[0]] + b[1..];
    } else {
      SameLengthSplits("", "", s, t);
    }
  }

  lemma QuoteTail(a: string, s: string)
    ensures (Quote(a) + s)[1..] == Escape(a) + ("\"" + s)
  {
    hide Escape;
  }

  lemma QuoteDecodes(a: string, b: string, s: string, t: string)
    requires Quote(a) + s == Quote(b) + t
    ensures a == b && s == t
  {
    hide Escape;
    QuoteTail(a, s);
    QuoteTail(b, t);
    EscapeDecodes(a, b, "\"" + s, "\"" + t);
    SameLengthSplits("\"", "\"", s, t);
  }

  /** How many characters of a text could belong to a number. */
  function NumberRun(w: string): nat {
    if w == "" || !NumberChar(w[0]) then 0 else 1 + NumberRun(w[1..])
  }

  lemma {:induction false} NumberStops(a: string, s: string)
    requires forall i | 0 <= i < |a| :: NumberChar(a[i])
    requires Ends(s)
    ensures NumberRun(a + s) == |a|
  {
    if a == "" {
      assert a + s == s;
    } else {
      NumberStops(a[1..], s);
      assert (a + s)[1..] == a[1..] + s;
    }
  }

  /** Every kind of value begins with a character no other kind begins with. */
  function Tag(v: Json): nat {
    match v
    case Undefined => 0
    case Null => 0
    case Infinite(_) => 0
    case Bool(b) => if b then 1 else 2
    case Number(_) => 3
    case Text(_) => 4
    case Array(_) => 5
    case Object(_) => 6
  }

  function TagOfChar(c: char): nat {
    if c == 'n' then 0
    else if c == 't' then 1
    else if c == 'f' then 2
    else if c == '\"' then 4
    else if c == '[' then 5
    else if c == '{' then 6
    else 3
  }

  lemma ValueHead(a: Json, s: string)
    requires WellFormed(a)
    ensures Canonical(a) + s != "" && Tag(a) == TagOfChar((Canonical(a) + s)[0])
    ensures (Canonical(a) + s)[0] !in ",]}"
  {
  }

  /** Printed values are self-delimiting: a printed value and what follows it can be told apart. */
  lemma {:induction false} ValueDecodes(a: Json, b: Json, s: string, t: string)
    requires WellFormed(a) && WellFormed(b) && Ends(s) && Ends(t)
    requires Canonical(a) + s == Canonical(b) + t
    ensures Canonical(a) == Canonical(b) && s == t
    decreases a, 1
  {
    ValueHead(a, s);
    ValueHead(b, t);
    match a
    case Number(x) =>
      NumberStops(x, s);
      NumberStops(b.text, t);
      SameLengthSplits(x, b.text, s, t);
    case Text(x) => QuoteDecodes(x, b.s, s, t);
    case Array(items) => ArrayDecodes(a, b, s, t);
    case Object(members) => ObjectDecodes(a, b, s, t);
    case _ => SameLengthSplits(Canonical(a), Canonical(b), s, t);
  }

  lemma Unwrap(open: string, body: string, close: string, s: string)
    requires |open| == 1
    ensures (open + body + close + s)[1..] == body + (close + s)
  {
  }

  lemma {:induction false} ArrayDecodes(a: Json, b: Json, s: string, t: string)
    requires a.Array? && b.Array? && WellFormed(a) && WellFormed(b)
    requires Canonical(a) + s == Canonical(b) + t
    ensures PrintItems(a.items) == PrintItems(b.items) && s == t
    decreases a, 0
  {
    Unwrap("[", Join(PrintItems(a.items)), "]", s);
    Unwrap("[", Join(PrintItems(b.items)), "]", t);
    ItemsDecode(a, a.items, b.items, "]" + s, "]" + t);
    SameLengthSplits("]", "]", s, t);
  }

  lemma {:induction false} ObjectDecodes(a: Json, b: Json, s: string, t: string)
    requires a.Object? && b.Object? && WellFormed(a) && WellFormed(b)
    requires Canonical(a) + s == Canonical(b) + t
    ensures SortByKey(PrintMembers(a.members)) == SortByKey(PrintMembers(b.members)) && s == t
    decreases a, 0
  {
    var ps, qs := SortByKey(PrintMembers(a.members)), SortByKey(PrintMembers(b.members));
    Unwrap("{", Join(Rows(ps)), "}", s);
    Unwrap("{", Join(Rows(qs)), "}", t);
    PrintedMembers(a.members);
    PrintedMembers(b.members);
    SortHolds(PrintMembers(a.members), a.members);
    SortHolds(PrintMembers(b.members), b.members);
    RowsDecode(a, b, ps, qs, "}" + s, "}" + t);
    SameLengthSplits("}", "}", s, t);
  }

  /** The text after the first of several parts. */
  function Rest(parts: seq<string>): string
    requires parts != []
  {
    if |parts| == 1 then "" else "," + Join(parts[1..])
  }

  lemma JoinSplits(parts: seq<string>, s: string)
    requires parts != []
    ensures Join(parts) + s == parts[0] + (Rest(parts) + s)
  {
  }

  lemma RestHead(parts: seq<string>, s: string)
    requires parts != [] && s != "" && s[0] in "]}"
    ensures Ends(Rest(parts) + s) && Rest(parts) + s != ""
    ensures (Rest(parts) + s)[0] == ',' <==> |parts| > 1
    ensures |parts| > 1 ==> (Rest(parts) + s)[1..] == Join(parts[1..]) + s
    ensures |parts| == 1 ==> Rest(parts) + s == s
  {
  }

  lemma ItemsHead(xs: seq<Json>, s: string)
    requires forall i | 0 <= i < |xs| :: WellFormed(xs[i])
    requires s != "" && s[0] == ']'
    ensures Join(PrintItems(xs)) + s != ""
    ensures (Join(PrintItems(xs)) + s)[0] == ']' <==> xs == []
    ensures xs == [] ==> Join(PrintItems(xs)) + s == s
  {
    hide Canonical, Rest, WellFormed, Tag, TagOfChar;
    if xs != [] {
      hide Join, PrintItems;
      var rest := Rest(PrintItems(xs)) + s;
      assert Join(PrintItems(xs)) + s == Canonical(xs[0]) + rest by {
        JoinSplits(PrintItems(xs), s);
      }
      ValueHead(xs[0], rest);
    } else {
      assert Join(PrintItems(xs)) + s == s;
    }
  }

  lemma {:induction false} ItemsDecode(parent: Json, xs: seq<Json>, ys: seq<Json>, s: string, t: string)
    requires forall i | 0 <= i < |xs| :: xs[i] < parent && WellFormed(xs[i])
    requires forall i | 0 <= i < |ys| :: WellFormed(ys[i])
    requires s != "" && s[0] == ']' && t != "" && t[0] == ']'
    requires Join(PrintItems(xs)) + s == Join(PrintItems(ys)) + t
    ensures PrintItems(xs) == PrintItems(ys) && s == t
    decreases parent, 0, |xs|
  {
    hide Canonical, Join, Rest;
    ItemsHead(xs, s);
    ItemsHead(ys, t);
    if xs != [] && ys != [] {
      var ps, qs := PrintItems(xs), PrintItems(ys);
      JoinSplits(ps, s);
      JoinSplits(qs, t);
      RestHead(ps, s);
      RestHead(qs, t);
      ValueDecodes(xs[0], ys[0], Rest(ps) + s, Rest(qs) + t);
      assert ps[1..] == PrintItems(xs[1..]) && qs[1..] == PrintItems(ys[1..]);
      if |ps| > 1 {
        ItemsDecode(parent, xs[1..], ys[1..], s, t);
      }
      assert ps == [ps[0]] + ps[1..] && qs == [qs[0]] + qs[1..];
    }
  }

  lemma RowsHead(ps: seq<Printed>, s: string)
    requires s != "" && s[0] == '}'
    ensures Join(Rows(ps)) + s != ""
    ensures (Join(Rows(ps)) + s)[0] == '}' <==> ps == []
    ensures ps == [] ==> Join(Rows(ps)) + s == s
  {
  }

  /** A row, and what follows it, read as key, colon and value. */
  lemma RowSplits(p: Printed, s: string)
    ensures Row(p) + s == Quote(p.key) + (":" + (p.text + s))
  {
  }

  lemma {:induction false} RowsDecode(a: Json, b: Json, ps: seq<Printed>, qs: seq<Printed>, s: string, t: string)
    requires a.Object? && b.Object? && WellFormed(a) && WellFormed(b)
    requires AllPrintedFrom(ps, a.members) && AllPrintedFrom(qs, b.members)
    requires s != "" && s[0] == '}' && t != "" && t[0] == '}'
    requires Join(Rows(ps)) + s == Join(Rows(qs)) + t
    ensures ps == qs && s == t
    decreases a, 0, |ps|
  {
    hide Canonical, Join, Rest, Row, Quote;
    RowsHead(ps, s);
    RowsHead(qs, t);
    if ps != [] && qs != [] {
      var rs, us := Rows(ps), Rows(qs);
      JoinSplits(rs, s);
      JoinSplits(us, t);
      RestHead(rs, s);
      RestHead(us, t);
      RowDecodes(a, b, ps[0], qs[0], Rest(rs) + s, Rest(us) + t);
      assert rs[1..] == Rows(ps[1..]) && us[1..] == Rows(qs[1..]);
      if |ps| > 1 {
        RowsDecode(a, b, ps[1..], qs[1..], s, t);
      }
      assert ps == [ps[0]] + ps[1..] && qs == [qs[0]] + qs[1..];
    }
  }

  lemma {:induction false} RowDecodes(a: Json, b: Json, p: Printed, q: Printed, s: string, t: string)
    requires a.Object? && b.Object? && WellFormed(a) && WellFormed(b)
    requires PrintedFrom(p, a.members) && PrintedFrom(q, b.members)
    requires Ends(s) && Ends(t) && Row(p) + s == Row(q) + t
    ensures p == q && s == t
    decreases a, 0, 0
  {
    RowSplits(p, s);
    RowSplits(q, t);
    QuoteDecodes(p.key, q.key, ":" + (p.text + s), ":" + (q.text + t));
    SameLengthSplits(":", ":", p.text + s, q.text + t);
    var m :| m in a.members && p == Printed(m.key, Canonical(m.value));
    var n :| n in b.members && q == Printed(n.key, Canonical(n.value));
    ValueDecodes(m.value, n.value, s, t);
  }

  // ------------------------------------------------------------------ the theorem

  /** One text per meaning: the fingerprint ignores exactly key order, undefined members and which of
      null and the infinite numbers a value is. */
  lemma {:induction false} SameTextSameMeaning(a: Json, b: Json)
    requires WellFormed(a) && WellFormed(b)
    ensures Canonical(a) == Canonical(b) <==> Meaning(a) == Meaning(b)
    decreases a
  {
    ValueHead(a, "");
    ValueHead(b, "");
    assert Canonical(a) + "" == Canonical(a) && Canonical(b) + "" == Canonical(b);
    if Tag(a) == Tag(b) {
      match a
      case Text(x) =>
        if Canonical(a) == Canonical(b) { QuoteDecodes(x, b.s, "", ""); }
      case Array(items) => SameItems(a, b);
      case Object(members) => SameMembers(a, b);
      case _ =>
    }
  }

  lemma {:induction false} SameItems(a: Json, b: Json)
    requires a.Array? && b.Array? && WellFormed(a) && WellFormed(b)
    ensures Canonical(a) == Canonical(b) <==> Meaning(a) == Meaning(b)
    decreases a, 0
  {
    if Canonical(a) == Canonical(b) {
      ArrayDecodes(a, b, "", "");
    }
    assert |PrintItems(a.items)| == |MeaningOfItems(a.items)| && |PrintItems(b.items)| == |MeaningOfItems(b.items)|;
    if |a.items| == |b.items| {
      forall i | 0 <= i < |a.items|
        ensures PrintItems(a.items)[i] == PrintItems(b.items)[i]
                <==> MeaningOfItems(a.items)[i] == MeaningOfItems(b.items)[i]
      {
        SameTextSameMeaning(a.items[i], b.items[i]);
      }
      assert PrintItems(a.items) == PrintItems(b.items) <==> MeaningOfItems(a.items) == MeaningOfItems(b.items);
    }
  }

  lemma {:induction false} SameMembers(a: Json, b: Json)
    requires a.Object? && b.Object? && WellFormed(a) && WellFormed(b)
    ensures Canonical(a) == Canonical(b) <==> Meaning(a) == Meaning(b)
    decreases a, 0
  {
    var ps, qs := PrintMembers(a.members), PrintMembers(b.members);
    PrintedMembers(a.members);
    PrintedMembers(b.members);
    SortKeeps(ps);
    SortKeeps(qs);
    MembersAgree(a, b);
    if Canonical(a) == Canonical(b) {
      ObjectDecodes(a, b, "", "");
      assert MeaningOfMembers(a.members) == MeaningOfMembers(b.members);
    }
    if Meaning(a) == Meaning(b) {
      assert Dict(ps) == Dict(qs);
      SortedIsUnique(SortByKey(ps), SortByKey(qs));
    }
  }

  /** Key by key, two objects print the same exactly when they mean the same. */
  lemma {:induction false} MembersAgree(a: Json, b: Json)
    requires a.Object? && b.Object? && WellFormed(a) && WellFormed(b)
    ensures forall k :: k in Dict(PrintMembers(a.members)) <==> k in MeaningOfMembers(a.members)
    ensures forall k :: k in Dict(PrintMembers(b.members)) <==> k in MeaningOfMembers(b.members)
    ensures forall k | k in MeaningOfMembers(a.members) && k in MeaningOfMembers(b.members) ::
              Dict(PrintMembers(a.members))[k] == Dict(PrintMembers(b.members))[k]
              <==> MeaningOfMembers(a.members)[k] == MeaningOfMembers(b.members)[k]
    decreases a, 0, 0
  {
    forall k
      ensures k in Dict(PrintMembers(a.members)) <==> k in MeaningOfMembers(a.members)
      ensures k in Dict(PrintMembers(b.members)) <==> k in MeaningOfMembers(b.members)
      ensures k in MeaningOfMembers(a.members) && k in MeaningOfMembers(b.members) ==>
                (Dict(PrintMembers(a.members))[k] == Dict(PrintMembers(b.members))[k]
                 <==> MeaningOfMembers(a.members)[k] == MeaningOfMembers(b.members)[k])
    {
      MembersByKey(a.members, k);
      MembersByKey(b.members, k);
      if k in MeaningOfMembers(a.members) && k in MeaningOfMembers(b.members) {
        var m :| m in a.members && m.key == k
                 && Dict(PrintMembers(a.members))[k] == Canonical(m.value)
                 && MeaningOfMembers(a.members)[k] == Meaning(m.value);
        var n :| n in b.members && n.key == k
                 && Dict(PrintMembers(b.members))[k] == Canonical(n.value)
                 && MeaningOfMembers(b.members)[k] == Meaning(n.value);
        SameTextSameMeaning(m.value, n.value);
      }
    }
  }

  // ------------------------------------------------------------------ it is JSON

  function HexValue(c: char): Option<nat> {
    if '0' <= c <= '9' then Some(c as int - '0' as int)
    else if 'a' <= c <= 'f' then Some(c as int - 'a' as int + 10)
    else if 'A' <= c <= 'F' then Some(c as int - 'A' as int + 10)
    else None
  }

  /** What the character after a backslash stands for, but for the four digits of a code. */
  function EscapedCode(c: char): Option<nat> {
    match c
    case '\"' => Some(0x22)
    case '\\' => Some(0x5C)
    case '/' => Some(0x2F)
    case 'b' => Some(0x08)
    case 'f' => Some(0x0C)
    case 'n' => Some(0x0A)
    case 'r' => Some(0x0D)
    case 't' => Some(0x09)
    case _ => None
  }

  function CodeOf(digits: string): Option<nat>
    requires |digits| == 4
  {
    var a, b, c, d := HexValue(digits[0]), HexValue(digits[1]), HexValue(digits[2]), HexValue(digits[3]);
    if a.None? || b.None? || c.None? || d.None? then None
    else Some(0x1000 * a.value + 0x100 * b.value + 0x10 * c.value + d.value)
  }

  /** The characters between the quotation marks of a string, as section 7 of RFC 8259 reads them. */
  function Unescaped(t: string): Option<string> {
    if t == "" then Some("")
    else if t[0] != '\\' then
      var rest := Unescaped(t[1..]);
      if t[0] == '\"' || t[0] as int < 0x20 || rest.None? then None else Some([t[0]] + rest.value)
    else if |t| >= 2 && EscapedCode(t[1]).Some? then
      var rest := Unescaped(t[2..]);
      if rest.None? then None else Some([EscapedCode(t[1]).value as char] + rest.value)
    else if |t| >= 6 && t[1] == 'u' && CodeOf(t[2..6]).Some? && CodeOf(t[2..6]).value < 0xD800 then
      var rest := Unescaped(t[6..]);
      if rest.None? then None else Some([CodeOf(t[2..6]).value as char] + rest.value)
    else None
  }

  lemma HexReads(n: nat)
    requires n < 16
    ensures HexValue(HexDigit(n)) == Some(n) && HexValue('0') == Some(0) && !('A' <= HexDigit(n) <= 'F')
  {
  }

  lemma PlainReads(c: char, rest: string)
    requires c != '\"' && c != '\\' && c as int >= 0x20
    ensures Unescaped([c] + rest) == if Unescaped(rest).Some? then Some([c] + Unescaped(rest).value) else None
  {
    assert ([c] + rest)[1..] == rest;
  }

  lemma ShortReads(c: char, rest: string)
    requires EscapedCode(c).Some?
    ensures Unescaped(['\\', c] + rest)
            == if Unescaped(rest).Some? then Some([EscapedCode(c).value as char] + Unescaped(rest).value) else None
  {
    assert (['\\', c] + rest)[2..] == rest;
  }

  lemma CodeReads(digits: string, rest: string)
    requires |digits| == 4 && CodeOf(digits).Some? && CodeOf(digits).value < 0xD800
    ensures Unescaped(['\\', 'u'] + digits + rest)
            == if Unescaped(rest).Some? then Some([CodeOf(digits).value as char] + Unescaped(rest).value) else None
  {
    var t := ['\\', 'u'] + digits + rest;
    assert t[2..6] == digits && t[6..] == rest;
  }

  lemma EscapeCharReads(c: char, rest: string)
    ensures Unescaped(EscapeChar(c) + rest)
            == if Unescaped(rest).Some? then Some([c] + Unescaped(rest).value) else None
  {
    hide Unescaped;
    var escaped := EscapeChar(c);
    if |escaped| == 1 {
      PlainReads(c, rest);
    } else if |escaped| == 2 {
      assert escaped == ['\\', escaped[1]];
      ShortReads(escaped[1], rest);
    } else {
      var digits := ['0', '0', HexDigit(c as int / 16), HexDigit(c as int % 16)];
      HexReads(c as int / 16);
      HexReads(c as int % 16);
      assert escaped == ['\\', 'u'] + digits;
      CodeReads(digits, rest);
    }
  }

  /** What is printed of a text is read back as that text. */
  lemma {:induction false} TextReads(s: string)
    ensures Unescaped(Escape(s)) == Some(s)
    ensures Quote(s) == ['\"'] + Escape(s) + ['\"']
  {
    if s != "" {
      TextReads(s[1..]);
      EscapeCharReads(s[0], Escape(s[1..]));
      assert s == [s[0]] + s[1..];
    }
  }

  /** Literals and numbers are written as section 3 of RFC 8259 writes them, arrays in order, and objects
      by their defined members in the order of their keys. */
  lemma ValuesRead(v: Json, a: string, b: string)
    ensures v.Null? || v.Undefined? || v.Infinite? ==> Canonical(v) == "null"
    ensures v == Bool(true) ==> Canonical(v) == "true"
    ensures v == Bool(false) ==> Canonical(v) == "false"
    ensures v.Number? ==> Canonical(v) == v.text
    ensures v.Text? ==> Canonical(v) == "\"" + Escape(v.s) + "\""
    ensures Join([]) == "" && Join([a]) == a && Join([a, b]) == a + "," + b
    ensures v.Array? ==> Canonical(v) == "[" + Join(PrintItems(v.items)) + "]"
    ensures v.Object? && DistinctKeys(v.members) ==>
              exists ps :: Sorted(ps) && Dict(ps) == Dict(PrintMembers(v.members))
                           && Canonical(v) == "{" + Join(Rows(ps)) + "}"
  {
    assert [a, b][1..] == [b];
    if v.Object? && DistinctKeys(v.members) {
      PrintedMembers(v.members);
      SortKeeps(PrintMembers(v.members));
    }
  }

  /** So a call with an amount too large for a number shares its approval with one that has none. */
  lemma TooLargeReadsAsNull(key: string, negative: bool)
    ensures Object([Member(key, Infinite(negative))]) != Object([Member(key, Null)])
    ensures Canonical(Object([Member(key, Infinite(negative))])) == Canonical(Object([Member(key, Null)]))
  {
    var large, none := [Member(key, Infinite(negative))], [Member(key, Null)];
    assert large[0] != none[0];
    assert large[1..] == none[1..] == [];
    assert MeaningOfMembers(large) == MeaningOfMembers(none);
    SameTextSameMeaning(Object(large), Object(none));
  }
}
