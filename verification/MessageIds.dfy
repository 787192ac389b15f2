/** Identities made up for messages whose sender gave none, and when two of them are the same. */
module MessageIds {
  import opened Keys
  import opened Texts

  /** A character that reaches an identity as itself. */
  predicate Safe(c: char) {
    'a' <= c <= 'z' || '0' <= c <= '9' || c == '.' || c == '_' || c == '-'
  }

  predicate AllSafe(s: string) {
    forall i | 0 <= i < |s| :: Safe(s[i])
  }

  /** Each run of other characters becomes one dash. `inRun` says whether a run is under way. */
  function Dashed(s: string, inRun: bool): (r: string)
    ensures AllSafe(r)
  {
    if s == "" then ""
    else if Safe(s[0]) then [s[0]] + Dashed(s[1..], false)
    else (if inRun then "" else "-") + Dashed(s[1..], true)
  }

  /** Lower case, as far as it matters: letters that become safe ones, two of them from outside ASCII.
      Whatever another character becomes is not safe either. */
  function Lower(c: char): (r: string)
    ensures r != ""
  {
    if 'A' <= c <= 'Z' then [(c as int + 32) as char]
    else if c as int == 0x212A then "k"
    else if c as int == 0x0130 then ['i', 0x307 as char]
    else [c]
  }

  function LowerAll(s: string): string {
    if s == "" then "" else Lower(s[0]) + LowerAll(s[1..])
  }

  /** What is left of a name once case and surrounding space are gone. */
  function Folded(name: string): string {
    LowerAll(Trim(name))
  }

  function TokenOf(folded: string): (token: string)
    ensures AllSafe(token) && token != ""
  {
    var token := Dashed(folded, false);
    if token != "" then token else "unknown"
  }

  /** The token of a folder or a host. */
  function RefToken(name: string): (token: string)
    ensures AllSafe(token) && token != ""
  {
    TokenOf(Folded(name))
  }

  function LocalId(uid: nat): string {
    "<uid." + (Decimal(uid) + "@local>")
  }

  function SynthesisedId(uid: nat, validity: nat, folder: string, host: string): string {
    "<uid." + (Decimal(uid) + ("." + AfterUid(validity, folder, host)))
  }

  function AfterUid(validity: nat, folder: string, host: string): string {
    "v" + (Decimal(validity) + ("." + AfterValidity(folder, host)))
  }

  function AfterValidity(folder: string, host: string): string {
    RefToken(folder) + ("@" + (RefToken(host) + ">"))
  }

  /** A run of characters that do not reach an identity becomes one dash, and one that does stays. */
  lemma {:induction false} RunIsOneDash(run: string, rest: string)
    requires run != "" && forall c | c in run :: !Safe(c)
    requires rest == "" || Safe(rest[0])
    ensures Dashed(run + rest, false) == "-" + Dashed(rest, false)
    ensures Dashed(run + rest, true) == Dashed(rest, false)
  {
    var s := run + rest;
    assert s[0] == run[0] && s[1..] == run[1..] + rest;
    assert run[0] in run;
    if |run| == 1 {
      assert s[1..] == rest;
    } else {
      RunIsOneDash(run[1..], rest);
    }
  }

  /** The characters that reach an identity, and the letters that are made small first. */
  lemma CharactersRead(c: char)
    ensures var u := c as int; Safe(c) <==> 0x61 <= u <= 0x7A || 0x30 <= u <= 0x39 || u in {0x2D, 0x2E, 0x5F}
    ensures 0x41 <= c as int <= 0x5A ==> |Lower(c)| == 1 && Safe(Lower(c)[0]) && Lower(c)[0] as int == c as int + 0x20
    ensures Safe(c) ==> Lower(c) == [c]
  {
  }

  // ------------------------------------------------------------------ taking an identity apart

  /** Up to its first such character, a text comes apart in one way. */
  lemma SplitsOnce(a: string, x: string, b: string, y: string, c: char)
    requires Free(a, c) && Free(b, c) && x != "" && x[0] == c && y != "" && y[0] == c && a + x == b + y
    ensures a == b && x[1..] == y[1..]
  {
    FirstAfter(a, x, c);
    FirstAfter(b, y, c);
    var s, t := a + x, b + y;
    assert a == s[..|a|] && b == t[..|b|] && x == s[|a|..] && y == t[|b|..];
  }

  lemma DecimalIsFree(n: nat, c: char)
    requires !('0' <= c <= '9')
    ensures Free(Decimal(n), c)
  {
    DecimalIsDigits(n);
  }

  lemma Behind(prefix: string, a: string, b: string)
    ensures prefix + a == prefix + b <==> a == b
  {
    assert a == (prefix + a)[|prefix|..] && b == (prefix + b)[|prefix|..];
  }

  lemma Ahead(a: string, b: string, suffix: string)
    ensures a + suffix == b + suffix <==> a == b
  {
    assert a == (a + suffix)[..|a|] && b == (b + suffix)[..|b|];
  }

  /** Two made-up identities are the same exactly when the messages have the same number in a mailbox of
      the same generation, under folders and on hosts whose tokens are the same. */
  lemma SameIdExactlyWhen(u: nat, v: nat, f: string, h: string, u': nat, v': nat, f': string, h': string)
    ensures SynthesisedId(u, v, f, h) == SynthesisedId(u', v', f', h')
            <==> u == u' && v == v' && RefToken(f) == RefToken(f') && RefToken(h) == RefToken(h')
  {
    hide Decimal, RefToken, AfterUid;
    if SynthesisedId(u, v, f, h) == SynthesisedId(u', v', f', h') {
      var x, y := "." + AfterUid(v, f, h), "." + AfterUid(v', f', h');
      Behind("<uid.", Decimal(u) + x, Decimal(u') + y);
      DecimalIsFree(u, '.');
      DecimalIsFree(u', '.');
      SplitsOnce(Decimal(u), x, Decimal(u'), y, '.');
      DecimalInjective(u, u');
      Behind(".", AfterUid(v, f, h), AfterUid(v', f', h'));
    }
    SameAfterUid(v, f, h, v', f', h');
  }

  lemma SameAfterUid(v: nat, f: string, h: string, v': nat, f': string, h': string)
    ensures AfterUid(v, f, h) == AfterUid(v', f', h')
            <==> v == v' && RefToken(f) == RefToken(f') && RefToken(h) == RefToken(h')
  {
    hide Decimal, RefToken, AfterValidity;
    var x, y := "." + AfterValidity(f, h), "." + AfterValidity(f', h');
    Behind("v", Decimal(v) + x, Decimal(v') + y);
    DecimalIsFree(v, '.');
    DecimalIsFree(v', '.');
    if Decimal(v) + x == Decimal(v') + y {
      SplitsOnce(Decimal(v), x, Decimal(v'), y, '.');
      DecimalInjective(v, v');
    }
    Behind(".", AfterValidity(f, h), AfterValidity(f', h'));
    SameTokens(f, h, f', h');
  }

  lemma SameTokens(f: string, h: string, f': string, h': string)
    ensures AfterValidity(f, h) == AfterValidity(f', h') <==> RefToken(f) == RefToken(f') && RefToken(h) == RefToken(h')
  {
    hide RefToken;
    var x, y := "@" + (RefToken(h) + ">"), "@" + (RefToken(h') + ">");
    if RefToken(f) + x == RefToken(f') + y { SplitsOnce(RefToken(f), x, RefToken(f'), y, '@'); }
    Behind("@", RefToken(h) + ">", RefToken(h') + ">");
    Ahead(RefToken(h), RefToken(h'), ">");
  }

  /** An identity made up without a mailbox is never one made up with one. */
  lemma LocalIsApart(u: nat, u': nat, v: nat, f: string, h: string)
    ensures LocalId(u) != SynthesisedId(u', v, f, h)
  {
    hide Decimal, RefToken, AfterUid;
    var a, b := Decimal(u) + "@local>", Decimal(u') + ("." + AfterUid(v, f, h));
    DecimalIsFree(u, '.');
    DecimalIsFree(u', '.');
    assert Free(a, '.');
    FirstAfter(a, "", '.');
    FirstAfter(Decimal(u'), "." + AfterUid(v, f, h), '.');
    assert a + "" == a && |b| > |Decimal(u')|;
    Behind("<uid.", a, b);
  }

  // ------------------------------------------------------------------ which names share a token

  /** A name no other name shares its token with. */
  predicate Plain(name: string) {
    AllSafe(name) && Free(name, '-') && name != "" && name != "unknown"
  }

  lemma {:induction false} SafeIsKept(s: string, inRun: bool)
    requires AllSafe(s)
    ensures Dashed(s, inRun) == s
  {
    if s != "" {
      SafeIsKept(s[1..], false);
      assert s == [s[0]] + s[1..];
    }
  }

  /** What leaves no dash behind had nothing to replace. */
  lemma {:induction false} NoDashNoChange(s: string)
    ensures Free(Dashed(s, false), '-') ==> Dashed(s, false) == s
  {
    if s != "" {
      var rest := Dashed(s[1..], !Safe(s[0]));
      if Safe(s[0]) {
        assert Dashed(s, false) == [s[0]] + rest;
        assert forall i | 0 <= i < |rest| :: rest[i] == Dashed(s, false)[i + 1];
        NoDashNoChange(s[1..]);
        assert s == [s[0]] + s[1..];
      } else {
        assert Dashed(s, false)[0] == '-';
      }
    }
  }

  /** A dash might as well have been something to replace. */
  lemma {:induction false} DashStandsForAnything(s: string, i: nat)
    requires AllSafe(s) && i < |s| && s[i] == '-'
    ensures Dashed(s[i := '+'], false) == s
  {
    var t := s[i := '+'];
    if i == 0 {
      assert t[1..] == s[1..];
      SafeIsKept(s[1..], true);
      assert s == "-" + s[1..];
    } else {
      assert t[1..] == s[1..][i - 1 := '+'];
      DashStandsForAnything(s[1..], i - 1);
      assert s == [s[0]] + s[1..];
    }
  }

  /** What folding leaves as it is. */
  predicate Settled(s: string) {
    (forall c | c in s :: Lower(c) == [c]) && (s == "" || (!Space(s[0]) && !Space(s[|s| - 1])))
  }

  lemma {:induction false} LoweredAlready(s: string)
    requires forall c | c in s :: Lower(c) == [c]
    ensures LowerAll(s) == s
  {
    if s != "" {
      LoweredAlready(s[1..]);
      assert s == [s[0]] + s[1..];
    }
  }

  lemma TrimmedAlready(s: string)
    requires s != "" && !Space(s[0]) && !Space(s[|s| - 1])
    ensures Trim(s) == s
  {
  }

  lemma SettledStays(s: string)
    requires Settled(s)
    ensures Folded(s) == s
  {
    hide LowerAll, Trim;
    LoweredAlready(s);
    if s == "" { TrimsToNothing(s); } else { TrimmedAlready(s); }
  }

  /** A name shares its token only with names that differ from it in case and surrounding space, exactly
      when what is left of it is made of safe characters, none of them a dash, and is not the stand-in for
      no name at all. */
  lemma OwnTokenExactlyWhen(name: string)
    ensures (forall other | RefToken(other) == RefToken(name) :: Folded(other) == Folded(name))
            <==> Plain(Folded(name))
  {
    hide Folded;
    var folded := Folded(name);
    if Plain(folded) {
      SafeIsKept(folded, false);
      forall other | RefToken(other) == RefToken(name) ensures Folded(other) == folded {
        NoDashNoChange(Folded(other));
      }
    } else {
      var other := Double(folded);
      SettledStays(other);
      assert RefToken(other) == RefToken(name) && Folded(other) != folded;
    }
  }

  lemma SafeIsSettled(s: string)
    requires AllSafe(s)
    ensures Settled(s)
  {
  }

  lemma PlusIsSettled(s: string, i: nat)
    requires AllSafe(s) && i < |s|
    ensures Settled(s[i := '+'])
  {
    forall c | c in s[i := '+'] ensures Lower(c) == [c] {
      assert c == '+' || Safe(c);
    }
  }

  /** Another name with the same token. */
  lemma Double(name: string) returns (other: string)
    requires !Plain(name)
    ensures TokenOf(other) == TokenOf(name) && other != name && Settled(other)
  {
    hide Settled, Dashed;
    if name == "" {
      SafeIsKept("", false);
      SafeIsKept("unknown", false);
      other := "unknown";
      SafeIsSettled(other);
    } else if name == "unknown" {
      SafeIsKept(name, false);
      other := "";
      SafeIsSettled(other);
      assert TokenOf(other) == "unknown" by { SafeIsKept("", false); }
    } else if AllSafe(name) {
      var i :| 0 <= i < |name| && name[i] == '-';
      DashStandsForAnything(name, i);
      SafeIsKept(name, false);
      other := name[i := '+'];
      PlusIsSettled(name, i);
    } else {
      other := TokenOf(name);
      SafeIsKept(other, false);
      SafeIsSettled(other);
    }
  }
}
