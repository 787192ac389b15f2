/** The idempotency keys the loop mints, as the texts the store and Firefly search for. */
module Keys {

  datatype Key =
    | CallKey(seqNo: nat)                          // one Operation call
    | EscalationKey(count: nat)                    // one stuck-Conversation question
    | ApprovalKey(argsHash: string, attempt: nat)  // one approval question

  function Digit(n: nat): char
    requires n < 10
  {
    "0123456789"[n]
  }

  function Decimal(n: nat): string {
    if n < 10 then [Digit(n)] else Decimal(n / 10) + [Digit(n % 10)]
  }

  predicate Free(s: string, c: char) {
    forall i | 0 <= i < |s| :: s[i] != c
  }

  predicate Digits(s: string) {
    forall i | 0 <= i < |s| :: '0' <= s[i] <= '9'
  }

  lemma {:induction false} DecimalIsDigits(n: nat)
    ensures Digits(Decimal(n)) && Decimal(n) != ""
  {
    if n >= 10 { DecimalIsDigits(n / 10); }
  }

  lemma {:induction false} DecimalInjective(m: nat, n: nat)
    requires Decimal(m) == Decimal(n)
    ensures m == n
  {
    DecimalIsDigits(m / 10);
    DecimalIsDigits(n / 10);
    var a, b := Decimal(m), Decimal(n);
    assert m >= 10 ==> |a| >= 2;
    assert n >= 10 ==> |b| >= 2;
    assert a[|a| - 1] == Digit(m % 10) && b[|b| - 1] == Digit(n % 10);
    assert m % 10 == n % 10;
    if m >= 10 {
      assert a[..|a| - 1] == Decimal(m / 10) && b[..|b| - 1] == Decimal(n / 10);
      DecimalInjective(m / 10, n / 10);
    }
  }

  // ------------------------------------------------------------------ the digest of an arguments hash

  function HexDigit(n: nat): char
    requires n < 16
  {
    "0123456789abcdef"[n]
  }

  /** The last so many hexadecimal digits. */
  function Hex(n: nat, width: nat): (digits: string)
    ensures |digits| == width
  {
    if width == 0 then "" else Hex(n / 16, width - 1) + [HexDigit(n % 16)]
  }

  function Sixteens(width: nat): nat {
    if width == 0 then 1 else 16 * Sixteens(width - 1)
  }

  /** Stands for the hexadecimal digest a key carries: hexadecimal digits, and no two texts share one. */
  function Digest(text: string): (digest: string)
    ensures |digest| == 6 * |text|
  {
    if text == "" then "" else Hex(text[0] as int, 6) + Digest(text[1..])
  }

  lemma {:induction false} HexInjective(m: nat, n: nat, width: nat)
    requires m < Sixteens(width) && n < Sixteens(width) && Hex(m, width) == Hex(n, width)
    ensures m == n
  {
    if width > 0 {
      var a, b := Hex(m / 16, width - 1), Hex(n / 16, width - 1);
      assert (a + [HexDigit(m % 16)])[..width - 1] == a && (b + [HexDigit(n % 16)])[..width - 1] == b;
      assert (a + [HexDigit(m % 16)])[width - 1] == (b + [HexDigit(n % 16)])[width - 1];
      HexInjective(m / 16, n / 16, width - 1);
    }
  }

  lemma CharsFit(c: char)
    ensures (c as int) < Sixteens(6)
  {
    assert Sixteens(6) == 16 * Sixteens(5) == 256 * Sixteens(4) == 4096 * Sixteens(3);
  }

  lemma {:induction false} HexIsFree(n: nat, width: nat)
    ensures Free(Hex(n, width), ':')
  {
    if width > 0 { HexIsFree(n / 16, width - 1); }
  }

  lemma {:induction false} DigestInjective(s: string, t: string)
    requires Digest(s) == Digest(t)
    ensures s == t
  {
    if s != "" {
      assert |t| == |s|;
      assert Digest(s)[..6] == Hex(s[0] as int, 6) && Digest(t)[..6] == Hex(t[0] as int, 6);
      CharsFit(s[0]);
      CharsFit(t[0]);
      HexInjective(s[0] as int, t[0] as int, 6);
      assert Digest(s)[6..] == Digest(s[1..]) && Digest(t)[6..] == Digest(t[1..]);
      DigestInjective(s[1..], t[1..]);
      assert s == [s[0]] + s[1..] && t == [t[0]] + t[1..];
    }
  }

  lemma {:induction false} DigestIsFree(text: string)
    ensures Free(Digest(text), ':')
  {
    if text != "" {
      HexIsFree(text[0] as int, 6);
      DigestIsFree(text[1..]);
    }
  }

  // ------------------------------------------------------------------ fields between colons

  function Fields(thingId: string, key: Key): seq<string> {
    match key
    case CallKey(n) => [thingId, Decimal(n)]
    case EscalationKey(n) => [thingId, "escalation", Decimal(n)]
    case ApprovalKey(hash, attempt) => ["approval", thingId, Digest(hash), Decimal(attempt)]
  }

  function JoinColon(fields: seq<string>): string
    requires fields != []
  {
    if |fields| == 1 then fields[0] else fields[0] + ":" + JoinColon(fields[1..])
  }

  function KeyText(thingId: string, key: Key): string {
    JoinColon(Fields(thingId, key))
  }

  ghost predicate ColonFree(fields: seq<string>) {
    forall f | f in fields :: Free(f, ':')
  }

  /** How far a text goes before this character first comes. */
  /** The number a text of digits stands for. */
  function Read(digits: string): int {
    if digits == "" then 0
    else 10 * Read(digits[..|digits| - 1]) + (digits[|digits| - 1] as int - '0' as int)
  }

  lemma {:induction false} DecimalReads(n: nat)
    ensures Read(Decimal(n)) == n
  {
    var s := Decimal(n);
    if n < 10 {
      assert s[..0] == "";
    } else {
      DecimalReads(n / 10);
      assert s[..|s| - 1] == Decimal(n / 10);
    }
  }

  lemma JoinsTwo(a: string, b: string)
    ensures JoinColon([a, b]) == a + ":" + b
  {
    assert [a, b][1..] == [b];
  }

  lemma JoinsMore(a: string, fields: seq<string>)
    requires fields != []
    ensures JoinColon([a] + fields) == a + ":" + JoinColon(fields)
  {
    assert ([a] + fields)[1..] == fields;
  }

  /** The three keys as they are written out. */
  lemma KeyTextsRead(thingId: string, hash: string, n: nat)
    ensures KeyText(thingId, CallKey(n)) == thingId + ":" + Decimal(n)
    ensures KeyText(thingId, EscalationKey(n)) == thingId + ":escalation:" + Decimal(n)
    ensures KeyText(thingId, ApprovalKey(hash, n)) == "approval:" + thingId + ":" + Digest(hash) + ":" + Decimal(n)
  {
    hide Decimal, Digest, JoinColon;
    var number := Decimal(n);
    JoinsTwo(thingId, number);
    JoinsTwo("escalation", number);
    JoinsMore(thingId, ["escalation", number]);
    JoinsTwo(Digest(hash), number);
    JoinsMore(thingId, [Digest(hash), number]);
    JoinsMore("approval", [thingId, Digest(hash), number]);
    assert [thingId] + ["escalation", number] == [thingId, "escalation", number];
    assert [thingId] + [Digest(hash), number] == [thingId, Digest(hash), number];
    assert ["approval"] + [thingId, Digest(hash), number] == ["approval", thingId, Digest(hash), number];
  }

  function First(s: string, c: char): nat {
    if s == "" || s[0] == c then 0 else 1 + First(s[1..], c)
  }

  lemma {:induction false} FirstAfter(f: string, rest: string, c: char)
    requires Free(f, c) && (rest == "" || rest[0] == c)
    ensures First(f + rest, c) == |f|
  {
    if f == "" {
      assert f + rest == rest;
    } else {
      FirstAfter(f[1..], rest, c);
      assert (f + rest)[1..] == f[1..] + rest;
    }
  }

  lemma JoinHead(fields: seq<string>)
    requires fields != [] && ColonFree(fields)
    ensures First(JoinColon(fields), ':') == |fields[0]| <= |JoinColon(fields)|
    ensures JoinColon(fields)[..|fields[0]|] == fields[0]
    ensures |fields[0]| == |JoinColon(fields)| <==> |fields| == 1
    ensures |fields| > 1 ==> JoinColon(fields)[|fields[0]| + 1..] == JoinColon(fields[1..])
  {
    if |fields| == 1 {
      FirstAfter(fields[0], "", ':');
      assert fields[0] + "" == fields[0];
    } else {
      var rest := ":" + JoinColon(fields[1..]);
      FirstAfter(fields[0], rest, ':');
      assert JoinColon(fields) == fields[0] + rest;
    }
  }

  lemma {:induction false} JoinInjective(fs: seq<string>, gs: seq<string>)
    requires fs != [] && gs != [] && ColonFree(fs) && ColonFree(gs)
    requires JoinColon(fs) == JoinColon(gs)
    ensures fs == gs
  {
    JoinHead(fs);
    JoinHead(gs);
    if |fs| > 1 {
      JoinInjective(fs[1..], gs[1..]);
      assert fs == [fs[0]] + fs[1..] && gs == [gs[0]] + gs[1..];
    }
  }

  lemma FieldsAreColonFree(thingId: string, key: Key)
    requires Free(thingId, ':')
    ensures ColonFree(Fields(thingId, key))
  {
    match key
    case CallKey(n) => DecimalIsDigits(n);
    case EscalationKey(n) => DecimalIsDigits(n);
    case ApprovalKey(hash, n) =>
      DecimalIsDigits(n);
      DigestIsFree(hash);
  }

  /** No two calls, escalations or approvals of any two Conversations ever share a key text. */
  lemma KeyTextInjective(t: string, u: string, k: Key, l: Key)
    requires Free(t, ':') && Free(u, ':')
    requires KeyText(t, k) == KeyText(u, l)
    ensures t == u && k == l
  {
    hide Digest, Decimal;
    var fs, gs := Fields(t, k), Fields(u, l);
    FieldsAreColonFree(t, k);
    FieldsAreColonFree(u, l);
    JoinInjective(fs, gs);
    assert fs[|fs| - 1] == gs[|gs| - 1];
    match k
    case CallKey(n) => DecimalInjective(n, l.seqNo);
    case EscalationKey(n) => DecimalInjective(n, l.count);
    case ApprovalKey(hash, n) =>
      assert fs[2] == gs[2];
      DecimalInjective(n, l.attempt);
      DigestInjective(hash, l.argsHash);
  }
}
