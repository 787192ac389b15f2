/** Trimming, as every module that reads names or values from text does it. */
module Texts {
  /** What JavaScript's `trim` removes: white space and line terminators (ECMA-262, sections 12.2 and 12.3). */
  predicate Space(c: char) {
    var u := c as int;
    || 0x09 <= u <= 0x0D || u == 0x20 || u == 0xA0 || u == 0x1680 || 0x2000 <= u <= 0x200A
    || u == 0x2028 || u == 0x2029 || u == 0x202F || u == 0x205F || u == 0x3000 || u == 0xFEFF
  }

  /** One by one. */
  lemma SpacesRead(c: char)
    ensures Space(c) <==>
              c as int in {0x09, 0x0A, 0x0B, 0x0C, 0x0D, 0x20, 0xA0, 0x1680, 0x2000, 0x2001, 0x2002, 0x2003, 0x2004,
                           0x2005, 0x2006, 0x2007, 0x2008, 0x2009, 0x200A, 0x2028, 0x2029, 0x202F, 0x205F, 0x3000,
                           0xFEFF}
  {
  }

  predicate Blank(s: string) {
    forall c | c in s :: Space(c)
  }

  function TrimStart(s: string): (r: string)
    ensures |r| <= |s| && (r == [] || !Space(r[0]))
  {
    if s != [] && Space(s[0]) then TrimStart(s[1..]) else s
  }

  function TrimEnd(s: string): (r: string)
    ensures r <= s && (r == [] || !Space(r[|r| - 1]))
  {
    if s != [] && Space(s[|s| - 1]) then TrimEnd(s[..|s| - 1]) else s
  }

  function Trim(s: string): string {
    TrimEnd(TrimStart(s))
  }

  /** Trimming leaves nothing exactly when there was nothing but space. */
  lemma {:induction false} TrimsToNothing(s: string)
    ensures Trim(s) == "" <==> Blank(s)
    decreases |s|
  {
    if s == "" {
    } else if Space(s[0]) {
      TrimsToNothing(s[1..]);
      assert s == [s[0]] + s[1..];
    } else {
      KeepsTheHead(s);
      assert s[0] in s;
    }
  }

  lemma {:induction false} KeepsTheHead(s: string)
    requires s != "" && !Space(s[0])
    ensures TrimEnd(s) != "" && TrimEnd(s)[0] == s[0]
    decreases |s|
  {
    if Space(s[|s| - 1]) { KeepsTheHead(s[..|s| - 1]); }
  }
}
