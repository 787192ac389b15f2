/** Mail: what one poll downloads, and the names its parts go by whatever the size cap. */
module Email {
  import opened Wrappers
  import Keys

  // ------------------------------------------------------------------ what one poll takes

  /** A message before its bytes: the UID of section 2.3.1.1 and the size of section 2.3.4 of RFC 3501. */
  datatype Message = Message(uid: nat, size: nat, from: string)

  datatype Limits = Limits(maxMessageBytes: nat, maxTotalBytes: nat)

  function Bytes(messages: seq<Message>): nat {
    if messages == [] then 0 else Bytes(messages[..|messages| - 1]) + messages[|messages| - 1].size
  }

  predicate Fits(m: Message, limits: Limits) {
    m.size <= limits.maxMessageBytes
  }

  /** The messages that fit, or those that do not, in order. */
  function Fitting(messages: seq<Message>, limits: Limits, fits: bool): seq<Message> {
    if messages == [] then []
    else
      var rest, last := Fitting(messages[..|messages| - 1], limits, fits), messages[|messages| - 1];
      if Fits(last, limits) == fits then rest + [last] else rest
  }

  lemma FittingNext(messages: seq<Message>, limits: Limits, i: nat)
    requires i < |messages|
    ensures Fitting(messages[..i + 1], limits, Fits(messages[i], limits))
            == Fitting(messages[..i], limits, Fits(messages[i], limits)) + [messages[i]]
    ensures Fitting(messages[..i + 1], limits, !Fits(messages[i], limits))
            == Fitting(messages[..i], limits, !Fits(messages[i], limits))
  {
    assert messages[..i + 1][..i] == messages[..i];
  }

  /** The two lists hold every message once: what fits on one side, what does not on the other. */
  lemma {:induction false} FittingPartitions(messages: seq<Message>, limits: Limits)
    ensures multiset(Fitting(messages, limits, true)) + multiset(Fitting(messages, limits, false)) == multiset(messages)
    ensures forall fits, m | m in Fitting(messages, limits, fits) :: Fits(m, limits) == fits
    ensures |Fitting(messages, limits, true)| + |Fitting(messages, limits, false)| == |messages|
  {
    if messages != [] {
      FittingPartitions(messages[..|messages| - 1], limits);
      assert messages == messages[..|messages| - 1] + [messages[|messages| - 1]];
    }
  }

  lemma BytesOfAppend(messages: seq<Message>, m: Message)
    ensures Bytes(messages + [m]) == Bytes(messages) + m.size
  {
  }

  lemma NothingYet(messages: seq<Message>, limits: Limits)
    ensures Fitting(messages[..0], limits, true) == Fitting(messages[..0], limits, false) == [] && Bytes([]) == 0
  {
  }

  /** Within the budget, or one message alone. */
  predicate Affordable(wanted: seq<Message>, limits: Limits) {
    Bytes(wanted) <= limits.maxTotalBytes || |wanted| <= 1
  }

  /** Which of the candidates this poll downloads. The two lists are exactly the candidates up to
      where it stopped, in order; it stops at the first that fits but cannot be paid for, and never
      before it has taken one. */
  method PlanFetch(candidates: seq<Message>, limits: Limits)
    returns (wanted: seq<Message>, oversized: seq<Message>, budgetExhausted: bool)
    ensures |wanted| + |oversized| <= |candidates|
    ensures var consumed := candidates[..|wanted| + |oversized|];
            wanted == Fitting(consumed, limits, true) && oversized == Fitting(consumed, limits, false)
    ensures Affordable(wanted, limits)
    ensures limits.maxMessageBytes <= limits.maxTotalBytes ==> Bytes(wanted) <= limits.maxTotalBytes
    ensures candidates != [] ==> wanted != [] || oversized != []
    ensures budgetExhausted <==> |wanted| + |oversized| < |candidates|
    ensures budgetExhausted ==>
              var next := candidates[|wanted| + |oversized|];
              wanted != [] && next.size <= limits.maxMessageBytes && Bytes(wanted + [next]) > limits.maxTotalBytes
  {
    hide Fitting, Bytes;
    NothingYet(candidates, limits);
    wanted, oversized, budgetExhausted := [], [], false;
    var budget := 0;
    var i := 0;
    while i < |candidates|
      invariant i <= |candidates| && i == |wanted| + |oversized|
      invariant wanted == Fitting(candidates[..i], limits, true)
      invariant oversized == Fitting(candidates[..i], limits, false)
      invariant budget == Bytes(wanted) && Affordable(wanted, limits)
      invariant limits.maxMessageBytes <= limits.maxTotalBytes ==> budget <= limits.maxTotalBytes
    {
      var candidate := candidates[i];
      FittingNext(candidates, limits, i);
      if candidate.size > limits.maxMessageBytes {
        oversized := oversized + [candidate];
        i := i + 1;
        continue;
      }
      BytesOfAppend(wanted, candidate);
      if |wanted| > 0 && budget + candidate.size > limits.maxTotalBytes {
        budgetExhausted := true;
        break;
      }
      budget := budget + candidate.size;
      wanted := wanted + [candidate];
      i := i + 1;
    }
  }

  // ------------------------------------------------------------------ repeated polls

  /** A folder, and everything polls have moved out of it, oldest first. */
  class Mailbox {
    var folder: seq<Message>
    var seen: seq<Message>

    constructor (folder: seq<Message>)
      ensures this.folder == folder && seen == []
    {
      this.folder := folder;
      seen := [];
    }

    /** One poll: look at the oldest `max`, and move out both what was wanted and what was too large. What
        stays was not looked at, or waits because this poll could not pay for it. */
    method Poll(limits: Limits, max: nat) returns (wanted: seq<Message>, oversized: seq<Message>)
      requires max > 0
      modifies this
      ensures seen + folder == old(seen + folder) && old(seen) <= seen
      ensures var moved := seen[|old(seen)|..];
              && wanted == Fitting(moved, limits, true) && oversized == Fitting(moved, limits, false)
              && |moved| <= max && |wanted| + |oversized| == |moved|
              && (limits.maxMessageBytes <= limits.maxTotalBytes ==> Bytes(wanted) <= limits.maxTotalBytes)
              && (folder != [] && |moved| < max ==>
                    folder[0].size <= limits.maxMessageBytes && Bytes(wanted + [folder[0]]) > limits.maxTotalBytes)
      ensures old(folder) != [] ==> |folder| < |old(folder)|
    {
      hide Fitting, Bytes, Affordable;
      var candidates := if |folder| <= max then folder else folder[..max];
      var exhausted;
      wanted, oversized, exhausted := PlanFetch(candidates, limits);
      var consumed := |wanted| + |oversized|;
      assert folder == folder[..consumed] + folder[consumed..];
      assert candidates[..consumed] == folder[..consumed];
      seen := seen + folder[..consumed];
      folder := folder[consumed..];
      assert seen[|old(seen)|..] == candidates[..consumed];
    }

    method Arrive(messages: seq<Message>)
      modifies this
      ensures seen == old(seen) && folder == old(folder) + messages
    {
      folder := folder + messages;
    }

    /** However small the limits, polling drains a folder, and every message is seen once, in order. */
    method Drain(limits: Limits, max: nat) returns (polls: nat)
      requires max > 0
      modifies this
      ensures folder == [] && seen == old(seen + folder) && polls <= |old(folder)|
    {
      polls := 0;
      while folder != []
        invariant seen + folder == old(seen + folder) && old(seen) <= seen
        invariant polls + |folder| <= |old(folder)|
        decreases |folder|
      {
        var _, _ := Poll(limits, max);
        polls := polls + 1;
      }
    }
  }

  // ------------------------------------------------------------------ parts and their numbers

  /** A MIME part as the parser reports it. */
  datatype Part = Part(filename: string, attached: bool, size: nat)

  datatype Numbered = Numbered(part: nat, filename: string, size: nat)

  /** Named, or sent as an attachment; an inline image is neither. */
  predicate IsAttachment(part: Part) {
    part.filename != "" || part.attached
  }

  function Number(parts: seq<Part>, i: nat): Numbered
    requires i < |parts|
  {
    Numbered(i + 1, if parts[i].filename != "" then parts[i].filename else "attachment", parts[i].size)
  }

  /** An attachment that the cap admits, or one that it does not. */
  predicate OnSide(part: Part, cap: nat, kept: bool) {
    IsAttachment(part) && (part.size <= cap) == kept
  }

  /** The attachments on one side of the cap, each with its place in the whole list, from one. */
  function Sorted(parts: seq<Part>, cap: nat, kept: bool): seq<Numbered> {
    if parts == [] then []
    else
      var n := |parts| - 1;
      var rest := Sorted(parts[..n], cap, kept);
      if OnSide(parts[n], cap, kept) then rest + [Number(parts, n)] else rest
  }

  lemma SortedNext(parts: seq<Part>, cap: nat, kept: bool, i: nat)
    requires i < |parts|
    ensures Sorted(parts[..i + 1], cap, kept)
            == Sorted(parts[..i], cap, kept) + if OnSide(parts[i], cap, kept) then [Number(parts, i)] else []
  {
    assert parts[..i + 1][..i] == parts[..i];
  }

  lemma {:induction false} SortedHolds(parts: seq<Part>, cap: nat, kept: bool)
    ensures forall a | a in Sorted(parts, cap, kept) ::
              1 <= a.part <= |parts| && OnSide(parts[a.part - 1], cap, kept) && a == Number(parts, a.part - 1)
    ensures forall i | 0 <= i < |parts| && OnSide(parts[i], cap, kept) :: Number(parts, i) in Sorted(parts, cap, kept)
  {
    hide OnSide, Number;
    if parts != [] {
      var n := |parts| - 1;
      SortedHolds(parts[..n], cap, kept);
      NumbersStay(parts, n);
      LastIn(Sorted(parts[..n], cap, kept), Number(parts, n));
    }
  }

  lemma LastIn(rest: seq<Numbered>, last: Numbered)
    ensures forall a :: a in rest + [last] <==> a in rest || a == last
  {
  }

  lemma {:induction false} SortedRises(parts: seq<Part>, cap: nat, kept: bool)
    ensures forall i, j | 0 <= i < j < |Sorted(parts, cap, kept)| ::
              Sorted(parts, cap, kept)[i].part < Sorted(parts, cap, kept)[j].part
  {
    hide OnSide, Number;
    if parts != [] {
      var n := |parts| - 1;
      SortedRises(parts[..n], cap, kept);
      SortedHolds(parts[..n], cap, kept);
      NumbersStay(parts, n);
      assert forall a | a in Sorted(parts[..n], cap, kept) :: a.part <= n;
    }
  }

  /** Each side holds exactly its attachments, named parts and those sent as attachments, in the order of
      the message, each under its place there: a number the cap has no say over. */
  lemma SortedMeans(parts: seq<Part>, cap: nat, kept: bool)
    ensures forall a | a in Sorted(parts, cap, kept) ::
              && 1 <= a.part <= |parts|
              && var part := parts[a.part - 1];
                 && (part.filename != "" || part.attached) && (part.size <= cap <==> kept)
                 && a.filename == (if part.filename == "" then "attachment" else part.filename) && a.size == part.size
    ensures forall i | 0 <= i < |parts| && (parts[i].filename != "" || parts[i].attached)
                       && (parts[i].size <= cap <==> kept) ::
              exists a :: a in Sorted(parts, cap, kept) && a.part == i + 1
    ensures forall i, j | 0 <= i < j < |Sorted(parts, cap, kept)| ::
              Sorted(parts, cap, kept)[i].part < Sorted(parts, cap, kept)[j].part
  {
    hide OnSide, Number, Sorted;
    SortedHolds(parts, cap, kept);
    SortedRises(parts, cap, kept);
    forall i | 0 <= i < |parts|
      ensures OnSide(parts[i], cap, kept) <==>
                (parts[i].filename != "" || parts[i].attached) && (parts[i].size <= cap <==> kept)
      ensures var n := Number(parts, i);
              && n.part == i + 1 && n.size == parts[i].size
              && n.filename == if parts[i].filename == "" then "attachment" else parts[i].filename
    {
      SideMeans(parts, i, cap, kept);
    }
  }

  lemma SideMeans(parts: seq<Part>, i: nat, cap: nat, kept: bool)
    requires i < |parts|
    ensures OnSide(parts[i], cap, kept) <==>
              (parts[i].filename != "" || parts[i].attached) && (parts[i].size <= cap <==> kept)
    ensures var n := Number(parts, i);
            && n.part == i + 1 && n.size == parts[i].size
            && n.filename == if parts[i].filename == "" then "attachment" else parts[i].filename
  {
  }

  lemma NumbersStay(parts: seq<Part>, n: nat)
    requires n < |parts|
    ensures forall i | 0 <= i < n :: parts[..n][i] == parts[i] && Number(parts[..n], i) == Number(parts, i)
    ensures Number(parts, n).part == n + 1
  {
  }

  method PartitionAttachments(parts: seq<Part>, cap: nat) returns (kept: seq<Numbered>, skipped: seq<Numbered>)
    ensures kept == Sorted(parts, cap, true) && skipped == Sorted(parts, cap, false)
  {
    kept, skipped := [], [];
    for i := 0 to |parts|
      invariant kept == Sorted(parts[..i], cap, true) && skipped == Sorted(parts[..i], cap, false)
    {
      hide Sorted;
      SortedNext(parts, cap, true, i);
      SortedNext(parts, cap, false, i);
      if IsAttachment(parts[i]) {
        if parts[i].size > cap {
          skipped := skipped + [Number(parts, i)];
        } else {
          kept := kept + [Number(parts, i)];
        }
      }
    }
    assert parts[..|parts|] == parts;
  }

  // ------------------------------------------------------------------ references

  /** What a Document stands for: one part, a message without any, or one whose every part was skipped. */
  datatype Item = OfPart(part: nat) | WholeMessage | AllSkipped

  function Suffix(item: Item): string {
    match item
    case OfPart(n) => Keys.Decimal(n)
    case WholeMessage => "0"
    case AllSkipped => "0.skipped"
  }

  /** The Message-ID of section 3.6.4 of RFC 5322, or what stands in for it, and the suffix. */
  function Reference(messageId: string, item: Item): string {
    messageId + "#" + Suffix(item)
  }

  /** The Documents one reading of a message makes, at one cap. */
  function DocumentsAt(parts: seq<Part>, cap: nat): seq<Item> {
    var kept, skipped := Sorted(parts, cap, true), Sorted(parts, cap, false);
    if kept == [] then [if skipped == [] then WholeMessage else AllSkipped]
    else seq(|kept|, i requires 0 <= i < |kept| => OfPart(kept[i].part))
  }

  predicate Numbering(item: Item) {
    item.OfPart? ==> item.part >= 1
  }

  lemma SuffixHasNoHash(item: Item)
    ensures forall i | 0 <= i < |Suffix(item)| :: Suffix(item)[i] != '#'
  {
    if item.OfPart? { Keys.DecimalIsDigits(item.part); }
  }

  lemma SuffixInjective(x: Item, y: Item)
    requires Numbering(x) && Numbering(y) && Suffix(x) == Suffix(y)
    ensures x == y
  {
    assert Keys.Decimal(0) == "0";
    if x.OfPart? { Keys.DecimalIsDigits(x.part); }
    if y.OfPart? { Keys.DecimalIsDigits(y.part); }
    assert Suffix(AllSkipped)[1] == '.';
    match (x, y)
    case (OfPart(m), OfPart(n)) => Keys.DecimalInjective(m, n);
    case (OfPart(m), WholeMessage) => Keys.DecimalInjective(m, 0);
    case (WholeMessage, OfPart(n)) => Keys.DecimalInjective(0, n);
    case _ =>
  }

  function LastHash(s: string): (n: nat)
    ensures n <= |s| && (n < |s| ==> s[n] == '#')
    ensures n == |s| || forall i | n < i < |s| :: s[i] != '#'
  {
    if s == [] then 0
    else if s[|s| - 1] == '#' then |s| - 1
    else
      var n := LastHash(s[..|s| - 1]);
      if n == |s| - 1 then |s| else n
  }

  lemma {:induction false} LastHashAfter(m: string, suffix: string)
    requires forall i | 0 <= i < |suffix| :: suffix[i] != '#'
    ensures LastHash(m + "#" + suffix) == |m|
    decreases |suffix|
  {
    var s := m + "#" + suffix;
    if suffix == [] {
      assert s[|s| - 1] == '#';
    } else {
      var shorter := suffix[..|suffix| - 1];
      assert s[..|s| - 1] == m + "#" + shorter;
      assert s[|s| - 1] == suffix[|suffix| - 1];
      LastHashAfter(m, shorter);
    }
  }

  /** A reference names one message and one part of it, whatever the Message-ID looks like. */
  lemma ReferenceInjective(m: string, n: string, x: Item, y: Item)
    requires Numbering(x) && Numbering(y) && Reference(m, x) == Reference(n, y)
    ensures m == n && x == y
  {
    SuffixHasNoHash(x);
    SuffixHasNoHash(y);
    LastHashAfter(m, Suffix(x));
    LastHashAfter(n, Suffix(y));
    var s := Reference(m, x);
    assert s[..|m|] == m && s[..|n|] == n;
    assert s[|m| + 1..] == Suffix(x) && s[|n| + 1..] == Suffix(y);
    SuffixInjective(x, y);
  }

  // ------------------------------------------------------------------ replays

  /** Keep what is new: a Document under a reference already stored is not stored again. */
  function Ingest(store: map<string, Item>, messageId: string, items: seq<Item>): map<string, Item> {
    if items == [] then store
    else
      var rest, last := Ingest(store, messageId, items[..|items| - 1]), items[|items| - 1];
      if Reference(messageId, last) in rest then rest else rest[Reference(messageId, last) := last]
  }

  /** One message read again and again, each time at a cap of its own. */
  function Replayed(messageId: string, parts: seq<Part>, caps: seq<nat>): map<string, Item> {
    if caps == [] then map[]
    else
      Ingest(Replayed(messageId, parts, caps[..|caps| - 1]), messageId, DocumentsAt(parts, caps[|caps| - 1]))
  }

  /** Every reference in the store is that of the item stored under it. */
  ghost predicate Labelled(store: map<string, Item>, messageId: string) {
    forall r | r in store :: Numbering(store[r]) && r == Reference(messageId, store[r])
  }

  ghost predicate Holds(store: map<string, Item>, messageId: string, item: Item) {
    Reference(messageId, item) in store && store[Reference(messageId, item)] == item
  }

  lemma {:induction false} IngestKeeps(store: map<string, Item>, messageId: string, items: seq<Item>)
    requires Labelled(store, messageId) && forall x | x in items :: Numbering(x)
    ensures Labelled(Ingest(store, messageId, items), messageId)
    ensures forall x | Numbering(x) ::
              Holds(Ingest(store, messageId, items), messageId, x) <==> Holds(store, messageId, x) || x in items
  {
    hide Reference, Numbering;
    if items != [] {
      var before, last := items[..|items| - 1], items[|items| - 1];
      IngestKeeps(store, messageId, before);
      assert items == before + [last];
      var rest := Ingest(store, messageId, before);
      var ref := Reference(messageId, last);
      if ref in rest { ReferenceInjective(messageId, messageId, rest[ref], last); }
      forall x | Numbering(x)
        ensures Holds(Ingest(store, messageId, items), messageId, x) <==> Holds(store, messageId, x) || x in items
      {
        if Reference(messageId, x) == ref { ReferenceInjective(messageId, messageId, x, last); }
      }
    }
  }

  predicate NoParts(parts: seq<Part>) {
    forall i | 0 <= i < |parts| :: !IsAttachment(parts[i])
  }

  predicate Keeps(kept: seq<Numbered>, n: nat) {
    exists k :: 0 <= k < |kept| && kept[k].part == n
  }

  /** A part is kept exactly when it is an attachment the cap admits. */
  lemma KeptParts(parts: seq<Part>, cap: nat, n: nat)
    ensures Keeps(Sorted(parts, cap, true), n) <==> 1 <= n <= |parts| && OnSide(parts[n - 1], cap, true)
  {
    hide Sorted, OnSide;
    var kept := Sorted(parts, cap, true);
    SortedHolds(parts, cap, true);
    if Keeps(kept, n) {
      var k :| 0 <= k < |kept| && kept[k].part == n;
      assert kept[k] in kept;
    }
    if 1 <= n <= |parts| && OnSide(parts[n - 1], cap, true) {
      assert Number(parts, n - 1) in kept;
      var k :| 0 <= k < |kept| && kept[k] == Number(parts, n - 1);
    }
  }

  lemma PartDocuments(parts: seq<Part>, cap: nat, n: nat)
    ensures OfPart(n) in DocumentsAt(parts, cap) <==> 1 <= n <= |parts| && OnSide(parts[n - 1], cap, true)
  {
    hide Sorted, OnSide;
    var kept, items := Sorted(parts, cap, true), DocumentsAt(parts, cap);
    KeptParts(parts, cap, n);
    if OfPart(n) in items {
      var k :| 0 <= k < |items| && items[k] == OfPart(n);
      assert kept != [] && kept[k].part == n;
    }
    if Keeps(kept, n) {
      var k :| 0 <= k < |kept| && kept[k].part == n;
      assert items[k] == OfPart(n);
    }
  }

  lemma BareDocuments(parts: seq<Part>, cap: nat)
    ensures WholeMessage in DocumentsAt(parts, cap) <==> NoParts(parts)
  {
    hide Sorted;
    var kept, skipped := Sorted(parts, cap, true), Sorted(parts, cap, false);
    SortedHolds(parts, cap, true);
    SortedHolds(parts, cap, false);
    if NoParts(parts) {
      NoneOnEitherSide(parts, cap);
    } else {
      var i :| 0 <= i < |parts| && IsAttachment(parts[i]);
      assert OnSide(parts[i], cap, parts[i].size <= cap);
      assert Number(parts, i) in if parts[i].size <= cap then kept else skipped;
    }
  }

  lemma DocumentsAreNumbered(parts: seq<Part>, cap: nat)
    ensures forall x | x in DocumentsAt(parts, cap) :: Numbering(x)
  {
    forall x | x in DocumentsAt(parts, cap) ensures Numbering(x) {
      if x.OfPart? { PartDocuments(parts, cap, x.part); }
    }
  }

  lemma NoneOnEitherSide(parts: seq<Part>, cap: nat)
    requires NoParts(parts)
    ensures Sorted(parts, cap, true) == [] && Sorted(parts, cap, false) == []
  {
  }

  predicate Admitted(caps: seq<nat>, size: nat) {
    exists i :: 0 <= i < |caps| && size <= caps[i]
  }

  lemma AdmittedLater(caps: seq<nat>, cap: nat, size: nat)
    ensures Admitted(caps + [cap], size) <==> Admitted(caps, size) || size <= cap
  {
    if Admitted(caps, size) {
      var i :| 0 <= i < |caps| && size <= caps[i];
      assert (caps + [cap])[i] == caps[i];
    }
    assert (caps + [cap])[|caps|] == cap;
  }

  lemma {:induction false} ReplaysHold(messageId: string, parts: seq<Part>, caps: seq<nat>)
    ensures var store := Replayed(messageId, parts, caps);
            && Labelled(store, messageId)
            && (forall i: nat | i < |parts| ::
                  Holds(store, messageId, OfPart(i + 1)) <==>
                    IsAttachment(parts[i]) && Admitted(caps, parts[i].size))
            && (Holds(store, messageId, WholeMessage) <==> caps != [] && NoParts(parts))
  {
    hide DocumentsAt, Ingest, Reference, Holds, IsAttachment, Admitted, NoParts, Labelled;
    if caps == [] {
      NothingHeld(messageId);
      NothingAdmitted();
    } else {
      var before, last := caps[..|caps| - 1], caps[|caps| - 1];
      ReplaysHold(messageId, parts, before);
      DocumentsAreNumbered(parts, last);
      BareDocuments(parts, last);
      IngestKeeps(Replayed(messageId, parts, before), messageId, DocumentsAt(parts, last));
      assert caps == before + [last];
      forall i: nat | i < |parts|
        ensures Holds(Replayed(messageId, parts, caps), messageId, OfPart(i + 1)) <==>
                  IsAttachment(parts[i]) && Admitted(caps, parts[i].size)
      {
        PartDocuments(parts, last, i + 1);
        AdmittedLater(before, last, parts[i].size);
      }
    }
  }

  /** Over any sequence of replays at any caps: no reference ever names two things; each attachment is
      stored, under its own reference alone, exactly when some cap has admitted it; and the reference
      of a message without parts is only ever that. */
  lemma ReplaysAreStable(messageId: string, parts: seq<Part>, caps: seq<nat>)
    ensures var store := Replayed(messageId, parts, caps);
            && Labelled(store, messageId)
            && (forall r, q | r in store && q in store :: store[r] == store[q] ==> r == q)
            && (forall i: nat | i < |parts| ::
                  Holds(store, messageId, OfPart(i + 1)) <==>
                    && (parts[i].filename != "" || parts[i].attached)
                    && exists j :: 0 <= j < |caps| && parts[i].size <= caps[j])
            && (Holds(store, messageId, WholeMessage) <==>
                  caps != [] && forall i | 0 <= i < |parts| :: parts[i].filename == "" && !parts[i].attached)
  {
    hide Replayed, Reference, Holds;
    ReplaysHold(messageId, parts, caps);
  }

  lemma NothingHeld(messageId: string)
    ensures forall x :: !Holds(map[], messageId, x)
    ensures Labelled(map[], messageId)
  {
  }

  lemma NothingAdmitted()
    ensures forall size :: !Admitted([], size)
  {
  }
}
