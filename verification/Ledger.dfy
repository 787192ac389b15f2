/** Booking one posting: when two postings are the same, and what booking does to the ledger. */
module Ledger {
  import opened Wrappers

  // ------------------------------------------------------------------ splits

  /** An amount as it arrives: no number at all, an infinite one, or a finite one. */
  datatype Money = NotANumber | Infinite | Finite(value: real)

  /** The parts of a split that say which money moved where, and what it is filed under. */
  datatype Split = Split(date: string, amount: Money, kind: string, source: string, destination: string,
                         category: Option<string>)

  /** Cents, half a cent rounding away from zero. */
  function Cents(value: real): int {
    if value >= 0.0 then (100.0 * value + 0.5).Floor else -(0.5 - 100.0 * value).Floor
  }

  function Day(date: string): string {
    if |date| <= 10 then date else date[..10]
  }

  predicate SameSplit(wanted: Split, booked: Split) {
    && Day(booked.date) == Day(wanted.date)
    && wanted.amount.Finite? && booked.amount.Finite? && Cents(booked.amount.value) == Cents(wanted.amount.value)
    && booked.kind == wanted.kind
    && booked.source == wanted.source
    && booked.destination == wanted.destination
  }

  predicate HasSame(split: Split, booked: seq<Split>) {
    exists j :: 0 <= j < |booked| && SameSplit(split, booked[j])
  }

  /** As many splits, and each wanted one among the booked. */
  predicate SamePosting(wanted: seq<Split>, booked: seq<Split>) {
    |wanted| == |booked| && forall i | 0 <= i < |wanted| :: HasSame(wanted[i], booked)
  }

  /** What tells two splits apart: the day, the cents, the kind and either account, and nothing else. An
      amount that is no finite number is the same as none, not even itself. */
  lemma DifferenceTells(s: Split, date: string, amount: Money, kind: string, account: string, category: Option<string>)
    ensures SameSplit(s, s) <==> s.amount.Finite?
    ensures s.amount.Finite? ==>
              && (SameSplit(s, s.(date := date)) <==> Day(date) == Day(s.date))
              && (SameSplit(s, s.(amount := amount)) <==>
                    amount.Finite? && Cents(amount.value) == Cents(s.amount.value))
              && (SameSplit(s, s.(kind := kind)) <==> kind == s.kind)
              && (SameSplit(s, s.(source := account)) <==> account == s.source)
              && (SameSplit(s, s.(destination := account)) <==> account == s.destination)
              && SameSplit(s, s.(category := category))
  {
  }

  lemma SameIsMutual(a: Split, b: Split, c: Split)
    ensures SameSplit(a, b) <==> SameSplit(b, a)
    ensures SameSplit(a, b) && SameSplit(b, c) ==> SameSplit(a, c)
  {
  }

  /** The cents of an amount are the nearest, of two as near the one further from nothing. */
  lemma CentsAreNearest(value: real)
    ensures var cents := Cents(value);
            && cents as real - 0.5 <= 100.0 * value <= cents as real + 0.5
            && (100.0 * value == cents as real - 0.5 ==> value > 0.0)
            && (100.0 * value == cents as real + 0.5 ==> value < 0.0)
  {
  }

  // ------------------------------------------------------------------ when that is a pairing

  predicate Injective(p: seq<nat>) {
    forall i, k | 0 <= i < k < |p| :: p[i] != p[k]
  }

  /** Each wanted split has a booked one of its own, and each booked one is some wanted one's. */
  ghost predicate Pairing(wanted: seq<Split>, booked: seq<Split>, p: seq<nat>) {
    && |p| == |wanted| && Injective(p)
    && (forall i | 0 <= i < |p| :: p[i] < |booked| && SameSplit(wanted[i], booked[p[i]]))
    && (forall j: nat | j in Below(|booked|) :: j in p)
  }

  ghost predicate PairsUp(wanted: seq<Split>, booked: seq<Split>) {
    exists p :: Pairing(wanted, booked, p)
  }

  predicate AllDiffer(splits: seq<Split>) {
    forall i, k | 0 <= i < k < |splits| :: !SameSplit(splits[i], splits[k])
  }

  predicate AllFinite(splits: seq<Split>) {
    forall i | 0 <= i < |splits| :: splits[i].amount.Finite?
  }

  ghost function Below(n: nat): (all: set<nat>)
    ensures |all| == n && forall i: nat :: i in all <==> i < n
  {
    if n == 0 then {} else Below(n - 1) + {n - 1}
  }

  ghost function Elements(p: seq<nat>): (all: set<nat>)
    ensures forall x: nat :: x in all <==> x in p
  {
    set x: nat | x in p
  }

  lemma {:induction false} InjectiveSize(p: seq<nat>)
    requires Injective(p)
    ensures |Elements(p)| == |p|
  {
    if p != [] {
      var rest, last := p[..|p| - 1], p[|p| - 1];
      InjectiveSize(rest);
      assert last !in rest;
      assert p == rest + [last];
      assert Elements(p) == Elements(rest) + {last};
    }
  }

  lemma SubsetSameSize(small: set<nat>, large: set<nat>)
    requires small <= large && |small| == |large|
    ensures small == large
  {
    if small != large {
      var x :| x in large && x !in small;
      assert small <= large - {x};
      SubsetIsSmaller(small, large - {x});
    }
  }

  lemma {:induction false} SubsetIsSmaller(small: set<nat>, large: set<nat>)
    requires small <= large
    ensures |small| <= |large|
  {
    if small != {} {
      var x :| x in small;
      SubsetIsSmaller(small - {x}, large - {x});
    }
  }

  /** The pigeonhole: as many different places as there are leaves none out. */
  lemma InjectiveIsOnto(p: seq<nat>)
    requires Injective(p) && forall i | 0 <= i < |p| :: p[i] < |p|
    ensures forall j: nat | j in Below(|p|) :: j in p
  {
    InjectiveSize(p);
    SubsetSameSize(Elements(p), Below(|p|));
  }

  /** One place among the booked for each of the first n wanted splits. */
  lemma {:induction false} Places(wanted: seq<Split>, booked: seq<Split>, n: nat) returns (p: seq<nat>)
    requires SamePosting(wanted, booked) && n <= |wanted|
    ensures |p| == n && forall i | 0 <= i < n :: p[i] < |booked| && SameSplit(wanted[i], booked[p[i]])
  {
    if n == 0 {
      p := [];
    } else {
      p := Places(wanted, booked, n - 1);
      assert HasSame(wanted[n - 1], booked);
      var j :| 0 <= j < |booked| && SameSplit(wanted[n - 1], booked[j]);
      p := p + [j];
    }
  }

  lemma DifferentSplitsPairUp(wanted: seq<Split>, booked: seq<Split>)
    requires AllDiffer(wanted)
    ensures SamePosting(wanted, booked) <==> PairsUp(wanted, booked)
  {
    if SamePosting(wanted, booked) {
      var p := Places(wanted, booked, |wanted|);
      InjectiveIsOnto(p);
      assert Pairing(wanted, booked, p);
    }
    if PairsUp(wanted, booked) {
      var p :| Pairing(wanted, booked, p);
      PairingHasEqualLengths(wanted, booked, p);
      forall i | 0 <= i < |wanted| ensures HasSame(wanted[i], booked) {
        assert SameSplit(wanted[i], booked[p[i]]);
      }
    }
  }

  lemma PairingHasEqualLengths(wanted: seq<Split>, booked: seq<Split>, p: seq<nat>)
    requires Pairing(wanted, booked, p)
    ensures |wanted| == |booked|
  {
    InjectiveSize(p);
    assert Elements(p) == Below(|booked|);
  }

  /** A kind no split in the list has. */
  function OtherKind(splits: seq<Split>): (kind: string)
    ensures forall s | s in splits :: |s.kind| < |kind|
  {
    if splits == [] then "x"
    else
      var rest := OtherKind(splits[1..]);
      if |splits[0].kind| < |rest| then rest else splits[0].kind + "x"
  }

  /** Two equal splits can be matched by one booked split, leaving another booked one unmatched. */
  lemma EqualSplitsMismatch(wanted: seq<Split>, i: nat, k: nat) returns (booked: seq<Split>)
    requires AllFinite(wanted) && i < k < |wanted| && SameSplit(wanted[i], wanted[k])
    ensures SamePosting(wanted, booked) && !PairsUp(wanted, booked)
  {
    var stranger := wanted[k].(kind := OtherKind(wanted));
    booked := wanted[k := stranger];
    forall n | 0 <= n < |wanted| ensures HasSame(wanted[n], booked) {
      assert SameSplit(wanted[n], booked[if n == k then i else n]);
    }
    if PairsUp(wanted, booked) {
      var p :| Pairing(wanted, booked, p);
      EachHasAPartner(wanted, booked, p, k);
    }
  }

  lemma EachHasAPartner(wanted: seq<Split>, booked: seq<Split>, p: seq<nat>, j: nat)
    requires Pairing(wanted, booked, p) && j < |booked|
    ensures exists n :: 0 <= n < |wanted| && wanted[n] in wanted && SameSplit(wanted[n], booked[j])
  {
    assert j in p;
    var n :| 0 <= n < |p| && p[n] == j;
    assert wanted[n] in wanted && SameSplit(wanted[n], booked[j]);
  }

  lemma MatchedIsFinite(wanted: seq<Split>, booked: seq<Split>)
    ensures SamePosting(wanted, booked) ==> AllFinite(wanted)
  {
  }

  /** Exactly when a posting's splits differ pairwise, or one of them carries no finite amount (and
      so matches nothing), is every match of equal length a one-to-one pairing. */
  lemma MatchIsPairingExactly(wanted: seq<Split>)
    ensures (forall booked | SamePosting(wanted, booked) :: PairsUp(wanted, booked))
            <==> AllDiffer(wanted) || !AllFinite(wanted)
  {
    if AllDiffer(wanted) {
      forall booked | SamePosting(wanted, booked) ensures PairsUp(wanted, booked) {
        DifferentSplitsPairUp(wanted, booked);
      }
    } else if !AllFinite(wanted) {
      forall booked ensures SamePosting(wanted, booked) ==> AllFinite(wanted) {
        MatchedIsFinite(wanted, booked);
      }
    } else {
      var i, k :| 0 <= i < k < |wanted| && SameSplit(wanted[i], wanted[k]);
      var booked := EqualSplitsMismatch(wanted, i, k);
    }
  }

  // ------------------------------------------------------------------ the ledger

  /** What is posted: its key, the Thing it is tagged with, its splits, and everything else in the
      body. The ledger's duplicate hash covers all of it, so equal postings are what it compares. */
  datatype Posting = Posting(key: string, thing: Option<string>, splits: seq<Split>, rest: string)

  /** A transaction group; its id is its place in the ledger. A deleted one stays in the index. */
  datatype Group = Group(posting: Posting, live: bool)

  /** Search by key: the first live group that carries it. */
  function FindByExternalId(groups: seq<Group>, key: string, from: nat): (r: Option<nat>)
    ensures r.Some? ==> from <= r.value < |groups| && groups[r.value].live && groups[r.value].posting.key == key
    ensures r.None? ==> forall i | from <= i < |groups| :: !(groups[i].live && groups[i].posting.key == key)
    decreases |groups| - from
  {
    if from >= |groups| then None
    else if groups[from].live && groups[from].posting.key == key then Some(from)
    else FindByExternalId(groups, key, from + 1)
  }

  /** A live group of this Thing that already books these splits, under any key. */
  predicate BooksSame(group: Group, thing: string, splits: seq<Split>) {
    group.live && group.posting.thing == Some(thing) && SamePosting(splits, group.posting.splits)
  }

  /** The group a checked post collides with: the index outlives deletes. */
  function DuplicateOf(groups: seq<Group>, posting: Posting): (r: Option<nat>)
    ensures r.Some? ==> r.value < |groups| && groups[r.value].posting == posting
    ensures r.None? ==> forall g | g in groups :: g.posting != posting
  {
    if groups == [] then None
    else if groups[|groups| - 1].posting == posting then Some(|groups| - 1)
    else DuplicateOf(groups[..|groups| - 1], posting)
  }

  /** No two live groups under one key. */
  ghost predicate UniqueKeys(groups: seq<Group>) {
    forall i, j | 0 <= i < j < |groups| && groups[i].live && groups[j].live ::
      groups[i].posting.key != groups[j].posting.key
  }

  /** No live group of a Thing books what an earlier live group of that Thing books. */
  ghost predicate NoTwins(groups: seq<Group>) {
    forall i, j | 0 <= i < j < |groups| && groups[j].live && groups[j].posting.thing.Some? ::
      !BooksSame(groups[i], groups[j].posting.thing.value, groups[j].posting.splits)
  }

  // ------------------------------------------------------------------ rows

  /** What a name resolves to: an account's id and, where it keeps its books in one, its currency. */
  datatype Account = Account(id: string, currency: Option<string>)

  datatype Order = Order(date: string, amount: Money, kind: string, source: string, destination: string,
                         currency: Option<string>, category: Option<string>)

  /** The names that resolve, each to one account or one category. */
  datatype Names = Names(accounts: map<string, Account>, categories: map<string, string>)

  /** Both accounts and the category are known, and a stated currency is not at odds with the one the
      source account keeps. */
  predicate Postable(order: Order, names: Names) {
    && order.source in names.accounts && order.destination in names.accounts
    && (order.currency.Some? && names.accounts[order.source].currency.Some? ==>
          order.currency == names.accounts[order.source].currency)
    && (order.category.Some? ==> order.category.value in names.categories)
  }

  function RowOf(order: Order, names: Names): Split
    requires Postable(order, names)
  {
    Split(order.date, order.amount, order.kind, names.accounts[order.source].id, names.accounts[order.destination].id,
          if order.category.Some? then Some(names.categories[order.category.value]) else None)
  }

  /** Whether this is the posting the orders ask for. */
  ghost predicate RowsOf(splits: seq<Split>, orders: seq<Order>, names: Names) {
    && |splits| == |orders|
    && forall i | 0 <= i < |orders| :: Postable(orders[i], names) && splits[i] == RowOf(orders[i], names)
  }

  lemma RowsAreFixed(splits: seq<Split>, orders: seq<Order>, names: Names)
    requires RowsOf(splits, orders, names)
    ensures forall other | RowsOf(other, orders, names) :: other == splits
  {
  }

  /** Nothing stands in the way: orders whose names resolve, no live group under the key, and none of the
      Thing that books what they ask for. */
  ghost predicate Bookable(groups: seq<Group>, key: string, thing: Option<string>, orders: seq<Order>, names: Names) {
    && orders != [] && (forall order | order in orders :: Postable(order, names))
    && (forall g | g in groups && g.live :: g.posting.key != key)
    && (thing.Some? ==>
          forall g, splits | g in groups && RowsOf(splits, orders, names) :: !BooksSame(g, thing.value, splits))
  }

  datatype Result = Booked(id: nat) | Existing(id: nat) | Refused

  /** What the ledger answers a post it does not reject as a duplicate. */
  datatype Answer = Accepts | Rejects | LosesTheAnswer

  class Books {
    var groups: seq<Group>

    constructor ()
      ensures groups == []
    {
      groups := [];
    }

    /** Rows with ids in place of names, order by order; None when one cannot be posted. */
    method BuildRows(orders: seq<Order>, names: Names) returns (rows: Option<seq<Split>>)
      ensures rows.Some? <==> forall order | order in orders :: Postable(order, names)
      ensures rows.Some? ==> RowsOf(rows.value, orders, names)
      ensures rows.Some? ==>
                && |rows.value| == |orders|
                && forall i | 0 <= i < |orders| ::
                     var order, row := orders[i], rows.value[i];
                     && order.source in names.accounts && row.source == names.accounts[order.source].id
                     && order.destination in names.accounts && row.destination == names.accounts[order.destination].id
                     && row.date == order.date && row.amount == order.amount && row.kind == order.kind
                     && (if order.category.Some?
                         then order.category.value in names.categories
                              && row.category == Some(names.categories[order.category.value])
                         else row.category.None?)
    {
      var transactions: seq<Split> := [];
      for i := 0 to |orders|
        invariant RowsOf(transactions, orders[..i], names)
      {
        var order := orders[i];
        assert order in orders;
        if order.source !in names.accounts || order.destination !in names.accounts {
          return None;
        }
        var source := names.accounts[order.source];
        if order.currency.Some? && source.currency.Some? && order.currency != source.currency {
          return None;
        }
        var row := Split(order.date, order.amount, order.kind, source.id, names.accounts[order.destination].id, None);
        if order.category.Some? {
          if order.category.value !in names.categories {
            return None;
          }
          row := row.(category := Some(names.categories[order.category.value]));
        }
        transactions := transactions + [row];
      }
      return Some(transactions);
    }

    /** Group by group, the first that books the same for this Thing. */
    method FindSamePostingForThing(thing: string, wanted: seq<Split>) returns (found: Option<nat>)
      ensures found.Some? ==> found.value < |groups| && BooksSame(groups[found.value], thing, wanted)
      ensures found.Some? ==> forall i | 0 <= i < found.value :: !BooksSame(groups[i], thing, wanted)
      ensures found.None? ==> forall i | 0 <= i < |groups| :: !BooksSame(groups[i], thing, wanted)
    {
      for n := 0 to |groups|
        invariant forall i | 0 <= i < n :: !BooksSame(groups[i], thing, wanted)
      {
        if BooksSame(groups[n], thing, wanted) {
          return Some(n);
        }
      }
      return None;
    }

    /** One post: the answer is the ledger's, a lost answer leaves the group booked all the same. */
    method Post(posting: Posting, checked: bool, answer: Answer) returns (result: Result, victim: Option<nat>)
      modifies this
      ensures victim == if checked then DuplicateOf(old(groups), posting) else None
      ensures victim.Some? ==> result == Refused && groups == old(groups)
      ensures victim.None? ==>
                match answer
                case Accepts => result == Booked(|old(groups)|) && groups == old(groups) + [Group(posting, true)]
                case Rejects => result == Refused && groups == old(groups)
                case LosesTheAnswer => result == Refused && groups == old(groups) + [Group(posting, true)]
    {
      victim := if checked then DuplicateOf(groups, posting) else None;
      if victim.Some? || answer.Rejects? {
        return Refused, victim;
      }
      var id := |groups|;
      groups := groups + [Group(posting, true)];
      result := if answer == Accepts then Booked(id) else Refused;
    }

    /** Book a posting, with nothing else booking meanwhile. The probe by key, the probe by content,
        then a checked post; and over a collision whose victim is said to be gone, one without the
        check. What `transactionExists` says is not relied upon: `stands` is what it would say of a group
        the post collides with. `first` and `again` are what the ledger answers to either post. */
    method Execute(key: string, thing: Option<string>, orders: seq<Order>, rest: string, names: Names,
                   first: Answer, stands: bool, again: Answer)
      returns (result: Result)
      modifies this
      ensures result.Existing? ==>
                && groups == old(groups) && result.id < |groups| && groups[result.id].live
                && (groups[result.id].posting.key == key
                    || exists splits :: RowsOf(splits, orders, names) && thing.Some?
                                        && BooksSame(groups[result.id], thing.value, splits))
      ensures groups == old(groups)
              || (|groups| == |old(groups)| + 1 && groups[..|old(groups)|] == old(groups)
                  && var g := groups[|old(groups)|];
                     g.live && g.posting.key == key && g.posting.thing == thing && orders != []
                     && RowsOf(g.posting.splits, orders, names) && g.posting.rest == rest
                     && (forall h | h in old(groups) && h.live :: h.posting.key != key)
                     && (thing.Some? ==>
                           forall h | h in old(groups) :: !BooksSame(h, thing.value, g.posting.splits)))
      ensures result.Booked? ==> groups != old(groups) && result.id == |old(groups)|
      ensures UniqueKeys(old(groups)) ==> UniqueKeys(groups)
      ensures NoTwins(old(groups)) ==> NoTwins(groups)
      ensures orders != [] && (exists g :: g in old(groups) && g.live && g.posting.key == key) ==> result.Existing?
      ensures Bookable(old(groups), key, thing, orders, names) ==>
                var collides := exists g, splits :: g in old(groups) && RowsOf(splits, orders, names)
                                                    && g.posting == Posting(key, thing, splits, rest);
                if collides && stands then result == Refused && groups == old(groups)
                else
                  var answer := if collides then again else first;
                  && result == (if answer.Accepts? then Booked(|old(groups)|) else Refused)
                  && (groups == old(groups) <==> answer.Rejects?)
      ensures !Bookable(old(groups), key, thing, orders, names) ==> groups == old(groups) && !result.Booked?
      ensures orders == [] ==> result == Refused
      ensures result.Refused? ==>
                || orders == [] || (exists order :: order in orders && !Postable(order, names))
                || !first.Accepts? || stands || !again.Accepts?
    {
      if orders == [] {
        return Refused;
      }
      var already := FindByExternalId(groups, key, 0);
      if already.Some? {
        return Existing(already.value);
      }
      var rows := BuildRows(orders, names);
      if !rows.Some? {
        return Refused;
      }
      RowsAreFixed(rows.value, orders, names);
      if thing.Some? {
        var same := FindSamePostingForThing(thing.value, rows.value);
        if same.Some? {
          assert groups[same.value] in groups;
          return Existing(same.value);
        }
      }
      var posting := Posting(key, thing, rows.value, rest);
      var victim;
      result, victim := Post(posting, true, first);
      if victim.Some? && !stands {
        result, victim := Post(posting, false, again);
      }
    }

    /** Whether this key landed: the answer recovery acts on. */
    method Reconcile(key: string) returns (landed: Option<nat>)
      ensures landed.Some? <==> exists g :: g in groups && g.live && g.posting.key == key
      ensures landed.Some? ==> landed.value < |groups| && groups[landed.value].live
                               && groups[landed.value].posting.key == key
    {
      landed := FindByExternalId(groups, key, 0);
      if landed.Some? {
        assert groups[landed.value] in groups;
      }
    }
  }
}
