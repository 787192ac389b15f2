/** Which Operations an Assistant gets: its declared grants joined with the catalogue and with what
    is implemented, and the names they travel under. */
module Registry {
  import opened Texts
  import opened Wrappers

  // ------------------------------------------------------------------ names

  predicate Contains(s: string, c: char) {
    exists i :: 0 <= i < |s| && s[i] == c
  }

  /** What comes before the first colon. */
  function Base(key: string): (b: string)
    ensures !Contains(b, ':') && b <= key
    ensures !Contains(key, ':') <==> b == key
    ensures b != key ==> |b| < |key| && key[|b|] == ':'
  {
    if key == "" || key[0] == ':' then []
    else
      var rest := Base(key[1..]);
      assert key == [key[0]] + key[1..];
      [key[0]] + rest
  }

  function Callee(key: string): string
    requires Base(key) != key
  {
    key[|Base(key)| + 1..]
  }

  // ------------------------------------------------------------------ the join

  /** An Operation as the catalogue holds it; `compiles`, `egressKnown` and `hasSchema` are what the
      Host, the configuration and the JSON parser say of its fields. */
  datatype Listing = Listing(key: string, enabled: Option<bool>, dynamic: bool, hasSource: bool, compiles: bool,
                             egressKnown: bool, hasSchema: bool, declaresReconcile: bool,
                             mutating: Option<bool>, requiresApproval: Option<bool>)

  datatype Implementation = Implementation(name: string, mutating: bool, reconciles: bool, seedApproval: bool)

  datatype Operation = Operation(name: string, mutating: bool, requiresApproval: bool, reconciles: bool)

  datatype Reason =
    | Absent
    | Disabled
    | Unimplemented
    | Ambiguous
    | Uncompilable
    | UnconfiguredEgress
    | Unparseable
    | BareCall
    | SelfCall

  datatype DroppedGrant = DroppedGrant(key: string, reason: Reason)

  datatype Verdict = Granted(operation: Operation) | Dropped(reason: Reason)

  const ASSISTANT_CALL := "assistant.call"

  function Find(catalogue: seq<Listing>, key: string): (r: Option<Listing>)
    ensures r.Some? ==>
              exists i :: 0 <= i < |catalogue| && catalogue[i] == r.value && r.value.key == key
                          && forall j | 0 <= j < i :: catalogue[j].key != key
    ensures r.None? <==> forall l | l in catalogue :: l.key != key
  {
    if catalogue == [] then None
    else if catalogue[0].key == key then Some(catalogue[0])
    else
      var later := Find(catalogue[1..], key);
      assert later.Some? ==>
        exists i :: 1 <= i < |catalogue| && catalogue[i] == later.value && later.value.key == key
                    && forall j | 0 <= j < i :: catalogue[j].key != key by {
        if later.Some? {
          var i :| 0 <= i < |catalogue[1..]| && catalogue[1..][i] == later.value
                   && forall j | 0 <= j < i :: catalogue[1..][j].key != key;
          assert catalogue[i + 1] == later.value;
          assert forall j | 1 <= j < i + 1 :: catalogue[j] == catalogue[1..][j - 1];
        }
      }
      later
  }

  /** Why this listing cannot be run, if it cannot. A key both compiled and stored is refused. */
  function Obstacle(listing: Listing, built: bool, hosted: bool): Option<Reason> {
    if listing.enabled == Some(false) then Some(Disabled)
    else if !listing.dynamic then
      if !built then Some(Unimplemented) else if listing.hasSource then Some(Ambiguous)
      else if !listing.hasSchema then Some(Unparseable) else None
    else if built then Some(Ambiguous)
    else if !listing.hasSource || !hosted then Some(Unimplemented)
    else if !listing.compiles then Some(Uncompilable)
    else if !listing.egressKnown then Some(UnconfiguredEgress)
    else if !listing.hasSchema then Some(Unparseable)
    else None
  }

  /** The listing decides approval when it says anything; whether a compiled Operation changes
      anything is the code's to say, a stored one's the listing's. */
  function Joined(listing: Listing, code: Option<Implementation>): Operation {
    if listing.dynamic || code.None? then
      Operation(listing.key, listing.mutating == Some(true), listing.requiresApproval == Some(true),
                listing.declaresReconcile)
    else
      Operation(code.value.name, code.value.mutating,
                if listing.requiresApproval.Some? then listing.requiresApproval.value else code.value.seedApproval,
                code.value.reconciles)
  }

  function Implemented(operations: map<string, Implementation>, base: string): Option<Implementation> {
    if base in operations then Some(operations[base]) else None
  }

  /** What one declared key comes to. */
  function Judge(key: string, assistant: string, catalogue: seq<Listing>, operations: map<string, Implementation>,
                 hosted: bool): Verdict
  {
    var base := Base(key);
    var listing := Find(catalogue, base);
    if listing.None? then Dropped(Absent)
    else
      var code := Implemented(operations, base);
      var obstacle := Obstacle(listing.value, code.Some?, hosted);
      if obstacle.Some? then Dropped(obstacle.value)
      else
        var joined := Joined(listing.value, code);
        if base != ASSISTANT_CALL then Granted(joined)
        else if base == key then Dropped(BareCall)
        else if Callee(key) == "" || Callee(key) == assistant then Dropped(SelfCall)
        else Granted(joined.(name := joined.name + ":" + Callee(key)))
  }

  /** A listing that can be run, whichever way it says it is implemented: a compiled one carries no source,
      a stored one is compiled by nobody else and has all it takes. */
  predicate Runnable(listing: Listing, built: bool, hosted: bool) {
    && listing.enabled != Some(false) && listing.hasSchema
    && (listing.dynamic ==> !built && listing.hasSource && hosted && listing.compiles && listing.egressKnown)
    && (!listing.dynamic ==> built && !listing.hasSource)
  }

  /** A declared key is granted exactly when its listing can be run and, if it is a call of an Assistant, it
      names another one; and what it is dropped for is what is wrong with it. */
  lemma GrantedExactlyWhen(key: string, assistant: string, catalogue: seq<Listing>,
                           operations: map<string, Implementation>, hosted: bool)
    ensures var verdict := Judge(key, assistant, catalogue, operations, hosted);
            var listing, built := Find(catalogue, Base(key)), Base(key) in operations;
            && (verdict.Granted? <==>
                  && listing.Some? && Runnable(listing.value, built, hosted)
                  && (Base(key) == "assistant.call" ==>
                        key != "assistant.call" && key != "assistant.call:" && key != "assistant.call:" + assistant))
            && (verdict == Dropped(Absent) <==> forall l | l in catalogue :: l.key != Base(key))
            && (verdict == Dropped(Disabled) <==> listing.Some? && listing.value.enabled == Some(false))
            && (verdict == Dropped(BareCall) ==> key == "assistant.call")
            && (verdict == Dropped(SelfCall) ==> key == "assistant.call:" || key == "assistant.call:" + assistant)
            && (verdict == Dropped(Ambiguous) <==>
                  && listing.Some? && listing.value.enabled != Some(false) && built
                  && (listing.value.dynamic || listing.value.hasSource))
            && (verdict == Dropped(Unimplemented) <==>
                  && listing.Some? && listing.value.enabled != Some(false) && !built
                  && (listing.value.dynamic ==> !listing.value.hasSource || !hosted))
            && (verdict == Dropped(Uncompilable) ==> listing.value.dynamic && !listing.value.compiles)
            && (verdict == Dropped(UnconfiguredEgress) ==>
                  listing.value.dynamic && listing.value.compiles && !listing.value.egressKnown)
            && (verdict == Dropped(Unparseable) ==> !listing.value.hasSchema)
  {
    hide Base, Callee, Joined, Obstacle;
    var listing := Find(catalogue, Base(key));
    if listing.Some? { ObstacleTells(listing.value, Base(key) in operations, hosted); }
    if Base(key) == ASSISTANT_CALL { CalleeTells(key, assistant); }
  }

  /** What keeps a listing from being run is wrong with it, and nothing does exactly when it can be. */
  lemma ObstacleTells(listing: Listing, built: bool, hosted: bool)
    ensures var obstacle := Obstacle(listing, built, hosted);
            && (obstacle.None? <==> Runnable(listing, built, hosted))
            && (obstacle == Some(Disabled) <==> listing.enabled == Some(false))
            && (obstacle == Some(Ambiguous) <==>
                  listing.enabled != Some(false) && built && (listing.dynamic || listing.hasSource))
            && (obstacle == Some(Unimplemented) <==>
                  && listing.enabled != Some(false) && !built
                  && (listing.dynamic ==> !listing.hasSource || !hosted))
            && (obstacle == Some(Uncompilable) ==> listing.dynamic && !listing.compiles)
            && (obstacle == Some(UnconfiguredEgress) ==> listing.dynamic && listing.compiles && !listing.egressKnown)
            && (obstacle == Some(Unparseable) ==> !listing.hasSchema)
            && (obstacle.Some? ==>
                  obstacle.value in {Disabled, Ambiguous, Unimplemented, Uncompilable, UnconfiguredEgress, Unparseable})
  {
  }

  lemma CalleeTells(key: string, assistant: string)
    requires Base(key) == ASSISTANT_CALL
    ensures ASSISTANT_CALL == "assistant.call"
    ensures Base(key) == key <==> key == "assistant.call"
    ensures Base(key) != key ==>
              && (Callee(key) == "" <==> key == "assistant.call:")
              && (Callee(key) == assistant <==> key == "assistant.call:" + assistant)
  {
    if Base(key) != key {
      assert key == Base(key) + ":" + Callee(key);
      assert "assistant.call" + ":" == "assistant.call:";
      assert ("assistant.call:" + assistant)[|ASSISTANT_CALL| + 1..] == assistant;
    }
  }

  /** Every Implementation is registered under its own name. */
  predicate Registered(operations: map<string, Implementation>) {
    forall name | name in operations :: operations[name].name == name
  }

  /** The name a declared key is granted under says which listing it came from. */
  lemma NameTellsBase(key: string, assistant: string, catalogue: seq<Listing>,
                      operations: map<string, Implementation>, hosted: bool)
    requires Registered(operations)
    ensures var verdict := Judge(key, assistant, catalogue, operations, hosted);
            verdict.Granted? ==>
              verdict.operation.name == (if Base(key) == ASSISTANT_CALL then key else Base(key))
              && Base(verdict.operation.name) == Base(key)
  {
    var verdict := Judge(key, assistant, catalogue, operations, hosted);
    if verdict.Granted? {
      if Base(key) == ASSISTANT_CALL {
        assert key == Base(key) + ":" + Callee(key);
      } else {
        BaseOfBase(Base(key));
      }
    }
  }

  lemma BaseOfBase(b: string)
    requires !Contains(b, ':')
    ensures Base(b) == b
  {
  }

  // ------------------------------------------------------------------ what is granted

  predicate Named(granted: seq<Operation>, name: string) {
    exists i :: 0 <= i < |granted| && granted[i].name == name
  }

  /** The trimmed, non-blank keys of the declared grants. */
  function Declared(grants: seq<Option<string>>): (keys: seq<string>)
    ensures forall key :: key in keys <==> key != "" && exists g :: g in grants && g.Some? && Trim(g.value) == key
    ensures |keys| <= |grants|
  {
    if grants == [] then []
    else
      var rest, last := Declared(grants[..|grants| - 1]), grants[|grants| - 1];
      if last.None? || Trim(last.value) == "" then rest else rest + [Trim(last.value)]
  }

  function Grants(keys: seq<string>, assistant: string, catalogue: seq<Listing>,
                  operations: map<string, Implementation>, hosted: bool): seq<Operation>
  {
    if keys == [] then []
    else
      var rest := Grants(keys[..|keys| - 1], assistant, catalogue, operations, hosted);
      var verdict := Judge(keys[|keys| - 1], assistant, catalogue, operations, hosted);
      if verdict.Granted? && !Named(rest, verdict.operation.name) then rest + [verdict.operation] else rest
  }

  function Drops(keys: seq<string>, assistant: string, catalogue: seq<Listing>,
                  operations: map<string, Implementation>, hosted: bool): seq<DroppedGrant>
  {
    if keys == [] then []
    else
      var rest := Drops(keys[..|keys| - 1], assistant, catalogue, operations, hosted);
      var verdict := Judge(keys[|keys| - 1], assistant, catalogue, operations, hosted);
      if verdict.Dropped? then rest + [DroppedGrant(keys[|keys| - 1], verdict.reason)] else rest
  }

  /** What a granted Operation is, read off its own listing and its own code: the listing's word on approval
      stands whenever it gives one, the seed's fills in for a compiled Operation; whether it changes anything
      and whether it reconciles is the code's to say of a compiled one, and the listing's of a stored one. */
  predicate AsListed(op: Operation, listing: Listing, operations: map<string, Implementation>) {
    && listing.key == Base(op.name)
    && (listing.key in operations <==> !listing.dynamic)
    && (op.requiresApproval <==>
          || listing.requiresApproval == Some(true)
          || (listing.requiresApproval == None && !listing.dynamic && operations[listing.key].seedApproval))
    && (op.mutating <==>
          if listing.dynamic then listing.mutating == Some(true) else operations[listing.key].mutating)
    && (op.reconciles <==>
          if listing.dynamic then listing.declaresReconcile else operations[listing.key].reconciles)
  }

  lemma {:induction false} GrantsAreAsListed(keys: seq<string>, assistant: string, catalogue: seq<Listing>,
                                             operations: map<string, Implementation>, hosted: bool)
    requires Registered(operations)
    ensures forall op | op in Grants(keys, assistant, catalogue, operations, hosted) ::
              && Find(catalogue, Base(op.name)).Some?
              && AsListed(op, Find(catalogue, Base(op.name)).value, operations)
  {
    hide Judge, AsListed;
    if keys != [] {
      GrantsAreAsListed(keys[..|keys| - 1], assistant, catalogue, operations, hosted);
      JudgedAsListed(keys[|keys| - 1], assistant, catalogue, operations, hosted);
    }
  }

  lemma JudgedAsListed(key: string, assistant: string, catalogue: seq<Listing>,
                       operations: map<string, Implementation>, hosted: bool)
    requires Registered(operations)
    ensures var verdict := Judge(key, assistant, catalogue, operations, hosted);
            verdict.Granted? ==>
              && Find(catalogue, Base(verdict.operation.name)).Some?
              && AsListed(verdict.operation, Find(catalogue, Base(verdict.operation.name)).value, operations)
  {
    NameTellsBase(key, assistant, catalogue, operations, hosted);
  }

  predicate Accounted(key: string, verdict: Verdict, granted: seq<Operation>, dropped: seq<DroppedGrant>) {
    if verdict.Granted? then Named(granted, verdict.operation.name) else DroppedGrant(key, verdict.reason) in dropped
  }

  /** Every declared key is accounted for once: granted under its name, or dropped with its reason;
      nothing else is granted or dropped, and no two granted Operations share a name. */
  lemma {:induction false} EveryGrantAccounted(keys: seq<string>, assistant: string, catalogue: seq<Listing>,
                                               operations: map<string, Implementation>, hosted: bool)
    ensures var granted := Grants(keys, assistant, catalogue, operations, hosted);
            var dropped := Drops(keys, assistant, catalogue, operations, hosted);
            && (forall key | key in keys ::
                  Accounted(key, Judge(key, assistant, catalogue, operations, hosted), granted, dropped))
            && (forall op | op in granted ::
                  exists key :: key in keys && Judge(key, assistant, catalogue, operations, hosted) == Granted(op))
            && (forall d | d in dropped ::
                  d.key in keys && Judge(d.key, assistant, catalogue, operations, hosted) == Dropped(d.reason))
            && (forall i, j | 0 <= i < j < |granted| :: granted[i].name != granted[j].name)
            && |granted| + |dropped| <= |keys|
  {
    hide Judge, Declared;
    if keys != [] {
      var before, last := keys[..|keys| - 1], keys[|keys| - 1];
      EveryGrantAccounted(before, assistant, catalogue, operations, hosted);
      var rest := Grants(before, assistant, catalogue, operations, hosted);
      var granted := Grants(keys, assistant, catalogue, operations, hosted);
      assert keys == before + [last];
      assert rest <= granted;
      forall name | Named(rest, name) ensures Named(granted, name) {
        var i :| 0 <= i < |rest| && rest[i].name == name;
        assert granted[i] == rest[i];
      }
      var verdict := Judge(last, assistant, catalogue, operations, hosted);
      if verdict.Granted? && !Named(rest, verdict.operation.name) {
        assert granted[|rest|].name == verdict.operation.name;
      }
      assert last in keys;
    }
  }

  // ------------------------------------------------------------------ switching an Operation off

  function Without(granted: seq<Operation>, base: string): seq<Operation> {
    if granted == [] then []
    else
      var rest, last := Without(granted[..|granted| - 1], base), granted[|granted| - 1];
      if Base(last.name) == base then rest else rest + [last]
  }

  lemma {:induction false} FindAfterDisabling(catalogue: seq<Listing>, n: nat, key: string)
    requires n < |catalogue| && forall i | 0 <= i < |catalogue| && i != n :: catalogue[i].key != catalogue[n].key
    ensures var off := catalogue[n].(enabled := Some(false));
            Find(catalogue[n := off], key) == if key == catalogue[n].key then Some(off) else Find(catalogue, key)
  {
    var off := catalogue[n].(enabled := Some(false));
    var late := catalogue[n := off];
    if n == 0 {
      assert late[1..] == catalogue[1..];
    } else {
      assert late[1..] == catalogue[1..][n - 1 := off];
      FindAfterDisabling(catalogue[1..], n - 1, key);
    }
  }

  lemma JudgeAfterDisabling(key: string, assistant: string, catalogue: seq<Listing>, n: nat,
                            operations: map<string, Implementation>, hosted: bool)
    requires n < |catalogue| && forall i | 0 <= i < |catalogue| && i != n :: catalogue[i].key != catalogue[n].key
    ensures var off := catalogue[n := catalogue[n].(enabled := Some(false))];
            Judge(key, assistant, off, operations, hosted)
            == if Base(key) == catalogue[n].key then Dropped(Disabled)
               else Judge(key, assistant, catalogue, operations, hosted)
  {
    FindAfterDisabling(catalogue, n, Base(key));
  }

  lemma {:induction false} WithoutNames(granted: seq<Operation>, base: string, name: string)
    requires Base(name) != base
    ensures Named(Without(granted, base), name) <==> Named(granted, name)
  {
    if granted != [] {
      var before, last := granted[..|granted| - 1], granted[|granted| - 1];
      WithoutNames(before, base, name);
      assert granted == before + [last];
      NamedAppend(before, last, name);
      NamedAppend(Without(before, base), last, name);
    }
  }

  lemma NamedAppend(granted: seq<Operation>, op: Operation, name: string)
    ensures Named(granted + [op], name) <==> Named(granted, name) || op.name == name
  {
    if Named(granted, name) {
      var i :| 0 <= i < |granted| && granted[i].name == name;
      assert (granted + [op])[i].name == name;
    }
    assert (granted + [op])[|granted|] == op;
  }

  /** Switching off a catalogue Operation whose key is its own removes exactly the grants on that
      base, callees and all, and leaves every other grant where it was. */
  lemma {:induction false} DisablingRemovesExactly(keys: seq<string>, assistant: string, catalogue: seq<Listing>,
                                                   n: nat,
                                                   operations: map<string, Implementation>, hosted: bool)
    requires Registered(operations)
    requires n < |catalogue| && forall i | 0 <= i < |catalogue| && i != n :: catalogue[i].key != catalogue[n].key
    ensures Grants(keys, assistant, catalogue[n := catalogue[n].(enabled := Some(false))], operations, hosted)
            == Without(Grants(keys, assistant, catalogue, operations, hosted), catalogue[n].key)
  {
    hide Judge;
    if keys != [] {
      var before, last := keys[..|keys| - 1], keys[|keys| - 1];
      DisablingRemovesExactly(before, assistant, catalogue, n, operations, hosted);
      JudgeAfterDisabling(last, assistant, catalogue, n, operations, hosted);
      NameTellsBase(last, assistant, catalogue, operations, hosted);
      var verdict := Judge(last, assistant, catalogue, operations, hosted);
      var rest := Grants(before, assistant, catalogue, operations, hosted);
      if verdict.Granted? {
        var longer := rest + [verdict.operation];
        assert longer[..|longer| - 1] == rest;
        if Base(last) != catalogue[n].key { WithoutNames(rest, catalogue[n].key, verdict.operation.name); }
      }
    }
  }

  // ------------------------------------------------------------------ names on the wire

  predicate Separator(c: char) {
    c == '.' || c == ':'
  }

  /** The name the provider sees: each dot and colon as two underscores. */
  function ToolName(name: string): string {
    if name == [] then []
    else (if Separator(name[0]) then "__" else [name[0]]) + ToolName(name[1..])
  }

  /** And back: each two underscores, from the left, as a dot. */
  function OperationName(wire: string): string {
    if |wire| >= 2 && wire[0] == '_' && wire[1] == '_' then "." + OperationName(wire[2..])
    else if wire == [] then []
    else [wire[0]] + OperationName(wire[1..])
  }

  function Dotted(name: string): string {
    if name == [] then [] else [if name[0] == ':' then '.' else name[0]] + Dotted(name[1..])
  }

  /** No underscore right before an underscore, a dot or a colon. */
  predicate Clean(name: string) {
    forall i | 0 <= i < |name| - 1 && name[i] == '_' :: !Separator(name[i + 1]) && name[i + 1] != '_'
  }

  lemma CleanTail(name: string)
    requires name != []
    ensures Clean(name) <==>
              Clean(name[1..])
              && (name[0] == '_' && |name| > 1 ==> !Separator(name[1]) && name[1] != '_')
  {
  }

  lemma ToolNameHead(name: string)
    ensures name != [] ==> ToolName(name) != []
                           && (ToolName(name)[0] == '_' <==> Separator(name[0]) || name[0] == '_')
  {
  }

  /** The reverse mapping gives a name back, colons read as dots, exactly when no underscore stands
      right before another, a dot or a colon; a name without underscores always comes back. */
  lemma {:induction false} WireRoundTrip(name: string)
    ensures OperationName(ToolName(name)) == Dotted(name) <==> Clean(name)
  {
    if name != [] {
      var rest := name[1..];
      var wire := ToolName(name);
      WireRoundTrip(rest);
      CleanTail(name);
      ToolNameHead(rest);
      if Separator(name[0]) {
        assert wire[2..] == ToolName(rest);
        assert OperationName(wire)[1..] == OperationName(ToolName(rest)) && Dotted(name)[1..] == Dotted(rest);
      } else {
        assert wire[1..] == ToolName(rest);
        if name[0] == '_' && rest != [] && (Separator(rest[0]) || rest[0] == '_') {
          assert wire[0] == '_' && wire[1] == '_';
          assert OperationName(wire)[0] == '.' && Dotted(name)[0] == '_';
        } else {
          assert OperationName(wire) == [name[0]] + OperationName(ToolName(rest));
          assert OperationName(wire)[1..] == OperationName(ToolName(rest)) && Dotted(name)[1..] == Dotted(rest);
        }
      }
    }
  }

  lemma {:induction false} ToolNameOfDotted(name: string)
    ensures ToolName(Dotted(name)) == ToolName(name)
  {
    if name != [] {
      assert Dotted(name)[1..] == Dotted(name[1..]);
      ToolNameOfDotted(name[1..]);
    }
  }

  /** Two clean names share a wire name exactly when they differ in dots and colons only. */
  lemma WireNamesInjective(a: string, b: string)
    requires Clean(a) && Clean(b)
    ensures ToolName(a) == ToolName(b) <==> Dotted(a) == Dotted(b)
  {
    WireRoundTrip(a);
    WireRoundTrip(b);
    ToolNameOfDotted(a);
    ToolNameOfDotted(b);
  }

  // ------------------------------------------------------------------ what a call resolves to

  function ByWire(granted: seq<Operation>, wire: string): (r: Option<Operation>)
    ensures r.Some? ==> r.value in granted && ToolName(r.value.name) == wire
    ensures r.None? ==> forall op | op in granted :: ToolName(op.name) != wire
  {
    if granted == [] then None
    else if ToolName(granted[0].name) == wire then Some(granted[0])
    else ByWire(granted[1..], wire)
  }

  function ByName(granted: seq<Operation>, name: string): (r: Option<Operation>)
    ensures r.Some? ==> r.value in granted && r.value.name == name
    ensures r.None? ==> forall op | op in granted :: op.name != name
  {
    if granted == [] then None
    else if granted[0].name == name then Some(granted[0])
    else ByName(granted[1..], name)
  }

  /** By the name it was offered under, else by the name that maps back to. */
  function ResolveCall(granted: seq<Operation>, wire: string): Option<Operation> {
    if ByWire(granted, wire).Some? then ByWire(granted, wire) else ByName(granted, OperationName(wire))
  }

  predicate NamesDiffer(granted: seq<Operation>) {
    forall i, j | 0 <= i < j < |granted| :: granted[i].name != granted[j].name
  }

  predicate WiresDiffer(granted: seq<Operation>) {
    forall i, j | 0 <= i < j < |granted| :: ToolName(granted[i].name) != ToolName(granted[j].name)
  }

  /** Every offered call comes back to the Operation it was offered for, exactly when no two offers
      share a wire name. */
  lemma OffersResolve(granted: seq<Operation>)
    requires NamesDiffer(granted)
    ensures (forall op | op in granted :: ResolveCall(granted, ToolName(op.name)) == Some(op)) <==> WiresDiffer(granted)
  {
  }

  /** So for clean names it is enough that no two differ in dots and colons only. */
  lemma CleanOffersResolve(granted: seq<Operation>)
    requires forall op | op in granted :: Clean(op.name)
    ensures WiresDiffer(granted) <==>
              forall i, j | 0 <= i < j < |granted| :: Dotted(granted[i].name) != Dotted(granted[j].name)
  {
    forall i, j | 0 <= i < j < |granted|
      ensures ToolName(granted[i].name) == ToolName(granted[j].name)
              <==> Dotted(granted[i].name) == Dotted(granted[j].name)
    {
      assert granted[i] in granted && granted[j] in granted;
      WireNamesInjective(granted[i].name, granted[j].name);
    }
  }

  // ------------------------------------------------------------------ the registry

  /** A key resolves to a compiled Operation whose listing asks for less approval than its code
      shipped with. */
  predicate Weaker(key: string, catalogue: seq<Listing>, operations: map<string, Implementation>, hosted: bool) {
    var listing, code := Find(catalogue, Base(key)), Implemented(operations, Base(key));
    && listing.Some? && Obstacle(listing.value, code.Some?, hosted).None?
    && !listing.value.dynamic && code.Some? && code.value.seedApproval && listing.value.requiresApproval == Some(false)
  }

  function WeakerBases(keys: seq<string>, catalogue: seq<Listing>, operations: map<string, Implementation>,
                       hosted: bool)
    : set<string>
  {
    set key | key in keys && Weaker(key, catalogue, operations, hosted) :: Base(key)
  }

  lemma WeakerNext(keys: seq<string>, i: nat, catalogue: seq<Listing>,
                   operations: map<string, Implementation>, hosted: bool)
    requires i < |keys|
    ensures WeakerBases(keys[..i + 1], catalogue, operations, hosted)
            == WeakerBases(keys[..i], catalogue, operations, hosted)
               + if Weaker(keys[i], catalogue, operations, hosted) then {Base(keys[i])} else {}
  {
    assert keys[..i + 1] == keys[..i] + [keys[i]];
  }

  lemma NoneWeaker(catalogue: seq<Listing>, operations: map<string, Implementation>, hosted: bool)
    ensures WeakerBases([], catalogue, operations, hosted) == {}
  {
  }

  lemma WeakerByBase(key: string, other: string, catalogue: seq<Listing>,
                     operations: map<string, Implementation>, hosted: bool)
    requires Base(key) == Base(other)
    ensures Weaker(key, catalogue, operations, hosted) <==> Weaker(other, catalogue, operations, hosted)
  {
  }

  lemma WeakerIsUnguarded(key: string, assistant: string, catalogue: seq<Listing>,
                          operations: map<string, Implementation>, hosted: bool)
    requires Registered(operations)
    ensures var verdict := Judge(key, assistant, catalogue, operations, hosted);
            && (verdict.Granted? ==>
                  && Base(verdict.operation.name) == Base(key)
                  && (Weaker(key, catalogue, operations, hosted) <==> Unguarded(verdict.operation, operations)))
            && (Weaker(key, catalogue, operations, hosted) ==>
                  && Base(key) in operations && operations[Base(key)].seedApproval
                  && (Base(key) != ASSISTANT_CALL ==> verdict.Granted?))
  {
    NameTellsBase(key, assistant, catalogue, operations, hosted);
  }

  /** Whoever loses the approval its code shipped with is warned of: each such grant, and, but for the calls
      of Assistants, nothing else. */
  lemma WarnedIsGranted(keys: seq<string>, assistant: string, catalogue: seq<Listing>,
                        operations: map<string, Implementation>, hosted: bool)
    requires Registered(operations)
    ensures var granted := Grants(keys, assistant, catalogue, operations, hosted);
            var warned := WeakerBases(keys, catalogue, operations, hosted);
            && (forall op | op in granted :: Unguarded(op, operations) ==> Base(op.name) in warned)
            && (forall base | base in warned ::
                  && base in operations && operations[base].seedApproval
                  && (base != ASSISTANT_CALL ==>
                        exists op :: op in granted && Base(op.name) == base && Unguarded(op, operations)))
  {
    hide Judge, Weaker;
    var granted := Grants(keys, assistant, catalogue, operations, hosted);
    EveryGrantAccounted(keys, assistant, catalogue, operations, hosted);
    forall op | op in granted && Unguarded(op, operations)
      ensures Base(op.name) in WeakerBases(keys, catalogue, operations, hosted)
    {
      var key :| key in keys && Judge(key, assistant, catalogue, operations, hosted) == Granted(op);
      WeakerIsUnguarded(key, assistant, catalogue, operations, hosted);
    }
    forall base | base in WeakerBases(keys, catalogue, operations, hosted)
      ensures base in operations && operations[base].seedApproval
      ensures base != ASSISTANT_CALL ==>
                exists op :: op in granted && Base(op.name) == base && Unguarded(op, operations)
    {
      var key :| key in keys && Weaker(key, catalogue, operations, hosted) && Base(key) == base;
      WeakerIsUnguarded(key, assistant, catalogue, operations, hosted);
      if base != ASSISTANT_CALL {
        var verdict := Judge(key, assistant, catalogue, operations, hosted);
        var i :| 0 <= i < |granted| && granted[i].name == verdict.operation.name;
        var other :| other in keys && Judge(other, assistant, catalogue, operations, hosted) == Granted(granted[i]);
        WeakerIsUnguarded(other, assistant, catalogue, operations, hosted);
        WeakerByBase(key, other, catalogue, operations, hosted);
      }
    }
  }

  /** Granted without the approval its code shipped with. */
  predicate Unguarded(op: Operation, operations: map<string, Implementation>) {
    Base(op.name) in operations && operations[Base(op.name)].seedApproval && !op.requiresApproval
  }

  class OperationRegistry {
    var operations: map<string, Implementation>
    var warnedWeaker: set<string>
    var hosted: bool

    constructor (hosted: bool)
      ensures operations == map[] && warnedWeaker == {} && this.hosted == hosted && Registered(operations)
    {
      operations := map[];
      warnedWeaker := {};
      this.hosted := hosted;
    }

    /** A name is registered once. */
    method Register(implementation: Implementation) returns (accepted: bool)
      requires Registered(operations)
      modifies this`operations
      ensures Registered(operations)
      ensures accepted <==> implementation.name !in old(operations)
      ensures operations == if accepted then old(operations)[implementation.name := implementation] else old(operations)
    {
      if implementation.name in operations {
        return false;
      }
      operations := operations[implementation.name := implementation];
      return true;
    }

    /** Key by key: judge it, drop it with its reason, or grant it unless its name is granted. */
    method GrantedTo(assistant: string, grants: seq<Option<string>>, catalogue: seq<Listing>)
      returns (granted: seq<Operation>, dropped: seq<DroppedGrant>)
      requires Registered(operations)
      modifies this`warnedWeaker
      ensures granted == Grants(Declared(grants), assistant, catalogue, operations, hosted)
      ensures dropped == Drops(Declared(grants), assistant, catalogue, operations, hosted)
      ensures warnedWeaker == old(warnedWeaker) + WeakerBases(Declared(grants), catalogue, operations, hosted)
      ensures forall op | op in granted ::
                && Find(catalogue, Base(op.name)).Some?
                && AsListed(op, Find(catalogue, Base(op.name)).value, operations)
                && (Unguarded(op, operations) ==> Base(op.name) in warnedWeaker)
    {
      hide Judge, Weaker, Declared, Find, AsListed, Unguarded, WeakerBases, Base;
      var declared := Declared(grants);
      granted, dropped := [], [];
      NoneWeaker(catalogue, operations, hosted);
      for i := 0 to |declared|
        invariant granted == Grants(declared[..i], assistant, catalogue, operations, hosted)
        invariant dropped == Drops(declared[..i], assistant, catalogue, operations, hosted)
        invariant warnedWeaker == old(warnedWeaker) + WeakerBases(declared[..i], catalogue, operations, hosted)
      {
        var key := declared[i];
        assert declared[..i + 1][..i] == declared[..i];
        WeakerNext(declared, i, catalogue, operations, hosted);
        if Weaker(key, catalogue, operations, hosted) {
          warnedWeaker := warnedWeaker + {Base(key)};
        }
        var verdict := Judge(key, assistant, catalogue, operations, hosted);
        match verdict {
          case Dropped(reason) =>
            dropped := dropped + [DroppedGrant(key, reason)];
          case Granted(operation) =>
            if !Named(granted, operation.name) {
              granted := granted + [operation];
            }
        }
      }
      assert declared[..|declared|] == declared;
      GrantsAreAsListed(declared, assistant, catalogue, operations, hosted);
      WarnedIsGranted(declared, assistant, catalogue, operations, hosted);
    }
  }
}
