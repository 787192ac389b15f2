/** A Thing and the document that stores it: the two projections, and the update that writes one over
    the other without disturbing what neither knows about. */
module Things {
  import opened Wrappers

  /** What a property or a document field may hold. Only memory can hold `Undefined`. */
  datatype Value = Undefined | Null | Scalar(text: string) | Rows(rows: seq<map<string, Value>>)

  type Data = map<string, Value>

  datatype Field = Field(property: string, name: string)

  datatype Group = Group(property: string, name: string, fields: seq<Field>)

  datatype Spec = Spec(root: string, fields: seq<Field>, groups: seq<Group>)

  // ------------------------------------------------------------------ filling an object

  function Get(data: Data, key: string): Option<Value> {
    if key in data && data[key] != Undefined then Some(data[key]) else None
  }

  /** An object filled key by key, skipping what is absent; a later key overwrites an earlier one. */
  function Collect(keys: seq<string>, values: seq<Option<Value>>): Data
    requires |keys| == |values|
  {
    if keys == [] then map[]
    else
      var n := |keys| - 1;
      var rest := Collect(keys[..n], values[..n]);
      if values[n].Some? then rest[keys[n] := values[n].value] else rest
  }

  predicate Distinct(keys: seq<string>) {
    forall i, j | 0 <= i < j < |keys| :: keys[i] != keys[j]
  }

  lemma {:induction false} Collected(keys: seq<string>, values: seq<Option<Value>>)
    requires |keys| == |values| && Distinct(keys)
    ensures forall k | k in Collect(keys, values) :: k in keys
    ensures forall i | 0 <= i < |keys| ::
              if values[i].Some?
              then keys[i] in Collect(keys, values) && Collect(keys, values)[keys[i]] == values[i].value
              else keys[i] !in Collect(keys, values)
  {
    if keys != [] {
      var n := |keys| - 1;
      Collected(keys[..n], values[..n]);
      assert keys[n] !in keys[..n];
      assert forall i | 0 <= i < n :: keys[..n][i] == keys[i] && values[..n][i] == values[i];
    }
  }

  // ------------------------------------------------------------------ the two projections

  function Properties(fields: seq<Field>): seq<string> {
    seq(|fields|, i requires 0 <= i < |fields| => fields[i].property)
  }

  function Names(fields: seq<Field>): seq<string> {
    seq(|fields|, i requires 0 <= i < |fields| => fields[i].name)
  }

  function Lookup(data: Data, keys: seq<string>): seq<Option<Value>> {
    seq(|keys|, i requires 0 <= i < |keys| => Get(data, keys[i]))
  }

  /** One row under its field names, and one read back under its properties. */
  function WriteRow(fields: seq<Field>, row: Data): Data {
    Collect(Names(fields), Lookup(row, Properties(fields)))
  }

  function ReadRow(fields: seq<Field>, row: Data): Data {
    Collect(Properties(fields), Lookup(row, Names(fields)))
  }

  function WriteRows(fields: seq<Field>, rows: seq<Data>): seq<Data> {
    seq(|rows|, i requires 0 <= i < |rows| => WriteRow(fields, rows[i]))
  }

  function ReadRows(fields: seq<Field>, rows: seq<Data>): seq<Data> {
    seq(|rows|, i requires 0 <= i < |rows| => ReadRow(fields, rows[i]))
  }

  function GroupProperties(groups: seq<Group>): seq<string> {
    seq(|groups|, i requires 0 <= i < |groups| => groups[i].property)
  }

  function GroupNames(groups: seq<Group>): seq<string> {
    seq(|groups|, i requires 0 <= i < |groups| => groups[i].name)
  }

  function WrittenGroup(data: Data, g: Group): Option<Value> {
    if g.property in data && data[g.property].Rows? then Some(Rows(WriteRows(g.fields, data[g.property].rows)))
      else None
  }

  function ReadGroup(body: Data, g: Group): Option<Value> {
    if g.name in body && body[g.name].Rows? then Some(Rows(ReadRows(g.fields, body[g.name].rows))) else None
  }

  function WrittenGroups(data: Data, groups: seq<Group>): seq<Option<Value>> {
    seq(|groups|, i requires 0 <= i < |groups| => WrittenGroup(data, groups[i]))
  }

  function GroupsRead(body: Data, groups: seq<Group>): seq<Option<Value>> {
    seq(|groups|, i requires 0 <= i < |groups| => ReadGroup(body, groups[i]))
  }

  /** The document body this data makes. */
  function Body(spec: Spec, data: Data): Data {
    Collect(Names(spec.fields) + GroupNames(spec.groups),
            Lookup(data, Properties(spec.fields)) + WrittenGroups(data, spec.groups))
  }

  /** The data this document body shows. */
  function Projection(spec: Spec, body: Data): Data {
    Collect(Properties(spec.fields) + GroupProperties(spec.groups),
            Lookup(body, Names(spec.fields)) + GroupsRead(body, spec.groups))
  }

  // ------------------------------------------------------------------ filled in place, as the program does

  lemma CollectNext(keys: seq<string>, values: seq<Option<Value>>, i: nat)
    requires |keys| == |values| && i < |keys|
    ensures Collect(keys[..i + 1], values[..i + 1])
            == var rest := Collect(keys[..i], values[..i]);
               if values[i].Some? then rest[keys[i] := values[i].value] else rest
  {
    assert keys[..i + 1][..i] == keys[..i] && values[..i + 1][..i] == values[..i];
  }

  lemma CollectAll(keys: seq<string>, values: seq<Option<Value>>)
    requires |keys| == |values|
    ensures Collect(keys[..|keys|], values[..|keys|]) == Collect(keys, values)
            && Collect(keys[..0], values[..0]) == map[]
  {
    assert keys[..|keys|] == keys && values[..|keys|] == values;
  }

  method WriteFields(fields: seq<Field>, data: Data) returns (out: Data)
    ensures out == WriteRow(fields, data)
  {
    ghost var keys, values := Names(fields), Lookup(data, Properties(fields));
    out := map[];
    CollectAll(keys, values);
    for i := 0 to |fields|
      invariant out == Collect(keys[..i], values[..i])
    {
      CollectNext(keys, values, i);
      var value := Get(data, fields[i].property);
      if value.Some? {
        out := out[fields[i].name := value.value];
      }
    }
  }

  method ReadFields(fields: seq<Field>, body: Data) returns (out: Data)
    ensures out == ReadRow(fields, body)
  {
    ghost var keys, values := Properties(fields), Lookup(body, Names(fields));
    out := map[];
    CollectAll(keys, values);
    for i := 0 to |fields|
      invariant out == Collect(keys[..i], values[..i])
    {
      CollectNext(keys, values, i);
      var value := Get(body, fields[i].name);
      if value.Some? {
        out := out[fields[i].property := value.value];
      }
    }
  }

  method WriteAllRows(fields: seq<Field>, rows: seq<Data>) returns (out: seq<Data>)
    ensures out == WriteRows(fields, rows)
  {
    out := [];
    for i := 0 to |rows|
      invariant out == WriteRows(fields, rows[..i])
    {
      var row := WriteFields(fields, rows[i]);
      out := out + [row];
      assert rows[..i + 1] == rows[..i] + [rows[i]];
    }
    assert rows[..|rows|] == rows;
  }

  method ReadAllRows(fields: seq<Field>, rows: seq<Data>) returns (out: seq<Data>)
    ensures out == ReadRows(fields, rows)
  {
    out := [];
    for i := 0 to |rows|
      invariant out == ReadRows(fields, rows[..i])
    {
      var row := ReadFields(fields, rows[i]);
      out := out + [row];
      assert rows[..i + 1] == rows[..i] + [rows[i]];
    }
    assert rows[..|rows|] == rows;
  }

  lemma Lengths(spec: Spec, data: Data)
    ensures |Names(spec.fields)| == |Properties(spec.fields)| == |spec.fields|
    ensures |Lookup(data, Properties(spec.fields))| == |Lookup(data, Names(spec.fields))| == |spec.fields|
    ensures |GroupNames(spec.groups)| == |GroupProperties(spec.groups)| == |spec.groups|
    ensures |WrittenGroups(data, spec.groups)| == |GroupsRead(data, spec.groups)| == |spec.groups|
  {
  }

  /** The keys and values an object is filled with: its fields', then its groups'. */
  lemma PastTheFields(keys: seq<string>, values: seq<Option<Value>>, more: seq<string>, groups: seq<Option<Value>>,
                      i: nat)
    requires |keys| == |values| && |more| == |groups|
    ensures (keys + more)[..|keys|] == keys && (values + groups)[..|values|] == values
    ensures i < |more| ==> (keys + more)[|keys| + i] == more[i] && (values + groups)[|keys| + i] == groups[i]
  {
  }

  /** The object so far, with the next group added. */
  lemma GroupNext(spec: Spec, data: Data, i: nat)
    requires i < |spec.groups|
    ensures var n := |spec.fields|;
            var keys := Names(spec.fields) + GroupNames(spec.groups);
            var values := Lookup(data, Properties(spec.fields)) + WrittenGroups(data, spec.groups);
            var rest, group := Collect(keys[..n + i], values[..n + i]), WrittenGroup(data, spec.groups[i]);
            Collect(keys[..n + i + 1], values[..n + i + 1])
            == if group.Some? then rest[spec.groups[i].name := group.value] else rest
  {
    hide Collect;
    PastTheFields(Names(spec.fields), Lookup(data, Properties(spec.fields)), GroupNames(spec.groups),
                  WrittenGroups(data, spec.groups), i);
    CollectNext(Names(spec.fields) + GroupNames(spec.groups),
                Lookup(data, Properties(spec.fields)) + WrittenGroups(data, spec.groups), |spec.fields| + i);
  }

  lemma GroupReadNext(spec: Spec, body: Data, i: nat)
    requires i < |spec.groups|
    ensures var n := |spec.fields|;
            var keys := Properties(spec.fields) + GroupProperties(spec.groups);
            var values := Lookup(body, Names(spec.fields)) + GroupsRead(body, spec.groups);
            var rest, group := Collect(keys[..n + i], values[..n + i]), ReadGroup(body, spec.groups[i]);
            Collect(keys[..n + i + 1], values[..n + i + 1])
            == if group.Some? then rest[spec.groups[i].property := group.value] else rest
  {
    hide Collect;
    PastTheFields(Properties(spec.fields), Lookup(body, Names(spec.fields)), GroupProperties(spec.groups),
                  GroupsRead(body, spec.groups), i);
    CollectNext(Properties(spec.fields) + GroupProperties(spec.groups),
                Lookup(body, Names(spec.fields)) + GroupsRead(body, spec.groups), |spec.fields| + i);
  }

  /** Field by field, then group by group, row by row. */
  method ToDocument(spec: Spec, data: Data) returns (body: Data)
    ensures body == Body(spec, data)
  {
    hide Collect, Names, Properties, Lookup, WriteRows, WrittenGroups, GroupNames;
    var n := |spec.fields|;
    ghost var keys := Names(spec.fields) + GroupNames(spec.groups);
    ghost var values := Lookup(data, Properties(spec.fields)) + WrittenGroups(data, spec.groups);
    Lengths(spec, data);
    PastTheFields(Names(spec.fields), Lookup(data, Properties(spec.fields)), GroupNames(spec.groups),
                  WrittenGroups(data, spec.groups), 0);
    body := WriteFields(spec.fields, data);
    for i := 0 to |spec.groups|
      invariant body == Collect(keys[..n + i], values[..n + i])
    {
      GroupNext(spec, data, i);
      var group := spec.groups[i];
      if group.property in data && data[group.property].Rows? {
        var rows := WriteAllRows(group.fields, data[group.property].rows);
        body := body[group.name := Rows(rows)];
      }
    }
    CollectAll(keys, values);
  }

  method FromDocument(spec: Spec, body: Data) returns (out: Data)
    ensures out == Projection(spec, body)
  {
    hide Collect, Names, Properties, Lookup, ReadRows, GroupsRead, GroupProperties;
    var n := |spec.fields|;
    ghost var keys := Properties(spec.fields) + GroupProperties(spec.groups);
    ghost var values := Lookup(body, Names(spec.fields)) + GroupsRead(body, spec.groups);
    Lengths(spec, body);
    PastTheFields(Properties(spec.fields), Lookup(body, Names(spec.fields)), GroupProperties(spec.groups),
                  GroupsRead(body, spec.groups), 0);
    out := ReadFields(spec.fields, body);
    for i := 0 to |spec.groups|
      invariant out == Collect(keys[..n + i], values[..n + i])
    {
      GroupReadNext(spec, body, i);
      var group := spec.groups[i];
      if group.name in body && body[group.name].Rows? {
        var rows := ReadAllRows(group.fields, body[group.name].rows);
        out := out[group.property := Rows(rows)];
      }
    }
    CollectAll(keys, values);
  }

  // ------------------------------------------------------------------ the lens

  predicate WellNamed(spec: Spec) {
    && Distinct(Names(spec.fields) + GroupNames(spec.groups))
    && Distinct(Properties(spec.fields) + GroupProperties(spec.groups))
    && forall g | g in spec.groups :: Distinct(Names(g.fields)) && Distinct(Properties(g.fields))
  }

  const UPDATED_AT := "updatedAt"

  /** The stored body after an update: what is mapped and defined over what was there. */
  function UpdatedBody(spec: Spec, raw: Data, data: Data, now: string): Data {
    raw + Body(spec, data[UPDATED_AT := Scalar(now)])
  }

  /** Rows as the store gives them back: mapped, defined properties only. */
  function NormalRows(fields: seq<Field>, rows: seq<Data>): seq<Data> {
    ReadRows(fields, WriteRows(fields, rows))
  }

  lemma NormalRow(fields: seq<Field>, row: Data)
    requires Distinct(Names(fields)) && Distinct(Properties(fields))
    ensures ReadRow(fields, WriteRow(fields, row)) == Collect(Properties(fields), Lookup(row, Properties(fields)))
  {
    var there := WriteRow(fields, row);
    Collected(Names(fields), Lookup(row, Properties(fields)));
    forall i | 0 <= i < |fields| ensures Get(there, Names(fields)[i]) == Get(row, Properties(fields)[i]) {}
    assert Lookup(there, Names(fields)) == Lookup(row, Properties(fields));
  }

  /** A row of mapped, defined properties comes back as it was. */
  lemma RowRoundTrip(fields: seq<Field>, row: Data)
    requires Distinct(Names(fields)) && Distinct(Properties(fields))
    requires forall k | k in row :: k in Properties(fields) && row[k] != Undefined
    ensures ReadRow(fields, WriteRow(fields, row)) == row
  {
    NormalRow(fields, row);
    var back := ReadRow(fields, WriteRow(fields, row));
    Collected(Properties(fields), Lookup(row, Properties(fields)));
    forall k ensures (k in back <==> k in row) && (k in row ==> back[k] == row[k]) {
      if k in Properties(fields) {
        var i :| 0 <= i < |fields| && Properties(fields)[i] == k;
        assert Get(row, k) == Lookup(row, Properties(fields))[i];
      }
    }
  }

  /** What an update leaves of the body, name by name. */
  lemma UpdateWrites(spec: Spec, raw: Data, data: Data, now: string)
    requires WellNamed(spec)
    ensures var stamped, body := data[UPDATED_AT := Scalar(now)], UpdatedBody(spec, raw, data, now);
            && (forall f | f in spec.fields ::
                  Get(body, f.name)
                  == if Get(stamped, f.property).Some? then Get(stamped, f.property) else Get(raw, f.name))
            && (forall g | g in spec.groups ::
                  ReadGroup(body, g) == if WrittenGroup(stamped, g).Some?
                                        then Some(Rows(NormalRows(g.fields, stamped[g.property].rows)))
                                        else ReadGroup(raw, g))
            && (forall k | k !in Names(spec.fields) && k !in GroupNames(spec.groups) ::
                  (k in body <==> k in raw) && (k in raw ==> body[k] == raw[k]))
  {
    var stamped, body := data[UPDATED_AT := Scalar(now)], UpdatedBody(spec, raw, data, now);
    var keys := Names(spec.fields) + GroupNames(spec.groups);
    var values := Lookup(stamped, Properties(spec.fields)) + WrittenGroups(stamped, spec.groups);
    var written := Body(spec, stamped);
    Collected(keys, values);
    forall f | f in spec.fields
      ensures Get(body, f.name) == if Get(stamped, f.property).Some? then Get(stamped, f.property) else Get(raw, f.name)
    {
      var i :| 0 <= i < |spec.fields| && spec.fields[i] == f;
      assert keys[i] == f.name && values[i] == Get(stamped, f.property);
    }
    forall g | g in spec.groups
      ensures ReadGroup(body, g) == if WrittenGroup(stamped, g).Some?
                                    then Some(Rows(NormalRows(g.fields, stamped[g.property].rows)))
                                    else ReadGroup(raw, g)
    {
      var i :| 0 <= i < |spec.groups| && spec.groups[i] == g;
      var n := |spec.fields|;
      assert keys[n + i] == g.name && values[n + i] == WrittenGroup(stamped, g);
    }
  }

  /** How a projection is filled. */
  lemma ProjectionFills(spec: Spec, body: Data, i: nat)
    requires WellNamed(spec)
    ensures i < |spec.fields| ==> Get(Projection(spec, body), spec.fields[i].property) == Get(body, spec.fields[i].name)
    ensures i < |spec.groups| ==>
              Get(Projection(spec, body), spec.groups[i].property) == ReadGroup(body, spec.groups[i])
  {
    hide ReadGroup, ReadRows;
    var keys := Properties(spec.fields) + GroupProperties(spec.groups);
    var values := Lookup(body, Names(spec.fields)) + GroupsRead(body, spec.groups);
    var n := |spec.fields|;
    Collected(keys, values);
    if i < n { assert keys[i] == spec.fields[i].property && values[i] == Get(body, spec.fields[i].name); }
    if i < |spec.groups| {
      assert keys[n + i] == spec.groups[i].property && values[n + i] == ReadGroup(body, spec.groups[i]);
      ReadIsDefined(body, spec.groups[i]);
    }
  }

  lemma ReadIsDefined(body: Data, g: Group)
    ensures ReadGroup(body, g).Some? ==> ReadGroup(body, g).value != Undefined
  {
  }

  lemma ProjectionHoldsNoMore(spec: Spec, body: Data, k: string)
    requires WellNamed(spec) && k in Projection(spec, body)
    ensures (k in Properties(spec.fields) || k in GroupProperties(spec.groups))
            && Projection(spec, body)[k] != Undefined
  {
    var keys := Properties(spec.fields) + GroupProperties(spec.groups);
    var values := Lookup(body, Names(spec.fields)) + GroupsRead(body, spec.groups);
    Collected(keys, values);
    var i :| 0 <= i < |keys| && keys[i] == k;
    assert values[i].Some? && values[i].value != Undefined;
  }

  lemma ProjectionShows(spec: Spec, body: Data)
    requires WellNamed(spec)
    ensures var shown := Projection(spec, body);
            && (forall f | f in spec.fields :: Get(shown, f.property) == Get(body, f.name))
            && (forall g | g in spec.groups :: Get(shown, g.property) == ReadGroup(body, g))
            && (forall k | k in shown :: (k in Properties(spec.fields) || k in GroupProperties(spec.groups))
                                         && shown[k] != Undefined)
  {
    hide Projection, WellNamed, ReadGroup, Get, Properties, GroupProperties;
    forall f | f in spec.fields ensures Get(Projection(spec, body), f.property) == Get(body, f.name) {
      var i :| 0 <= i < |spec.fields| && spec.fields[i] == f;
      ProjectionFills(spec, body, i);
    }
    forall g | g in spec.groups ensures Get(Projection(spec, body), g.property) == ReadGroup(body, g) {
      var i :| 0 <= i < |spec.groups| && spec.groups[i] == g;
      ProjectionFills(spec, body, i);
    }
    forall k | k in Projection(spec, body)
      ensures (k in Properties(spec.fields) || k in GroupProperties(spec.groups))
              && Projection(spec, body)[k] != Undefined
    {
      ProjectionHoldsNoMore(spec, body, k);
    }
  }

  /** Reading back after an update: a field is what was written if something defined was, and what it
      was before otherwise, so undefined never clears; a group that was written is replaced whole;
      and whatever the spec does not name is untouched. */
  lemma UpdateIsALens(spec: Spec, raw: Data, data: Data, now: string)
    requires WellNamed(spec)
    ensures var stamped := data[UPDATED_AT := Scalar(now)];
            var before, after := Projection(spec, raw), Projection(spec, UpdatedBody(spec, raw, data, now));
            && (forall f | f in spec.fields ::
                  Get(after, f.property)
                  == if Get(stamped, f.property).Some? then Get(stamped, f.property) else Get(before, f.property))
            && (forall g | g in spec.groups ::
                  Get(after, g.property)
                  == if g.property in stamped && stamped[g.property].Rows?
                     then Some(Rows(NormalRows(g.fields, stamped[g.property].rows))) else Get(before, g.property))
            && (forall k | k !in Names(spec.fields) && k !in GroupNames(spec.groups) ::
                  Get(UpdatedBody(spec, raw, data, now), k) == Get(raw, k))
  {
    hide Collect, WrittenGroup, ReadGroup, WriteRows, ReadRows;
    UpdateWrites(spec, raw, data, now);
    ProjectionShows(spec, raw);
    ProjectionShows(spec, UpdatedBody(spec, raw, data, now));
    forall g
      ensures WrittenGroup(data[UPDATED_AT := Scalar(now)], g).Some? <==>
                g.property in data[UPDATED_AT := Scalar(now)] && data[UPDATED_AT := Scalar(now)][g.property].Rows?
    {
      WrittenWhenRows(data[UPDATED_AT := Scalar(now)], g);
    }
  }

  lemma WrittenWhenRows(data: Data, g: Group)
    ensures WrittenGroup(data, g).Some? <==> g.property in data && data[g.property].Rows?
  {
  }

  /** Memory that started as what the store showed, and since then only set properties to values. */
  ghost predicate Resumable(spec: Spec, raw: Data, data: Data) {
    && UPDATED_AT in Properties(spec.fields)
    && (forall k | k in Projection(spec, raw) :: k in data)
    && (forall k | k in data :: data[k] != Undefined
                                && (k in Properties(spec.fields) || k in GroupProperties(spec.groups)))
    && (forall g | g in spec.groups && g.property in data ::
          data[g.property].Rows?
          && forall row | row in data[g.property].rows ::
               forall k | k in row :: k in Properties(g.fields) && row[k] != Undefined)
  }

  lemma NormalRowsAreKept(fields: seq<Field>, rows: seq<Data>)
    requires Distinct(Names(fields)) && Distinct(Properties(fields))
    requires forall row | row in rows :: forall k | k in row :: k in Properties(fields) && row[k] != Undefined
    ensures NormalRows(fields, rows) == rows
  {
    forall i | 0 <= i < |rows| ensures NormalRows(fields, rows)[i] == rows[i] {
      assert rows[i] in rows;
      RowRoundTrip(fields, rows[i]);
    }
  }

  /** A restart after any write resumes from exactly what was in memory, stamp included. */
  lemma RestartResumes(spec: Spec, raw: Data, data: Data, now: string)
    requires WellNamed(spec) && Resumable(spec, raw, data)
    ensures Projection(spec, UpdatedBody(spec, raw, data, now)) == data[UPDATED_AT := Scalar(now)]
  {
    hide Collect, WrittenGroup, ReadGroup, WriteRows, ReadRows, Projection, UpdatedBody;
    var stamped := data[UPDATED_AT := Scalar(now)];
    var before, after := Projection(spec, raw), Projection(spec, UpdatedBody(spec, raw, data, now));
    UpdateIsALens(spec, raw, data, now);
    ProjectionShows(spec, raw);
    ProjectionShows(spec, UpdatedBody(spec, raw, data, now));
    forall k ensures Get(after, k) == Get(stamped, k) {
      if k in Properties(spec.fields) {
        var i :| 0 <= i < |spec.fields| && Properties(spec.fields)[i] == k;
        assert spec.fields[i] in spec.fields;
        assert k in before ==> Get(stamped, k).Some?;
      } else if k in GroupProperties(spec.groups) {
        var i :| 0 <= i < |spec.groups| && GroupProperties(spec.groups)[i] == k;
        var g := spec.groups[i];
        assert g in spec.groups;
        if k in stamped {
          StampIsAField(spec, k);
          NormalRowsAreKept(g.fields, stamped[k].rows);
        }
      }
    }
    SameObjects(after, stamped);
  }

  lemma StampIsAField(spec: Spec, k: string)
    requires WellNamed(spec) && k in GroupProperties(spec.groups)
    ensures UPDATED_AT in Properties(spec.fields) ==> k != UPDATED_AT
  {
    var keys, n := Properties(spec.fields) + GroupProperties(spec.groups), |spec.fields|;
    var i :| 0 <= i < |spec.groups| && GroupProperties(spec.groups)[i] == k;
    assert keys[n + i] == k;
    if UPDATED_AT in Properties(spec.fields) {
      var j :| 0 <= j < n && Properties(spec.fields)[j] == UPDATED_AT;
      assert keys[j] == UPDATED_AT;
    }
  }

  lemma SameObjects(a: Data, b: Data)
    requires forall k :: Get(a, k) == Get(b, k)
    requires forall k | k in a :: a[k] != Undefined
    requires forall k | k in b :: b[k] != Undefined
    ensures a == b
  {
    forall k ensures (k in a <==> k in b) && (k in a ==> a[k] == b[k]) {
      assert Get(a, k) == Get(b, k);
    }
  }
}
