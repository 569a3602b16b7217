/**
 * The migration of elements cards between the four buckets and the flat list
 * (migrations/versions/0020_jdr_elements_freeform_category.py).
 */
module ElementsMigration {
  import opened Wrappers
  import opened PyText
  import opened Elements

  // ----- The two written forms ----------------------------------------------------------

  function RowJson(r: Row): Json {
    Dict(map["category" := Text(r.category), "name" := Text(r.name), "description" := Text(r.description)])
  }

  function PairJson(r: Row): Json {
    Dict(map["name" := Text(r.name), "description" := Text(r.description)])
  }

  function RowsJson(rows: seq<Row>): (r: seq<Json>)
    ensures |r| == |rows|
  {
    if rows == [] then [] else [RowJson(rows[0])] + RowsJson(rows[1..])
  }

  function PairsJson(rows: seq<Row>): (r: seq<Json>)
    ensures |r| == |rows|
  {
    if rows == [] then [] else [PairJson(rows[0])] + PairsJson(rows[1..])
  }

  /** The rows that go to bucket `b`, in order. */
  function Of(rows: seq<Row>, b: Bucket): seq<Row> {
    if rows == [] then []
    else if BucketOf(rows[0].category) == b then [rows[0]] + Of(rows[1..], b)
    else Of(rows[1..], b)
  }

  function FlatContent(rows: seq<Row>): Json {
    Dict(map["elements" := List(RowsJson(rows))])
  }

  function BucketContent(rows: seq<Row>): Json {
    Dict(map["npcs" := List(PairsJson(Of(rows, 0))), "locations" := List(PairsJson(Of(rows, 1))),
             "items" := List(PairsJson(Of(rows, 2))), "clues" := List(PairsJson(Of(rows, 3)))])
  }

  // ----- The two directions -------------------------------------------------------------

  /** What happens to one stored content. */
  datatype Outcome = Untouched | Written(content: Json) | Raised(crash: Crash)

  /** Decoding a JSON text, or None when it is malformed. */
  type Loads = string -> Option<Json>

  /** A text column comes back as a text, a JSON column already decoded. */
  function Load(content: Json, loads: Loads): Json {
    if content.Text? then (if loads(content.text).Some? then loads(content.text).value else Dict(map[]))
    else if content.Dict? then content
    else Dict(map[])
  }

  function Upgraded(content: Json, loads: Loads, repr: Repr): Outcome {
    var data := Load(content, loads);
    if !data.Dict? then Raised(NotADict)
    else if IsFlat(data.fields) then Untouched
    else
      var rows := FlattenTo(data.fields, 4, repr);
      if rows.Failure? then Raised(rows.error) else Written(FlatContent(rows.value))
  }

  function Downgraded(content: Json, loads: Loads, repr: Repr): Outcome {
    var data := Load(content, loads);
    if !data.Dict? then Raised(NotADict)
    else if !IsFlat(data.fields) then Untouched
    else Written(BucketContent(Collect(data.fields["elements"].items, InList(repr))))
  }

  function Stored(before: Json, o: Outcome): Json {
    if o.Written? then o.content else before
  }

  lemma {:induction false} RowsJsonAppend(a: seq<Row>, b: seq<Row>)
    ensures RowsJson(a + b) == RowsJson(a) + RowsJson(b)
  {
    if a == [] {
      assert a + b == b;
    } else {
      assert (a + b)[1..] == a[1..] + b;
      RowsJsonAppend(a[1..], b);
    }
  }

  lemma {:induction false} OfSnoc(rows: seq<Row>, r: Row, b: Bucket)
    ensures PairsJson(Of(rows + [r], b)) == PairsJson(Of(rows, b)) + (if BucketOf(r.category) == b then [PairJson(r)] else [])
  {
    if rows == [] {
      assert (rows + [r])[1..] == [];
    } else {
      assert (rows + [r])[1..] == rows[1..] + [r];
      OfSnoc(rows[1..], r, b);
    }
  }

  /** What an entry of bucket `b` is read as: a row under its label, if it is an object with a name. */
  lemma BucketRow(b: Bucket, entry: Json, repr: Repr)
    ensures InBucket(b, repr)(entry)
         == if entry.Dict? && Field(entry.fields, "name", repr) != ""
            then Some(Row(Label(b), Field(entry.fields, "name", repr), Field(entry.fields, "description", repr)))
            else None
  {
    LabelsAreStripped(b);
  }

  /** The entry the upgrade appends for an entry of bucket `b`, if any. */
  function FlatEntry(b: Bucket, entry: Json, repr: Repr): Option<Json> {
    if !entry.Dict? then None
    else
      var name := Field(entry.fields, "name", repr);
      if name == "" then None
      else Some(Dict(map["category" := Text(Label(b)), "name" := Text(name),
                         "description" := Text(Field(entry.fields, "description", repr))]))
  }

  lemma AppendsRow(b: Bucket, entry: Json, rows: seq<Row>, repr: Repr)
    ensures var w := FlatEntry(b, entry, repr);
            RowsJson(rows + Kept(InBucket(b, repr)(entry))) == if w.Some? then RowsJson(rows) + [w.value] else RowsJson(rows)
  {
    BucketRow(b, entry, repr);
    var next := InBucket(b, repr)(entry);
    RowsJsonAppend(rows, Kept(next));
    if next.Some? {
      assert Kept(next)[1..] == [];
    } else {
      assert rows + Kept(next) == rows;
    }
  }

  /** The rows one bucket contributes, as the migration writes them. */
  method FlattenBucket(b: Bucket, entries: seq<Json>, repr: Repr) returns (flat: seq<Json>)
    ensures flat == RowsJson(Collect(entries, InBucket(b, repr)))
  {
    flat := [];
    ghost var rows := [];
    for i := 0 to |entries|
      invariant rows == Collect(entries[..i], InBucket(b, repr)) && flat == RowsJson(rows)
    {
      CollectStep(entries, i, InBucket(b, repr));
      AppendsRow(b, entries[i], rows, repr);
      rows := rows + Kept(InBucket(b, repr)(entries[i]));
      var written := FlatEntry(b, entries[i], repr);
      if written.Some? {
        flat := flat + [written.value];
      }
    }
    assert entries[..|entries|] == entries;
  }

  method FlattenBuckets(fields: map<string, Json>, repr: Repr) returns (r: Result<seq<Json>, Crash>)
    ensures r.Success? ==> FlattenTo(fields, 4, repr).Success? && r.value == RowsJson(FlattenTo(fields, 4, repr).value)
    ensures r.Failure? ==> FlattenTo(fields, 4, repr) == Failure(r.error)
  {
    var flat: seq<Json> := [];
    ghost var rows: seq<Row> := [];
    for b := 0 to 4
      invariant FlattenTo(fields, b, repr) == Success(rows) && flat == RowsJson(rows)
    {
      var entries := Entries(Get(fields, Key(b)));
      if entries.Failure? {
        CrashSticks(fields, b + 1, 4, repr);
        return Failure(entries.error);
      }
      var more := FlattenBucket(b, entries.value, repr);
      ghost var group := Collect(entries.value, InBucket(b, repr));
      NextBucket(fields, b, rows, entries.value, group, repr);
      RowsJsonAppend(rows, group);
      rows := rows + group;
      flat := flat + more;
    }
    return Success(flat);
  }

  method UpgradeContent(content: Json, loads: Loads, repr: Repr) returns (o: Outcome)
    ensures o == Upgraded(content, loads, repr)
  {
    var data := Load(content, loads);
    if !data.Dict? { return Raised(NotADict); }
    if IsFlat(data.fields) { return Untouched; }
    var flat := FlattenBuckets(data.fields, repr);
    return if flat.Failure? then Raised(flat.error) else Written(Dict(map["elements" := List(flat.value)]));
  }

  /** What an entry of the flat list is read as. */
  lemma ListRow(entry: Json, repr: Repr)
    ensures var read := InList(repr)(entry);
            && (read.Some? <==> entry.Dict? && Field(entry.fields, "name", repr) != "")
            && (read.Some? ==>
                  && read.value.name == Field(entry.fields, "name", repr)
                  && read.value.description == Field(entry.fields, "description", repr)
                  && BucketOf(read.value.category) == BucketOf(Strip(RawCategory(entry, repr))))
  {}

  /** The bucket and the pair the downgrade files an entry of the list under, if any. */
  function Filed(entry: Json, repr: Repr): Option<(Bucket, Json)> {
    if !entry.Dict? then None
    else
      var name := Field(entry.fields, "name", repr);
      if name == "" then None
      else Some((BucketOf(Strip(RawCategory(entry, repr))),
                 Dict(map["name" := Text(name), "description" := Text(Field(entry.fields, "description", repr))])))
  }

  lemma FilesRow(entry: Json, rows: seq<Row>, b: Bucket, repr: Repr)
    ensures var filed := Filed(entry, repr);
            PairsJson(Of(rows + Kept(InList(repr)(entry)), b))
            == if filed.Some? && filed.value.0 == b then PairsJson(Of(rows, b)) + [filed.value.1] else PairsJson(Of(rows, b))
  {
    ListRow(entry, repr);
    var next := InList(repr)(entry);
    if next.Some? {
      OfSnoc(rows, next.value, b);
    } else {
      assert rows + Kept(next) == rows;
    }
  }

  ghost predicate Buckets(buckets: seq<seq<Json>>, rows: seq<Row>) {
    |buckets| == 4 && forall b: Bucket :: buckets[b] == PairsJson(Of(rows, b))
  }

  lemma FilesEntry(buckets: seq<seq<Json>>, entry: Json, rows: seq<Row>, repr: Repr)
    requires Buckets(buckets, rows)
    ensures var filed := Filed(entry, repr);
            Buckets(if filed.Some? then buckets[filed.value.0 := buckets[filed.value.0] + [filed.value.1]] else buckets,
                    rows + Kept(InList(repr)(entry)))
  {
    var filed := Filed(entry, repr);
    var after := if filed.Some? then buckets[filed.value.0 := buckets[filed.value.0] + [filed.value.1]] else buckets;
    forall b: Bucket ensures after[b] == PairsJson(Of(rows + Kept(InList(repr)(entry)), b)) {
      FilesRow(entry, rows, b, repr);
    }
  }

  /** Free-form categories that are no canonical label collapse into the clues. */
  method Regroup(elements: seq<Json>, repr: Repr) returns (buckets: seq<seq<Json>>)
    ensures Buckets(buckets, Collect(elements, InList(repr)))
  {
    buckets := [[], [], [], []];
    ghost var rows: seq<Row> := [];
    for i := 0 to |elements|
      invariant rows == Collect(elements[..i], InList(repr)) && Buckets(buckets, rows)
    {
      CollectStep(elements, i, InList(repr));
      FilesEntry(buckets, elements[i], rows, repr);
      rows := rows + Kept(InList(repr)(elements[i]));
      var filed := Filed(elements[i], repr);
      if filed.Some? {
        buckets := buckets[filed.value.0 := buckets[filed.value.0] + [filed.value.1]];
      }
    }
    assert elements[..|elements|] == elements;
  }

  method DowngradeContent(content: Json, loads: Loads, repr: Repr) returns (o: Outcome)
    ensures o == Downgraded(content, loads, repr)
  {
    var data := Load(content, loads);
    if !data.Dict? { return Raised(NotADict); }
    if !IsFlat(data.fields) { return Untouched; }
    var buckets := Regroup(data.fields["elements"].items, repr);
    return Written(Dict(map["npcs" := List(buckets[0]), "locations" := List(buckets[1]),
                            "items" := List(buckets[2]), "clues" := List(buckets[3])]));
  }

  // ----- Reading what was written -------------------------------------------------------

  lemma FieldReadsBack(fields: map<string, Json>, key: string, value: string, repr: Repr)
    requires key in fields && fields[key] == Text(value) && Stripped(value)
    ensures Field(fields, key, repr) == value
  {
    StripOfStripped(value);
  }

  lemma RowReadsBack(r: Row, repr: Repr)
    requires IsClean(r)
    ensures InList(repr)(RowJson(r)) == Some(r)
  {
    var fields := RowJson(r).fields;
    FieldReadsBack(fields, "category", r.category, repr);
    FieldReadsBack(fields, "name", r.name, repr);
    FieldReadsBack(fields, "description", r.description, repr);
    assert Strip(RawCategory(RowJson(r), repr)) == Field(fields, "category", repr);
  }

  lemma CollectCons(first: Json, rest: seq<Json>, read: Reader)
    ensures Collect([first] + rest, read) == Kept(read(first)) + Collect(rest, read)
  {
    assert ([first] + rest)[1..] == rest;
  }

  lemma {:induction false} RowsReadBack(rows: seq<Row>, repr: Repr)
    requires AllClean(rows)
    ensures Collect(RowsJson(rows), InList(repr)) == rows
  {
    if rows != [] {
      RowReadsBack(rows[0], repr);
      CollectCons(RowJson(rows[0]), RowsJson(rows[1..]), InList(repr));
      RowsReadBack(rows[1..], repr);
    }
  }

  lemma {:induction false} FlattenIsClean(fields: map<string, Json>, b: nat, repr: Repr)
    requires b <= 4 && FlattenTo(fields, b, repr).Success?
    ensures AllClean(FlattenTo(fields, b, repr).value)
  {
    if b > 0 {
      FlattenIsClean(fields, b - 1, repr);
      ReadersClean(b - 1, repr);
      CollectIsClean(Entries(Get(fields, Key(b - 1))).value, InBucket(b - 1, repr));
    }
  }

  /**
   * Reading commutes with the upgrade: whatever content is stored, decoded or as a text, the
   * card reads the same before and after, and the migration fails only where reading fails.
   */
  lemma {:induction false} ReadingCommutesWithUpgrade(content: Json, loads: Loads, repr: Repr)
    ensures var data := Load(content, loads); var o := Upgraded(content, loads, repr);
            && (o.Written? ==> Rows(o.content, repr) == Rows(data, repr))
            && (o.Raised? <==> !data.Dict? || Rows(data, repr).Failure?)
    ensures !content.Text? ==> Rows(Load(content, loads), repr) == Rows(content, repr)
  {
    var data := Load(content, loads);
    if data.Dict? && !IsFlat(data.fields) && FlattenTo(data.fields, 4, repr).Success? {
      FlattenIsClean(data.fields, 4, repr);
      RowsReadBack(FlattenTo(data.fields, 4, repr).value, repr);
    }
    if !content.Text? && !content.Dict? { EmptyFlattens(4, repr); }
  }

  lemma {:induction false} EmptyFlattens(b: nat, repr: Repr)
    requires b <= 4
    ensures FlattenTo(map[], b, repr) == Success([])
  {
    if b > 0 {
      EmptyFlattens(b - 1, repr);
      assert Entries(Get(map[], Key(b - 1))) == Success([]);
      assert [] + Collect([], InBucket(b - 1, repr)) == [];
    }
  }

  /** Upgrading again changes nothing. */
  lemma UpgradeIsIdempotent(content: Json, loads: Loads, repr: Repr)
    requires !Upgraded(content, loads, repr).Raised?
    ensures Upgraded(Stored(content, Upgraded(content, loads, repr)), loads, repr).Untouched?
  {}

  // ----- The downgrade is a stable regrouping -------------------------------------------

  function Relabelled(rows: seq<Row>, b: Bucket): (r: seq<Row>)
    ensures |r| == |rows|
    ensures forall i | 0 <= i < |rows| :: r[i] == rows[i].(category := Label(b))
  {
    if rows == [] then [] else [rows[0].(category := Label(b))] + Relabelled(rows[1..], b)
  }

  /** The rows of bucket `b`, in their order and under its label. */
  function Group(rows: seq<Row>, b: Bucket): seq<Row> {
    Relabelled(Of(rows, b), b)
  }

  function Regrouped(rows: seq<Row>): seq<Row> {
    Group(rows, 0) + Group(rows, 1) + Group(rows, 2) + Group(rows, 3)
  }

  lemma PairReadsBack(r: Row, b: Bucket, repr: Repr)
    requires IsClean(r)
    ensures InBucket(b, repr)(PairJson(r)) == Some(r.(category := Label(b)))
  {
    FieldReadsBack(PairJson(r).fields, "name", r.name, repr);
    FieldReadsBack(PairJson(r).fields, "description", r.description, repr);
    BucketRow(b, PairJson(r), repr);
  }

  lemma {:induction false} PairsReadBack(rows: seq<Row>, b: Bucket, repr: Repr)
    requires AllClean(rows)
    ensures Collect(PairsJson(rows), InBucket(b, repr)) == Relabelled(rows, b)
  {
    if rows != [] {
      PairReadsBack(rows[0], b, repr);
      assert PairsJson(rows)[1..] == PairsJson(rows[1..]);
      PairsReadBack(rows[1..], b, repr);
    }
  }

  lemma {:induction false} OfIsClean(rows: seq<Row>, b: Bucket)
    requires AllClean(rows)
    ensures AllClean(Of(rows, b))
  {
    if rows != [] { OfIsClean(rows[1..], b); }
  }

  lemma BucketField(rows: seq<Row>, b: Bucket)
    ensures Get(BucketContent(rows).fields, Key(b)) == Some(List(PairsJson(Of(rows, b))))
  {
    assert "items"[0] != "clues"[0];
  }

  lemma BucketEntries(rows: seq<Row>, b: Bucket)
    ensures Entries(Get(BucketContent(rows).fields, Key(b))) == Success(PairsJson(Of(rows, b)))
  {
    BucketField(rows, b);
  }

  lemma BucketReads(rows: seq<Row>, b: Bucket, repr: Repr)
    requires AllClean(rows)
    ensures Collect(PairsJson(Of(rows, b)), InBucket(b, repr)) == Group(rows, b)
  {
    OfIsClean(rows, b);
    PairsReadBack(Of(rows, b), b, repr);
  }

  lemma BucketsRead(rows: seq<Row>, repr: Repr)
    requires AllClean(rows)
    ensures FlattenTo(BucketContent(rows).fields, 4, repr) == Success(Regrouped(rows))
  {
    var fields := BucketContent(rows).fields;
    var before: seq<Row> := [];
    for b := 0 to 4
      invariant FlattenTo(fields, b, repr) == Success(before)
      invariant b == 0 ==> before == []
      invariant b == 1 ==> before == Group(rows, 0)
      invariant b == 2 ==> before == Group(rows, 0) + Group(rows, 1)
      invariant b == 3 ==> before == Group(rows, 0) + Group(rows, 1) + Group(rows, 2)
      invariant b == 4 ==> before == Regrouped(rows)
    {
      BucketEntries(rows, b);
      BucketReads(rows, b, repr);
      NextBucket(fields, b, before, PairsJson(Of(rows, b)), Group(rows, b), repr);
      before := before + Group(rows, b);
    }
  }

  /** What a reader sees after a downgrade is what it saw before, regrouped. */
  lemma {:induction false} DowngradeIsRegrouping(content: Json, loads: Loads, repr: Repr)
    requires Downgraded(content, loads, repr).Written?
    ensures var rows := Rows(Load(content, loads), repr);
            rows.Success? && Rows(Downgraded(content, loads, repr).content, repr) == Success(Regrouped(rows.value))
  {
    var rows := Collect(Load(content, loads).fields["elements"].items, InList(repr));
    ReadersClean(0, repr);
    CollectIsClean(Load(content, loads).fields["elements"].items, InList(repr));
    BucketsRead(rows, repr);
  }

  /** What a stored content stands for: an object itself, a text what it decodes to. */
  predicate StandsFor(content: Json, loads: Loads, data: Json) {
    (content.Text? && loads(content.text) == Some(data)) || (content.Dict? && data == content)
  }

  /**
   * Whichever way a card is stored, the upgrade and the downgrade raise, leave or rewrite it by
   * what it stands for: the upgrade writes a card that reads the same, the downgrade one that
   * reads regrouped.
   */
  lemma {:induction false} MigratesWhatItStandsFor(content: Json, loads: Loads, repr: Repr, data: Json)
    requires StandsFor(content, loads, data)
    ensures var up := Upgraded(content, loads, repr);
            && (up.Raised? <==> !data.Dict? || Rows(data, repr).Failure?)
            && (up.Untouched? <==> data.Dict? && "elements" in data.fields && data.fields["elements"].List?)
            && (up.Written? ==> Rows(up.content, repr) == Rows(data, repr))
    ensures var down := Downgraded(content, loads, repr);
            && (down.Raised? <==> !data.Dict?)
            && (down.Written? <==> data.Dict? && "elements" in data.fields && data.fields["elements"].List?)
            && (down.Written? ==> Rows(data, repr).Success?
                                  && Rows(down.content, repr) == Success(Regrouped(Rows(data, repr).value)))
  {
    assert Load(content, loads) == if content.Text? || data.Dict? then data else Dict(map[]);
    ReadingCommutesWithUpgrade(content, loads, repr);
    if Downgraded(content, loads, repr).Written? { DowngradeIsRegrouping(content, loads, repr); }
  }

  /** A text that does not decode, or a value that is neither text nor object, becomes the empty card. */
  lemma UnreadableBecomesEmpty(content: Json, loads: Loads, repr: Repr)
    requires if content.Text? then loads(content.text).None? else !content.Dict?
    ensures Upgraded(content, loads, repr) == Written(Dict(map["elements" := List([])]))
    ensures Downgraded(content, loads, repr) == Untouched
  {
    EmptyFlattens(4, repr);
  }

  /** One row of a card goes back under its own label, and one of a custom category under the last one. */
  lemma RegroupedRow(r: Row)
    ensures Regrouped([r])
         == [r.(category := if r.category in ["PNJ", "Lieux", "Objets"] then r.category else "Indices")]
  {
    GroupOfOne(r, 0);
    GroupOfOne(r, 1);
    GroupOfOne(r, 2);
    GroupOfOne(r, 3);
  }

  lemma GroupOfOne(r: Row, b: Bucket)
    ensures Group([r], b) == if BucketOf(r.category) == b then [r.(category := Label(b))] else []
  {
    assert [r][1..] == [] && Of([], b) == [];
  }

  function Pairs(rows: seq<Row>): (r: seq<(string, string)>)
    ensures |r| == |rows|
  {
    if rows == [] then [] else [(rows[0].name, rows[0].description)] + Pairs(rows[1..])
  }

  lemma {:induction false} PairsAppend(a: seq<Row>, b: seq<Row>)
    ensures Pairs(a + b) == Pairs(a) + Pairs(b)
  {
    if a == [] {
      assert a + b == b;
    } else {
      assert (a + b)[1..] == a[1..] + b;
      PairsAppend(a[1..], b);
    }
  }

  lemma {:induction false} RelabelledPairs(rows: seq<Row>, b: Bucket)
    ensures Pairs(Relabelled(rows, b)) == Pairs(rows)
  {
    if rows != [] {
      assert Relabelled(rows, b)[1..] == Relabelled(rows[1..], b);
      RelabelledPairs(rows[1..], b);
    }
  }

  /** The multiset of the pairs in bucket `b`. */
  function Bag(rows: seq<Row>, b: Bucket): multiset<(string, string)> {
    multiset(Pairs(Of(rows, b)))
  }

  lemma BagStep(rows: seq<Row>, b: Bucket)
    requires rows != []
    ensures Bag(rows, b)
         == (if BucketOf(rows[0].category) == b then multiset{(rows[0].name, rows[0].description)} else multiset{}) + Bag(rows[1..], b)
  {
    if BucketOf(rows[0].category) == b {
      assert Of(rows, b)[1..] == Of(rows[1..], b);
    }
  }

  type Pair = (string, string)

  lemma OneBagGrows(x: Pair, b: Bucket, m0: multiset<Pair>, m1: multiset<Pair>, m2: multiset<Pair>, m3: multiset<Pair>)
    ensures (if b == 0 then multiset{x} else multiset{}) + m0 + ((if b == 1 then multiset{x} else multiset{}) + m1)
            + ((if b == 2 then multiset{x} else multiset{}) + m2) + ((if b == 3 then multiset{x} else multiset{}) + m3)
         == multiset{x} + (m0 + m1 + m2 + m3)
  {}

  lemma {:induction false} BagsAdd(rows: seq<Row>)
    ensures Bag(rows, 0) + Bag(rows, 1) + Bag(rows, 2) + Bag(rows, 3) == multiset(Pairs(rows))
  {
    if rows != [] {
      var rest := rows[1..];
      BagsAdd(rest);
      BagStep(rows, 0);
      BagStep(rows, 1);
      BagStep(rows, 2);
      BagStep(rows, 3);
      var first := (rows[0].name, rows[0].description);
      OneBagGrows(first, BucketOf(rows[0].category), Bag(rest, 0), Bag(rest, 1), Bag(rest, 2), Bag(rest, 3));
      assert Pairs(rows) == [first] + Pairs(rest);
    }
  }

  /** No card entry is lost or made up, even under custom categories. */
  lemma {:induction false} RegroupingKeepsPairs(rows: seq<Row>)
    ensures multiset(Pairs(Regrouped(rows))) == multiset(Pairs(rows))
  {
    PairsAppend(Group(rows, 0) + Group(rows, 1) + Group(rows, 2), Group(rows, 3));
    PairsAppend(Group(rows, 0) + Group(rows, 1), Group(rows, 2));
    PairsAppend(Group(rows, 0), Group(rows, 1));
    RelabelledPairs(Of(rows, 0), 0);
    RelabelledPairs(Of(rows, 1), 1);
    RelabelledPairs(Of(rows, 2), 2);
    RelabelledPairs(Of(rows, 3), 3);
    BagsAdd(rows);
  }

  // ----- Up, down and up again ----------------------------------------------------------

  predicate Sorted(rows: seq<Row>) {
    forall i, k | 0 <= i < k < |rows| :: BucketOf(rows[i].category) <= BucketOf(rows[k].category)
  }

  predicate Labelled(rows: seq<Row>) {
    forall i | 0 <= i < |rows| :: IsLabel(rows[i].category)
  }

  /** Clean rows under canonical labels, in bucket order: what the upgrade writes. */
  predicate Tidy(rows: seq<Row>) {
    AllClean(rows) && Sorted(rows) && Labelled(rows)
  }

  lemma {:induction false} OfIsEmpty(rows: seq<Row>, b: Bucket)
    requires forall i | 0 <= i < |rows| :: BucketOf(rows[i].category) != b
    ensures Of(rows, b) == []
  {
    if rows != [] { OfIsEmpty(rows[1..], b); }
  }

  lemma GroupStep(rows: seq<Row>, b: Bucket)
    requires rows != [] && Sorted(rows) && Labelled(rows)
    ensures BucketOf(rows[0].category) == b ==> Group(rows, b) == [rows[0]] + Group(rows[1..], b)
    ensures BucketOf(rows[0].category) != b ==> Group(rows, b) == Group(rows[1..], b)
    ensures b < BucketOf(rows[0].category) ==> Group(rows[1..], b) == []
  {
    if BucketOf(rows[0].category) == b {
      assert Of(rows, b)[1..] == Of(rows[1..], b);
    } else if b < BucketOf(rows[0].category) {
      OfIsEmpty(rows[1..], b);
    }
  }

  /** A row in front of groups none of which comes before its own. */
  lemma InFront(r: Row, b: Bucket, g0: seq<Row>, g1: seq<Row>, g2: seq<Row>, g3: seq<Row>)
    requires (b > 0 ==> g0 == []) && (b > 1 ==> g1 == []) && (b > 2 ==> g2 == [])
    ensures [r] + (g0 + g1 + g2 + g3)
         == (if b == 0 then [r] + g0 else g0) + (if b == 1 then [r] + g1 else g1)
            + (if b == 2 then [r] + g2 else g2) + (if b == 3 then [r] + g3 else g3)
  {}

  lemma {:induction false} TidyStays(rows: seq<Row>)
    requires Sorted(rows) && Labelled(rows)
    ensures Regrouped(rows) == rows
  {
    if rows != [] {
      TidyStays(rows[1..]);
      GroupStep(rows, 0);
      GroupStep(rows, 1);
      GroupStep(rows, 2);
      GroupStep(rows, 3);
      var rest := rows[1..];
      InFront(rows[0], BucketOf(rows[0].category), Group(rest, 0), Group(rest, 1), Group(rest, 2), Group(rest, 3));
    }
  }

  lemma SortedAppend(a: seq<Row>, more: seq<Row>, b: Bucket)
    requires Sorted(a) && Labelled(a) && forall i | 0 <= i < |a| :: BucketOf(a[i].category) < b
    requires forall i | 0 <= i < |more| :: more[i].category == Label(b)
    ensures Sorted(a + more) && Labelled(a + more) && forall i | 0 <= i < |a + more| :: BucketOf((a + more)[i].category) < b + 1
  {
    LabelsAreStripped(b);
    forall i | 0 <= i < |more| ensures BucketOf(more[i].category) == b && IsLabel(more[i].category) {}
  }

  lemma {:induction false} FlattenIsSorted(fields: map<string, Json>, b: nat, repr: Repr)
    requires b <= 4 && FlattenTo(fields, b, repr).Success?
    ensures var rows := FlattenTo(fields, b, repr).value;
            Sorted(rows) && Labelled(rows) && forall i | 0 <= i < |rows| :: BucketOf(rows[i].category) < b
  {
    if b > 0 {
      FlattenSplits(fields, b, repr);
      FlattenIsSorted(fields, b - 1, repr);
      var entries := Entries(Get(fields, Key(b - 1))).value;
      CollectLabels(entries, b - 1, repr);
      SortedAppend(FlattenTo(fields, b - 1, repr).value, Collect(entries, InBucket(b - 1, repr)), b - 1);
    }
  }

  lemma UpgradeIsTidy(fields: map<string, Json>, repr: Repr)
    requires FlattenTo(fields, 4, repr).Success?
    ensures Tidy(FlattenTo(fields, 4, repr).value)
  {
    FlattenIsClean(fields, 4, repr);
    FlattenIsSorted(fields, 4, repr);
  }

  function Up(content: Json, loads: Loads, repr: Repr): Json {
    Stored(content, Upgraded(content, loads, repr))
  }

  function Down(content: Json, loads: Loads, repr: Repr): Json {
    Stored(content, Downgraded(content, loads, repr))
  }

  lemma DownThenUp(fields: map<string, Json>, loads: Loads, repr: Repr)
    requires IsFlat(fields)
    ensures var rows := Collect(fields["elements"].items, InList(repr));
            AllClean(rows) && Up(Down(Dict(fields), loads, repr), loads, repr) == FlatContent(Regrouped(rows))
    ensures Tidy(Regrouped(Collect(fields["elements"].items, InList(repr))))
  {
    var rows := Collect(fields["elements"].items, InList(repr));
    ReadersClean(0, repr);
    CollectIsClean(fields["elements"].items, InList(repr));
    BucketsRead(rows, repr);
    UpgradeIsTidy(BucketContent(rows).fields, repr);
  }

  /** What the upgrade wrote survives a downgrade followed by an upgrade. */
  lemma {:induction false} TidyRoundTrip(rows: seq<Row>, loads: Loads, repr: Repr)
    requires Tidy(rows)
    ensures Up(Down(FlatContent(rows), loads, repr), loads, repr) == FlatContent(rows)
  {
    DownThenUp(FlatContent(rows).fields, loads, repr);
    RowsReadBack(rows, repr);
    TidyStays(rows);
  }

  /** An entry exactly as the upgrade writes it. */
  predicate TidyEntry(e: Json) {
    && e.Dict? && e.fields.Keys == {"category", "name", "description"}
    && e.fields["category"].Text? && IsLabel(e.fields["category"].text)
    && e.fields["name"].Text? && e.fields["name"].text != "" && Stripped(e.fields["name"].text)
    && e.fields["description"].Text? && Stripped(e.fields["description"].text)
  }

  /** A flat content exactly as the upgrade writes it. */
  predicate TidyContent(fields: map<string, Json>) {
    && fields.Keys == {"elements"} && fields["elements"].List?
    && var items := fields["elements"].items;
       && (forall i | 0 <= i < |items| :: TidyEntry(items[i]))
       && forall i, k | 0 <= i < k < |items| ::
            BucketOf(items[i].fields["category"].text) <= BucketOf(items[k].fields["category"].text)
  }

  function RowOf(e: Json): Row
    requires TidyEntry(e)
  {
    Row(e.fields["category"].text, e.fields["name"].text, e.fields["description"].text)
  }

  lemma EntryIsRow(e: Json)
    requires TidyEntry(e)
    ensures RowJson(RowOf(e)) == e && IsClean(RowOf(e))
  {
    LabelsAreStripped(BucketOf(e.fields["category"].text));
    assert RowJson(RowOf(e)).fields == e.fields;
  }

  lemma RowIsEntry(r: Row)
    requires IsClean(r) && IsLabel(r.category)
    ensures TidyEntry(RowJson(r)) && RowJson(r).fields["category"].text == r.category
  {}

  lemma {:induction false} RowsJsonAt(rows: seq<Row>, i: nat)
    requires i < |rows|
    ensures RowsJson(rows)[i] == RowJson(rows[i])
  {
    if i > 0 { RowsJsonAt(rows[1..], i - 1); }
  }

  lemma TidyRowsAreTidyContent(rows: seq<Row>)
    requires Tidy(rows)
    ensures TidyContent(FlatContent(rows).fields)
  {
    var items := RowsJson(rows);
    forall i | 0 <= i < |items| ensures TidyEntry(items[i]) && items[i].fields["category"].text == rows[i].category {
      RowsJsonAt(rows, i);
      RowIsEntry(rows[i]);
    }
  }

  lemma TidyContentIsTidyRows(fields: map<string, Json>) returns (rows: seq<Row>)
    requires TidyContent(fields)
    ensures Tidy(rows) && Dict(fields) == FlatContent(rows)
  {
    var items := fields["elements"].items;
    rows := seq(|items|, i requires 0 <= i < |items| => if TidyEntry(items[i]) then RowOf(items[i]) else Row("", "", ""));
    forall i | 0 <= i < |items| ensures RowsJson(rows)[i] == items[i] && IsClean(rows[i]) {
      EntryIsRow(items[i]);
      RowsJsonAt(rows, i);
    }
    assert RowsJson(rows) == items;
    assert fields == FlatContent(rows).fields;
  }

  lemma {:induction false} UpDownUpOfObject(fields: map<string, Json>, loads: Loads, repr: Repr)
    requires !Upgraded(Dict(fields), loads, repr).Raised?
    ensures var up := Up(Dict(fields), loads, repr);
            Up(Down(up, loads, repr), loads, repr) == up <==> !IsFlat(fields) || TidyContent(fields)
  {
    if !IsFlat(fields) {
      UpgradeIsTidy(fields, repr);
      TidyRoundTrip(FlattenTo(fields, 4, repr).value, loads, repr);
    } else if TidyContent(fields) {
      var rows := TidyContentIsTidyRows(fields);
      TidyRoundTrip(rows, loads, repr);
    } else {
      DownThenUp(fields, loads, repr);
      TidyRowsAreTidyContent(Regrouped(Collect(fields["elements"].items, InList(repr))));
    }
  }

  /** What a stored content is migrated to depends only on what it decodes to. */
  lemma MigratesAsDecoded(content: Json, loads: Loads, repr: Repr)
    requires Load(content, loads).Dict?
    ensures Upgraded(content, loads, repr) == Upgraded(Load(content, loads), loads, repr)
    ensures Downgraded(content, loads, repr) == Downgraded(Load(content, loads), loads, repr)
  {}

  /**
   * Up, down and up again reads back as up does, exactly when the content, decoded or as a
   * text, was in the four buckets, or was flat and already just as the upgrade writes it.
   */
  lemma {:induction false} UpDownUpIff(content: Json, loads: Loads, repr: Repr)
    requires !Upgraded(content, loads, repr).Raised?
    ensures var data := Load(content, loads); var up := Up(content, loads, repr);
            && data.Dict?
            && (Load(Up(Down(up, loads, repr), loads, repr), loads) == Load(up, loads)
                <==> !IsFlat(data.fields) || TidyContent(data.fields))
  {
    var data := Load(content, loads);
    MigratesAsDecoded(content, loads, repr);
    UpDownUpOfObject(data.fields, loads, repr);
    if IsFlat(data.fields) { DownThenUp(data.fields, loads, repr); }
  }

  /** A card filed under a category of its own does not survive: it comes back as a clue. */
  lemma {:induction false} CustomCategoryIsLost(loads: Loads, repr: Repr)
    ensures var card := FlatContent([Row("Factions", "Guild", "")]);
            Up(Down(Up(card, loads, repr), loads, repr), loads, repr) != Up(card, loads, repr)
  {
    var card := FlatContent([Row("Factions", "Guild", "")]);
    RowsJsonAt([Row("Factions", "Guild", "")], 0);
    assert !TidyEntry(card.fields["elements"].items[0]);
    UpDownUpOfObject(card.fields, loads, repr);
  }

  // ----- The table ----------------------------------------------------------------------

  /** What a migration does to one content. */
  type Migration = Json -> Outcome

  function Upgrading(loads: Loads, repr: Repr): Migration {
    content => Upgraded(content, loads, repr)
  }

  function Downgrading(loads: Loads, repr: Repr): Migration {
    content => Downgraded(content, loads, repr)
  }

  /** The first `n` contents are migrated, the others are as before. */
  ghost predicate Migrated(before: seq<Json>, after: seq<Json>, n: nat, migration: Migration) {
    && |after| == |before|
    && (forall i | 0 <= i < n <= |before| :: !migration(before[i]).Raised? && after[i] == Stored(before[i], migration(before[i])))
    && (forall i | n <= i < |before| :: after[i] == before[i])
  }

  ghost predicate Raises(contents: seq<Json>, migration: Migration) {
    exists i | 0 <= i < |contents| :: migration(contents[i]).Raised?
  }

  lemma OneMoreMigrated(before: seq<Json>, pending: seq<Json>, n: nat, migration: Migration)
    requires n < |before| && Migrated(before, pending, n, migration)
    ensures migration(before[n]).Raised? ==> Raises(before, migration)
    ensures migration(before[n]).Untouched? ==> Migrated(before, pending, n + 1, migration)
    ensures migration(before[n]).Written? ==> Migrated(before, pending[n := migration(before[n]).content], n + 1, migration)
  {}

  /** The contents of all elements rows; a migration is one transaction. */
  class ElementsTable {
    var contents: seq<Json>

    constructor (contents: seq<Json>)
      ensures this.contents == contents
    {
      this.contents := contents;
    }

    method Upgrade(loads: Loads, repr: Repr) returns (crash: Option<Crash>)
      modifies this
      ensures crash.None? ==> Migrated(old(contents), contents, |contents|, Upgrading(loads, repr))
      ensures crash.Some? ==> contents == old(contents) && Raises(contents, Upgrading(loads, repr))
    {
      var rows, pending := contents, contents;
      ghost var migration := Upgrading(loads, repr);
      for i := 0 to |rows|
        invariant Migrated(rows, pending, i, migration) && contents == rows
      {
        var o := UpgradeContent(rows[i], loads, repr);
        assert o == migration(rows[i]);
        OneMoreMigrated(rows, pending, i, migration);
        if o.Raised? {
          return Some(o.crash);
        }
        if o.Written? {
          pending := pending[i := o.content];
        }
      }
      contents := pending;
      return None;
    }

    method Downgrade(loads: Loads, repr: Repr) returns (crash: Option<Crash>)
      modifies this
      ensures crash.None? ==> Migrated(old(contents), contents, |contents|, Downgrading(loads, repr))
      ensures crash.Some? ==> contents == old(contents) && Raises(contents, Downgrading(loads, repr))
    {
      var rows, pending := contents, contents;
      ghost var migration := Downgrading(loads, repr);
      for i := 0 to |rows|
        invariant Migrated(rows, pending, i, migration) && contents == rows
      {
        var o := DowngradeContent(rows[i], loads, repr);
        assert o == migration(rows[i]);
        OneMoreMigrated(rows, pending, i, migration);
        if o.Raised? {
          return Some(o.crash);
        }
        if o.Written? {
          pending := pending[i := o.content];
        }
      }
      contents := pending;
      return None;
    }
  }
}
