/** Reading an elements card in its flat and its four-bucket form (app/services/jdr/elements.py). */
module Elements {
  import opened Wrappers
  import opened PyText

  // ----- JSON ---------------------------------------------------------------------------

  datatype Json = Null | Bool(b: bool) | Number(n: real) | Text(text: string) | List(items: seq<Json>)
      | Dict(fields: map<string, Json>)

  /** `str()` of what is not a text is left to `repr`. */
  type Repr = Json -> string

  function Str(v: Json, repr: Repr): string {
    if v.Text? then v.text else repr(v)
  }

  function Field(entry: map<string, Json>, key: string, repr: Repr): string {
    if key in entry then Strip(Str(entry[key], repr)) else ""
  }

  /** Looping over a number or a boolean. */
  datatype Crash = NotIterable | NotADict

  /**
   * What `for entry in value or []` runs over, up to entries that are not objects: the keys of
   * an object and the characters of a text are texts.
   */
  function Entries(value: Option<Json>): Result<seq<Json>, Crash> {
    if value.None? then Success([])
    else
      match value.value
      case List(items) => Success(items)
      case Bool(b) => if b then Failure(NotIterable) else Success([])
      case Number(n) => if n != 0.0 then Failure(NotIterable) else Success([])
      case _ => Success([])
  }

  function Get(fields: map<string, Json>, key: string): Option<Json> {
    if key in fields then Some(fields[key]) else None
  }

  // ----- Buckets ------------------------------------------------------------------------

  type Bucket = n: nat | n < 4

  const DEFAULT_CATEGORY := "Autres"

  function Key(b: Bucket): string {
    if b == 0 then "npcs" else if b == 1 then "locations" else if b == 2 then "items" else "clues"
  }

  function Label(b: Bucket): string {
    if b == 0 then "PNJ" else if b == 1 then "Lieux" else if b == 2 then "Objets" else "Indices"
  }

  /** Categories that are no canonical label go to the clues. */
  function BucketOf(category: string): Bucket {
    if category == "PNJ" then 0 else if category == "Lieux" then 1 else if category == "Objets" then 2 else 3
  }

  predicate IsLabel(category: string) {
    category == Label(BucketOf(category))
  }

  // ----- Rows ---------------------------------------------------------------------------

  datatype Row = Row(category: string, name: string, description: string)

  function CleanRow(category: string, entry: Json, repr: Repr): Option<Row> {
    if !entry.Dict? then None
    else
      var name := Field(entry.fields, "name", repr);
      if name == "" then None
      else
        var trimmed := Strip(category);
        Some(Row(if trimmed != "" then trimmed else DEFAULT_CATEGORY, name, Field(entry.fields, "description", repr)))
  }

  function RawCategory(entry: Json, repr: Repr): string {
    if entry.Dict? && "category" in entry.fields then Str(entry.fields["category"], repr) else ""
  }

  function FlatRow(entry: Json, repr: Repr): Option<Row> {
    CleanRow(RawCategory(entry, repr), entry, repr)
  }

  /** What reading one entry comes to. */
  type Reader = Json -> Option<Row>

  function InBucket(b: Bucket, repr: Repr): Reader {
    entry => CleanRow(Label(b), entry, repr)
  }

  function InList(repr: Repr): Reader {
    entry => FlatRow(entry, repr)
  }

  function Kept(row: Option<Row>): seq<Row> {
    if row.Some? then [row.value] else []
  }

  function Collect(entries: seq<Json>, read: Reader): seq<Row> {
    if entries == [] then [] else Kept(read(entries[0])) + Collect(entries[1..], read)
  }

  /** The rows of the buckets before `b`. */
  function FlattenTo(fields: map<string, Json>, b: nat, repr: Repr): Result<seq<Row>, Crash>
    requires b <= 4
  {
    if b == 0 then Success([])
    else
      var before := FlattenTo(fields, b - 1, repr);
      var entries := Entries(Get(fields, Key(b - 1)));
      if before.Failure? then before
      else if entries.Failure? then Failure(entries.error)
      else Success(before.value + Collect(entries.value, InBucket(b - 1, repr)))
  }

  predicate IsFlat(fields: map<string, Json>) {
    "elements" in fields && fields["elements"].List?
  }

  /** A content as a list of rows, whichever form it has. */
  function Rows(content: Json, repr: Repr): Result<seq<Row>, Crash> {
    if !content.Dict? then Success([])
    else if IsFlat(content.fields) then Success(Collect(content.fields["elements"].items, InList(repr)))
    else FlattenTo(content.fields, 4, repr)
  }

  lemma {:induction false} CollectSnoc(entries: seq<Json>, next: Json, read: Reader)
    ensures Collect(entries + [next], read) == Collect(entries, read) + Kept(read(next))
  {
    if entries == [] {
      assert (entries + [next])[1..] == [];
    } else {
      assert (entries + [next])[1..] == entries[1..] + [next];
      CollectSnoc(entries[1..], next, read);
    }
  }

  lemma CollectStep(entries: seq<Json>, i: nat, read: Reader)
    requires i < |entries|
    ensures Collect(entries[..i + 1], read) == Collect(entries[..i], read) + Kept(read(entries[i]))
  {
    assert entries[..i + 1] == entries[..i] + [entries[i]];
    CollectSnoc(entries[..i], entries[i], read);
  }

  lemma {:induction false} CrashSticks(fields: map<string, Json>, b: nat, c: nat, repr: Repr)
    requires b <= c <= 4 && FlattenTo(fields, b, repr).Failure?
    ensures FlattenTo(fields, c, repr) == FlattenTo(fields, b, repr)
  {
    if b < c { CrashSticks(fields, b, c - 1, repr); }
  }

  /** The rows of the buckets before `b`, and how the last of these adds to them. */
  lemma FlattenSplits(fields: map<string, Json>, b: nat, repr: Repr)
    requires 0 < b <= 4 && FlattenTo(fields, b, repr).Success?
    ensures FlattenTo(fields, b - 1, repr).Success? && Entries(Get(fields, Key(b - 1))).Success?
    ensures FlattenTo(fields, b, repr).value
         == FlattenTo(fields, b - 1, repr).value + Collect(Entries(Get(fields, Key(b - 1))).value, InBucket(b - 1, repr))
  {}

  method CollectRows(entries: seq<Json>, read: Reader) returns (rows: seq<Row>)
    ensures rows == Collect(entries, read)
  {
    rows := [];
    for i := 0 to |entries|
      invariant rows == Collect(entries[..i], read)
    {
      CollectStep(entries, i, read);
      var row := read(entries[i]);
      if row.Some? {
        rows := rows + [row.value];
      }
    }
    assert entries[..|entries|] == entries;
  }

  method FlattenElements(fields: map<string, Json>, repr: Repr) returns (r: Result<seq<Row>, Crash>)
    ensures r == FlattenTo(fields, 4, repr)
  {
    var rows: seq<Row> := [];
    for b := 0 to 4
      invariant FlattenTo(fields, b, repr) == Success(rows)
    {
      var entries := Entries(Get(fields, Key(b)));
      if entries.Failure? {
        CrashSticks(fields, b + 1, 4, repr);
        return Failure(entries.error);
      }
      var more := CollectRows(entries.value, InBucket(b, repr));
      rows := rows + more;
    }
    return Success(rows);
  }

  method ElementsFromContent(content: Json, repr: Repr) returns (r: Result<seq<Row>, Crash>)
    ensures r == Rows(content, repr)
  {
    if !content.Dict? {
      return Success([]);
    }
    if IsFlat(content.fields) {
      var rows := CollectRows(content.fields["elements"].items, InList(repr));
      return Success(rows);
    }
    r := FlattenElements(content.fields, repr);
  }

  // ----- What is read -------------------------------------------------------------------

  /** What `str(entry.get(key, "")).strip()` is for this entry. */
  ghost predicate ReadsAs(fields: map<string, Json>, key: string, repr: Repr, text: string) {
    if key !in fields then text == ""
    else if fields[key].Text? then text == Strip(fields[key].text)
    else text == Strip(repr(fields[key]))
  }

  lemma FieldReadsAs(fields: map<string, Json>, key: string, repr: Repr, text: string)
    requires ReadsAs(fields, key, repr, text)
    ensures Field(fields, key, repr) == text && Stripped(text)
  {
    assert Strip("") == "";
  }

  lemma CollectOne(entry: Json, read: Reader)
    ensures Collect([entry], read) == Kept(read(entry))
  {
    assert [entry][1..] == [] && Collect([], read) == [];
  }

  /** An entry of the flat list gives a row exactly if it is an object with a name; blank categories become "Autres". */
  lemma ListedEntryReads(entry: Json, repr: Repr, category: string, name: string, description: string)
    requires entry.Dict? && ReadsAs(entry.fields, "category", repr, category)
    requires ReadsAs(entry.fields, "name", repr, name) && ReadsAs(entry.fields, "description", repr, description)
    ensures Rows(Dict(map["elements" := List([entry])]), repr)
         == Success(if name == "" then [] else [Row(if category == "" then "Autres" else category, name, description)])
  {
    FieldReadsAs(entry.fields, "category", repr, category);
    FieldReadsAs(entry.fields, "name", repr, name);
    FieldReadsAs(entry.fields, "description", repr, description);
    assert Strip(RawCategory(entry, repr)) == category by { assert Strip("") == ""; }
    CollectOne(entry, InList(repr));
    assert InList(repr)(entry) == FlatRow(entry, repr);
  }

  lemma NextBucket(fields: map<string, Json>, b: Bucket, before: seq<Row>, entries: seq<Json>, group: seq<Row>,
      repr: Repr)
    requires FlattenTo(fields, b, repr) == Success(before)
    requires Entries(Get(fields, Key(b))) == Success(entries) && Collect(entries, InBucket(b, repr)) == group
    ensures FlattenTo(fields, b + 1, repr) == Success(before + group)
  {}

  /** Bucket `b` of the card holds one entry, of this name. */
  predicate Holds(fields: map<string, Json>, b: Bucket, name: string) {
    Get(fields, Key(b)) == Some(Named(name)) && name != "" && Stripped(name)
  }

  lemma HeldEntries(fields: map<string, Json>, b: Bucket, name: string)
    requires Holds(fields, b, name)
    ensures Entries(Get(fields, Key(b))) == Success(Named(name).items)
  {}

  lemma BucketRows(fields: map<string, Json>, b: Bucket, before: seq<Row>, name: string, repr: Repr)
    requires FlattenTo(fields, b, repr) == Success(before) && Holds(fields, b, name)
    ensures FlattenTo(fields, b + 1, repr) == Success(before + [Row(Label(b), name, "")])
  {
    NamedReads(b, name, repr);
    HeldEntries(fields, b, name);
    NextBucket(fields, b, before, Named(name).items, [Row(Label(b), name, "")], repr);
  }

  lemma FourRows(fields: map<string, Json>, n0: string, n1: string, n2: string, n3: string, repr: Repr)
    requires Holds(fields, 0, n0) && Holds(fields, 1, n1) && Holds(fields, 2, n2) && Holds(fields, 3, n3)
    ensures FlattenTo(fields, 4, repr)
         == Success([] + [Row(Label(0), n0, "")] + [Row(Label(1), n1, "")] + [Row(Label(2), n2, "")] + [Row(Label(3), n3, "")])
  {
    var r0, r1, r2 := Row(Label(0), n0, ""), Row(Label(1), n1, ""), Row(Label(2), n2, "");
    BucketRows(fields, 0, [], n0, repr);
    BucketRows(fields, 1, [] + [r0], n1, repr);
    BucketRows(fields, 2, [] + [r0] + [r1], n2, repr);
    BucketRows(fields, 3, [] + [r0] + [r1] + [r2], n3, repr);
  }

  /** The entries of the four buckets are read under their labels, in this order. */
  lemma BucketLabels(fields: map<string, Json>, n0: string, n1: string, n2: string, n3: string, repr: Repr)
    requires Get(fields, "npcs") == Some(Named(n0)) && Get(fields, "locations") == Some(Named(n1))
    requires Get(fields, "items") == Some(Named(n2)) && Get(fields, "clues") == Some(Named(n3))
    requires Stripped(n0) && Stripped(n1) && Stripped(n2) && Stripped(n3)
    requires n0 != "" && n1 != "" && n2 != "" && n3 != "" && !IsFlat(fields)
    ensures Rows(Dict(fields), repr)
         == Success([Row("PNJ", n0, ""), Row("Lieux", n1, ""), Row("Objets", n2, ""), Row("Indices", n3, "")])
  {
    FourRows(fields, n0, n1, n2, n3, repr);
    assert [] + [Row(Label(0), n0, "")] + [Row(Label(1), n1, "")] + [Row(Label(2), n2, "")] + [Row(Label(3), n3, "")]
        == [Row("PNJ", n0, ""), Row("Lieux", n1, ""), Row("Objets", n2, ""), Row("Indices", n3, "")];
  }

  /** A list of one entry that has only a name. */
  function Named(name: string): Json {
    List([Dict(map["name" := Text(name)])])
  }

  lemma NamedReads(b: Bucket, name: string, repr: Repr)
    requires Stripped(name) && name != ""
    ensures Collect(Named(name).items, InBucket(b, repr)) == [Row(Label(b), name, "")]
  {
    var entry := Named(name).items[0];
    StripOfStripped(name);
    LabelsAreStripped(b);
    assert InBucket(b, repr)(entry) == CleanRow(Label(b), entry, repr);
    CollectOne(entry, InBucket(b, repr));
    assert Named(name).items == [entry];
  }

  /** Whether looping over it is an error: a number other than zero, or true. */
  predicate CannotLoop(v: Json) {
    (v.Number? && v.n != 0.0) || (v.Bool? && v.b)
  }

  lemma {:induction false} FlattenFailsIff(fields: map<string, Json>, b: nat, repr: Repr)
    requires b <= 4
    ensures FlattenTo(fields, b, repr).Failure?
       <==> exists k: Bucket :: k < b && Key(k) in fields && CannotLoop(fields[Key(k)])
  {
    if b > 0 { FlattenFailsIff(fields, b - 1, repr); }
  }

  /** Reading a card fails only in the four-bucket form, if a bucket cannot be looped over. */
  lemma ReadingFailsIff(content: Json, repr: Repr)
    ensures Rows(content, repr).Failure?
       <==> && content.Dict? && !("elements" in content.fields && content.fields["elements"].List?)
            && exists key | key in ["npcs", "locations", "items", "clues"] ::
                 key in content.fields && CannotLoop(content.fields[key])
  {
    if content.Dict? {
      FlattenFailsIff(content.fields, 4, repr);
      assert ["npcs", "locations", "items", "clues"] == [Key(0), Key(1), Key(2), Key(3)];
    }
  }

  // ----- Rows are clean -----------------------------------------------------------------

  predicate IsClean(r: Row) {
    r.name != "" && Stripped(r.name) && Stripped(r.description) && r.category != "" && Stripped(r.category)
  }

  predicate AllClean(rows: seq<Row>) {
    forall i | 0 <= i < |rows| :: IsClean(rows[i])
  }

  lemma CleanRowIsClean(category: string, entry: Json, repr: Repr)
    ensures CleanRow(category, entry, repr).Some? ==> IsClean(CleanRow(category, entry, repr).value)
  {
    assert !IsSpace(DEFAULT_CATEGORY[0]) && !IsSpace(DEFAULT_CATEGORY[5]);
  }

  lemma {:induction false} CollectIsClean(entries: seq<Json>, read: Reader)
    requires forall e :: read(e).Some? ==> IsClean(read(e).value)
    ensures AllClean(Collect(entries, read))
  {
    if entries != [] { CollectIsClean(entries[1..], read); }
  }

  lemma ReadersClean(b: Bucket, repr: Repr)
    ensures forall e :: InBucket(b, repr)(e).Some? ==> IsClean(InBucket(b, repr)(e).value)
    ensures forall e :: InList(repr)(e).Some? ==> IsClean(InList(repr)(e).value)
  {
    forall e ensures InBucket(b, repr)(e).Some? ==> IsClean(InBucket(b, repr)(e).value) {
      CleanRowIsClean(Label(b), e, repr);
    }
    forall e ensures InList(repr)(e).Some? ==> IsClean(InList(repr)(e).value) {
      CleanRowIsClean(RawCategory(e, repr), e, repr);
    }
  }

  lemma LabelEnds(b: Bucket)
    ensures var l := Label(b); l != "" && 'A' <= l[0] <= 'z' && 'A' <= l[|l| - 1] <= 'z'
    ensures BucketOf(Label(b)) == b
  {}

  lemma LettersAreStripped(s: string)
    requires s != "" && 'A' <= s[0] <= 'z' && 'A' <= s[|s| - 1] <= 'z'
    ensures Stripped(s) && Strip(s) == s
  {
    StripOfStripped(s);
  }

  lemma LabelsAreStripped(b: Bucket)
    ensures Label(b) != "" && Stripped(Label(b)) && Strip(Label(b)) == Label(b) && BucketOf(Label(b)) == b
  {
    LabelEnds(b);
    LettersAreStripped(Label(b));
  }

  lemma {:induction false} CollectLabels(entries: seq<Json>, b: Bucket, repr: Repr)
    ensures forall i | 0 <= i < |Collect(entries, InBucket(b, repr))| :: Collect(entries, InBucket(b, repr))[i].category == Label(b)
  {
    LabelsAreStripped(b);
    if entries != [] {
      CollectLabels(entries[1..], b, repr);
      assert Kept(InBucket(b, repr)(entries[0])) == Kept(CleanRow(Label(b), entries[0], repr));
    }
  }
}
