/**
 * Which sessions a player sees (app/services/jdr/logic.py): one query with two outer joins, and
 * the check made for a single session.
 */
module PlayerSessions {
  import opened Wrappers

  type Id = nat

  datatype Mode = Diarised | NonDiarised

  datatype SessionRow = SessionRow(id: Id, mode: Mode, createdAt: int, campaign: Option<Id>)

  datatype MappingRow = MappingRow(session: Id, speaker: string, pj: Id)

  datatype PlayerRow = PlayerRow(session: Id, pj: Id)

  datatype Db = Db(sessions: seq<SessionRow>, mappings: seq<MappingRow>, players: seq<PlayerRow>)

  /** The primary key of the sessions. */
  ghost predicate UniqueIds(sessions: seq<SessionRow>) {
    forall i, k | 0 <= i < k < |sessions| :: sessions[i].id != sessions[k].id
  }

  // ----- The check for one session ------------------------------------------------------

  predicate InCampaign(s: SessionRow, campaign: Option<Id>) {
    campaign.Some? ==> s.campaign == campaign
  }

  function Lookup(sessions: seq<SessionRow>, id: Id, campaign: Option<Id>): Option<SessionRow> {
    if sessions == [] then None
    else if sessions[0].id == id && InCampaign(sessions[0], campaign) then Some(sessions[0])
    else Lookup(sessions[1..], id, campaign)
  }

  predicate IsPjMappedOnSession(db: Db, id: Id, pj: Id, campaign: Option<Id>) {
    var session := Lookup(db.sessions, id, campaign);
    session.Some? &&
    match session.value.mode
    case NonDiarised => exists p | p in db.players :: p.session == id && p.pj == pj
    case Diarised => exists m | m in db.mappings :: m.session == id && m.pj == pj
  }

  // ----- The query ----------------------------------------------------------------------

  function Matches<A, B>(a: A, right: seq<B>, on: (A, B) -> bool): seq<(A, Option<B>)> {
    if right == [] then []
    else (if on(a, right[0]) then [(a, Some(right[0]))] else []) + Matches(a, right[1..], on)
  }

  /** Every left row with each of its matches, or once with nulls. */
  function OuterJoin<A, B>(left: seq<A>, right: seq<B>, on: (A, B) -> bool): seq<(A, Option<B>)> {
    if left == [] then []
    else
      var matches := Matches(left[0], right, on);
      (if matches == [] then [(left[0], None)] else matches) + OuterJoin(left[1..], right, on)
  }

  /** The truth values of SQL; None is unknown. */
  type Truth = Option<bool>

  function And(a: Truth, b: Truth): Truth {
    if a == Some(false) || b == Some(false) then Some(false) else if a.None? || b.None? then None else Some(true)
  }

  function Or(a: Truth, b: Truth): Truth {
    if a == Some(true) || b == Some(true) then Some(true) else if a.None? || b.None? then None else Some(false)
  }

  function Equal<T(==)>(a: Option<T>, b: T): Truth {
    if a.None? then None else Some(a.value == b)
  }

  type JoinRow = ((SessionRow, Option<MappingRow>), Option<PlayerRow>)

  function OnMapping(): (SessionRow, MappingRow) -> bool {
    (s: SessionRow, m: MappingRow) => m.session == s.id
  }

  function OnPlayer(): ((SessionRow, Option<MappingRow>), PlayerRow) -> bool {
    (row: (SessionRow, Option<MappingRow>), p: PlayerRow) => p.session == row.0.id
  }

  function Joined(db: Db): seq<JoinRow> {
    OuterJoin(OuterJoin(db.sessions, db.mappings, OnMapping()), db.players, OnPlayer())
  }

  function Where(row: JoinRow, pj: Id, campaign: Option<Id>): Truth {
    var s, m, p := row.0.0, row.0.1, row.1;
    var mapped := And(Some(s.mode.Diarised?), Equal(if m.Some? then Some(m.value.pj) else None, pj));
    var enrolled := And(Some(s.mode.NonDiarised?), Equal(if p.Some? then Some(p.value.pj) else None, pj));
    And(Or(mapped, enrolled), if campaign.Some? then Equal(s.campaign, campaign.value) else Some(true))
  }

  /** The sessions of the rows the condition is true for, with repetitions. */
  function Selected(rows: seq<JoinRow>, pj: Id, campaign: Option<Id>): seq<SessionRow> {
    if rows == [] then []
    else (if Where(rows[0], pj, campaign) == Some(true) then [rows[0].0.0] else []) + Selected(rows[1..], pj, campaign)
  }

  ghost predicate NoRepetition(rows: seq<SessionRow>) {
    forall i, k | 0 <= i < k < |rows| :: rows[i] != rows[k]
  }

  ghost predicate ByCreation(rows: seq<SessionRow>) {
    forall i, k | 0 <= i < k < |rows| :: rows[i].createdAt <= rows[k].createdAt
  }

  /** What a database may answer: ORDER BY leaves rows of the same instant in any order. */
  ghost predicate Answers(rows: seq<SessionRow>, db: Db, pj: Id, campaign: Option<Id>) {
    && NoRepetition(rows) && ByCreation(rows)
    && forall s :: s in rows <==> s in Selected(Joined(db), pj, campaign)
  }

  // ----- What the joins hold ------------------------------------------------------------

  lemma {:induction false} MatchesHold<A, B>(a: A, right: seq<B>, on: (A, B) -> bool)
    ensures forall x, r :: (x, Some(r)) in Matches(a, right, on) <==> x == a && r in right && on(a, r)
    ensures forall x :: (x, None) !in Matches(a, right, on)
    decreases right
  {
    if right != [] { MatchesHold(a, right[1..], on); }
  }

  lemma {:induction false} JoinHolds<A, B>(left: seq<A>, right: seq<B>, on: (A, B) -> bool, a: A, r: B)
    ensures (a, Some(r)) in OuterJoin(left, right, on) <==> a in left && r in right && on(a, r)
    decreases left
  {
    if left != [] {
      MatchesHold(left[0], right, on);
      JoinHolds(left[1..], right, on, a, r);
    }
  }

  lemma {:induction false} HeadOnly<A, B>(a: A, right: seq<B>, on: (A, B) -> bool)
    ensures forall row | row in Matches(a, right, on) :: row.0 == a
    decreases right
  {
    if right != [] { HeadOnly(a, right[1..], on); }
  }

  /** Every row of a join comes from a row on its left. */
  lemma {:induction false} JoinComesFromLeft<A, B>(left: seq<A>, right: seq<B>, on: (A, B) -> bool, row: (A, Option<B>))
    requires row in OuterJoin(left, right, on)
    ensures row.0 in left
    decreases left
  {
    if left != [] {
      HeadOnly(left[0], right, on);
      var matches := Matches(left[0], right, on);
      var first := if matches == [] then [(left[0], None)] else matches;
      if row in first {
        assert row.0 == left[0];
      } else {
        JoinComesFromLeft(left[1..], right, on, row);
      }
    }
  }

  /** And every left row is in the join, matched or not. */
  lemma {:induction false} JoinKeepsLeft<A, B>(left: seq<A>, right: seq<B>, on: (A, B) -> bool, a: A)
    returns (r: Option<B>)
    requires a in left
    ensures (a, r) in OuterJoin(left, right, on)
    decreases left
  {
    var matches := Matches(left[0], right, on);
    var first := if matches == [] then [(left[0], None)] else matches;
    if a == left[0] {
      HeadOnly(left[0], right, on);
      r := first[0].1;
      assert first[0] in first && first[0] == (a, r);
    } else {
      r := JoinKeepsLeft(left[1..], right, on, a);
    }
  }

  // ----- The query against the check ----------------------------------------------------

  predicate Maps(m: MappingRow, s: SessionRow, pj: Id) {
    m.session == s.id && m.pj == pj
  }

  predicate Enrols(p: PlayerRow, s: SessionRow, pj: Id) {
    p.session == s.id && p.pj == pj
  }

  /** The PJ takes part: by a speaker mapping, or by the list of players, as the mode has it. */
  ghost predicate TakesPart(db: Db, s: SessionRow, pj: Id) {
    match s.mode
    case Diarised => exists m | m in db.mappings :: Maps(m, s, pj)
    case NonDiarised => exists p | p in db.players :: Enrols(p, s, pj)
  }

  lemma {:induction false} SelectedIff(rows: seq<JoinRow>, pj: Id, campaign: Option<Id>, s: SessionRow)
    ensures s in Selected(rows, pj, campaign) <==> exists row | row in rows :: row.0.0 == s && Where(row, pj, campaign) == Some(true)
    decreases rows
  {
    if rows != [] {
      SelectedIff(rows[1..], pj, campaign, s);
      assert forall row :: row in rows <==> row == rows[0] || row in rows[1..];
    }
  }

  /** The condition holds of a joined row only where its own parts make the PJ take part. */
  lemma WhereMeans(row: JoinRow, pj: Id, campaign: Option<Id>)
    ensures Where(row, pj, campaign) == Some(true) <==>
            && InCampaign(row.0.0, campaign)
            && (if row.0.0.mode.Diarised? then row.0.1.Some? && row.0.1.value.pj == pj else row.1.Some? && row.1.value.pj == pj)
  {}

  lemma SelectedTakesPart(db: Db, row: JoinRow, pj: Id, campaign: Option<Id>)
    requires row in Joined(db) && Where(row, pj, campaign) == Some(true)
    ensures row.0.0 in db.sessions && InCampaign(row.0.0, campaign) && TakesPart(db, row.0.0, pj)
  {
    var s := row.0.0;
    var inner := OuterJoin(db.sessions, db.mappings, OnMapping());
    JoinComesFromLeft(inner, db.players, OnPlayer(), row);
    JoinComesFromLeft(db.sessions, db.mappings, OnMapping(), row.0);
    WhereMeans(row, pj, campaign);
    if s.mode.Diarised? {
      JoinHolds(db.sessions, db.mappings, OnMapping(), s, row.0.1.value);
      assert Maps(row.0.1.value, s, pj);
    } else {
      JoinHolds(inner, db.players, OnPlayer(), row.0, row.1.value);
      assert Enrols(row.1.value, s, pj);
    }
  }

  lemma TakingPartIsSelected(db: Db, s: SessionRow, pj: Id, campaign: Option<Id>) returns (row: JoinRow)
    requires s in db.sessions && InCampaign(s, campaign) && TakesPart(db, s, pj)
    ensures row in Joined(db) && row.0.0 == s && Where(row, pj, campaign) == Some(true)
  {
    var inner := OuterJoin(db.sessions, db.mappings, OnMapping());
    if s.mode.Diarised? {
      var m :| m in db.mappings && Maps(m, s, pj);
      JoinHolds(db.sessions, db.mappings, OnMapping(), s, m);
      var p := JoinKeepsLeft(inner, db.players, OnPlayer(), (s, Some(m)));
      row := ((s, Some(m)), p);
    } else {
      var p :| p in db.players && Enrols(p, s, pj);
      var m := JoinKeepsLeft(db.sessions, db.mappings, OnMapping(), s);
      JoinHolds(inner, db.players, OnPlayer(), (s, m), p);
      row := ((s, m), Some(p));
    }
    WhereMeans(row, pj, campaign);
  }

  lemma {:induction false} LookupFinds(sessions: seq<SessionRow>, id: Id, campaign: Option<Id>)
    ensures Lookup(sessions, id, campaign).Some? ==>
              var s := Lookup(sessions, id, campaign).value; s in sessions && s.id == id && InCampaign(s, campaign)
    ensures Lookup(sessions, id, campaign).None? ==> forall s | s in sessions :: s.id != id || !InCampaign(s, campaign)
    decreases sessions
  {
    if sessions != [] { LookupFinds(sessions[1..], id, campaign); }
  }

  lemma SameId(sessions: seq<SessionRow>, a: SessionRow, b: SessionRow)
    requires UniqueIds(sessions) && a in sessions && b in sessions && a.id == b.id
    ensures a == b
  {
    var i :| 0 <= i < |sessions| && sessions[i] == a;
    var k :| 0 <= k < |sessions| && sessions[k] == b;
  }

  lemma MappedTakesPart(db: Db, id: Id, pj: Id, campaign: Option<Id>)
    requires UniqueIds(db.sessions)
    ensures IsPjMappedOnSession(db, id, pj, campaign)
       <==> exists s | s in db.sessions :: s.id == id && InCampaign(s, campaign) && TakesPart(db, s, pj)
  {
    LookupFinds(db.sessions, id, campaign);
    var found := Lookup(db.sessions, id, campaign);
    if found.Some? {
      forall s | s in db.sessions && s.id == id ensures s == found.value { SameId(db.sessions, s, found.value); }
      assert forall m | m in db.mappings :: Maps(m, found.value, pj) <==> m.session == id && m.pj == pj;
      assert forall p | p in db.players :: Enrols(p, found.value, pj) <==> p.session == id && p.pj == pj;
    }
  }

  /** The single check: the session is in the campaign asked for, if any, and by its mode the PJ is mapped or enrolled. */
  lemma MappedIff(db: Db, id: Id, pj: Id, campaign: Option<Id>)
    requires UniqueIds(db.sessions)
    ensures IsPjMappedOnSession(db, id, pj, campaign)
       <==> exists s | s in db.sessions ::
              && s.id == id && (campaign.Some? ==> s.campaign == campaign)
              && (if s.mode.Diarised? then exists m | m in db.mappings :: m.session == id && m.pj == pj
                  else exists p | p in db.players :: p.session == id && p.pj == pj)
  {
    MappedTakesPart(db, id, pj, campaign);
    forall s | s in db.sessions && s.id == id
      ensures TakesPart(db, s, pj)
         <==> if s.mode.Diarised? then exists m | m in db.mappings :: m.session == id && m.pj == pj
              else exists p | p in db.players :: p.session == id && p.pj == pj
    {
      assert forall m | m in db.mappings :: Maps(m, s, pj) <==> m.session == id && m.pj == pj;
      assert forall p | p in db.players :: Enrols(p, s, pj) <==> p.session == id && p.pj == pj;
    }
  }

  /**
   * Main theorem: whatever the three tables hold, and whichever order the database gives rows
   * of the same instant, the list shows exactly the sessions the single check lets the player
   * into, each once and by creation.
   */
  lemma ListedIffMapped(db: Db, pj: Id, campaign: Option<Id>, rows: seq<SessionRow>, id: Id)
    requires UniqueIds(db.sessions) && Answers(rows, db, pj, campaign)
    ensures IsPjMappedOnSession(db, id, pj, campaign) <==> exists i | 0 <= i < |rows| :: rows[i].id == id
    ensures UniqueIds(rows) && ByCreation(rows)
  {
    forall s ensures s in rows <==> s in db.sessions && InCampaign(s, campaign) && TakesPart(db, s, pj) {
      SelectedIff(Joined(db), pj, campaign, s);
      if s in rows {
        var row :| row in Joined(db) && row.0.0 == s && Where(row, pj, campaign) == Some(true);
        SelectedTakesPart(db, row, pj, campaign);
      }
      if s in db.sessions && InCampaign(s, campaign) && TakesPart(db, s, pj) {
        var row := TakingPartIsSelected(db, s, pj, campaign);
      }
    }
    MappedTakesPart(db, id, pj, campaign);
    forall i, k | 0 <= i < k < |rows| ensures rows[i].id != rows[k].id {
      assert rows[i] in rows && rows[k] in rows;
      if rows[i].id == rows[k].id { SameId(db.sessions, rows[i], rows[k]); }
    }
  }

  // ----- The query always has an answer -------------------------------------------------

  function Inserted(rows: seq<SessionRow>, s: SessionRow): seq<SessionRow> {
    if rows == [] || s.createdAt < rows[0].createdAt then [s] + rows else [rows[0]] + Inserted(rows[1..], s)
  }

  function Ordered(rows: seq<SessionRow>): seq<SessionRow> {
    if rows == [] then []
    else
      var rest := Ordered(rows[1..]);
      if rows[0] in rest then rest else Inserted(rest, rows[0])
  }

  lemma {:induction false} InsertedKeeps(rows: seq<SessionRow>, s: SessionRow)
    requires NoRepetition(rows) && ByCreation(rows) && s !in rows
    ensures NoRepetition(Inserted(rows, s)) && ByCreation(Inserted(rows, s))
    ensures forall x :: x in Inserted(rows, s) <==> x == s || x in rows
    decreases rows
  {
    if rows != [] && rows[0].createdAt <= s.createdAt {
      InsertedKeeps(rows[1..], s);
      var more := Inserted(rows[1..], s);
      forall i | 0 <= i < |more| ensures more[i] != rows[0] && rows[0].createdAt <= more[i].createdAt {
        assert more[i] in more;
      }
    }
  }

  lemma {:induction false} OrderedKeeps(rows: seq<SessionRow>)
    ensures NoRepetition(Ordered(rows)) && ByCreation(Ordered(rows))
    ensures forall x :: x in Ordered(rows) <==> x in rows
    decreases rows
  {
    if rows != [] {
      OrderedKeeps(rows[1..]);
      if rows[0] !in Ordered(rows[1..]) { InsertedKeeps(Ordered(rows[1..]), rows[0]); }
    }
  }

  lemma QueryHasAnswer(db: Db, pj: Id, campaign: Option<Id>)
    ensures Answers(Ordered(Selected(Joined(db), pj, campaign)), db, pj, campaign)
  {
    OrderedKeeps(Selected(Joined(db), pj, campaign));
  }
}
