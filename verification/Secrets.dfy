/** Webhook secret rotation: the revision rows of the connections, and what their whole history accepts. */
module SecretRotation {
  import opened Model

  const GRACE: Time := 24 * 60 * MINUTE

  datatype RevisionStatus = Active | PreviousGrace | Revoked
  datatype Revision = Revision(conn: Id, secret: string, status: RevisionStatus, grace: Option<Time>, createdAt: Time)

  type Revisions = map<Id, Revision>

  // ---- one rotation ----------------------------------------------------------------------

  predicate IsActiveOf(revisions: Revisions, conn: Id, r: Id) {
    r in revisions && revisions[r].conn == conn && revisions[r].status.Active?
  }

  /** At most one active revision per connection, as the database's partial index demands. */
  ghost predicate OneActive(revisions: Revisions) {
    forall q, r :: q in revisions && r in revisions && q != r && revisions[q].conn == revisions[r].conn ==>
                     !(revisions[q].status.Active? && revisions[r].status.Active?)
  }

  function ActiveOf(revisions: Revisions, conn: Id): (o: Option<Id>)
    requires OneActive(revisions)
    ensures o.Some? ==> IsActiveOf(revisions, conn, o.value)
    ensures o.None? ==> forall r :: !IsActiveOf(revisions, conn, r)
  {
    if exists r :: r in revisions && IsActiveOf(revisions, conn, r) then
      var r :| r in revisions && IsActiveOf(revisions, conn, r); Some(r)
    else None
  }

  function Ended(r: Revision, conn: Id): Revision {
    if r.conn == conn && r.status.PreviousGrace? then r.(status := Revoked, grace := None) else r
  }

  /** The revisions of the connection that were in grace are revoked. */
  function GraceRevoked(revisions: Revisions, conn: Id): Revisions {
    map r | r in revisions :: Ended(revisions[r], conn)
  }

  function Demoted(revisions: Revisions, active: Option<Id>, until: Time): Revisions {
    if active.None? || active.value !in revisions then revisions
    else revisions[active.value := revisions[active.value].(status := PreviousGrace, grace := Some(until))]
  }

  datatype Rotation = Rotation(id: Id, secret: string, at: Time)

  /** Revoke what is in grace, put the active revision in grace, add the new one as active. */
  function Rotated(revisions: Revisions, conn: Id, r: Rotation): Revisions
    requires OneActive(revisions)
  {
    Demoted(GraceRevoked(revisions, conn), ActiveOf(revisions, conn), r.at + GRACE)
      [r.id := Revision(conn, r.secret, Active, None, r.at)]
  }

  lemma RotatedOneActive(revisions: Revisions, conn: Id, r: Rotation)
    requires OneActive(revisions) && r.id !in revisions
    ensures OneActive(Rotated(revisions, conn, r))
  {
  }

  // ---- verification candidates -----------------------------------------------------------

  predicate IsCandidate(r: Revision, conn: Id, asOf: Time) {
    r.conn == conn && (r.status.Active? || (r.status.PreviousGrace? && r.grace.Some? && r.grace.value >= asOf))
  }

  /** The candidates at `asOf`, by (created_at, id) descending. */
  ghost predicate IsCandidateList(revisions: Revisions, conn: Id, asOf: Time, list: seq<Id>) {
    && (forall r :: r in list <==> r in revisions && IsCandidate(revisions[r], conn, asOf))
    && forall i, j :: 0 <= i < j < |list| ==>
         After(revisions[list[i]].createdAt, list[i], revisions[list[j]].createdAt, list[j])
  }

  class SecretStore {
    var revisions: Revisions

    constructor ()
      ensures revisions == map[]
    {
      revisions := map[];
    }

    /** Revoke every revision of the connection that is in grace, one row after another. */
    method RevokePreviousGrace(conn: Id)
      modifies this
      ensures revisions == GraceRevoked(old(revisions), conn)
    {
      var todo: set<Id> := set r | r in revisions && revisions[r].conn == conn && revisions[r].status.PreviousGrace?;
      while todo != {}
        invariant todo <= revisions.Keys == old(revisions.Keys)
        invariant forall r :: r in todo ==> old(revisions)[r].conn == conn && old(revisions)[r].status.PreviousGrace?
        invariant forall r :: r in revisions ==>
          revisions[r] == if r in todo then old(revisions)[r] else Ended(old(revisions)[r], conn)
        decreases |todo|
      {
        var r: Id :| r in todo;
        revisions := revisions[r := revisions[r].(status := Revoked, grace := None)];
        todo := todo - {r};
      }
    }

    method MarkPreviousGrace(r: Id, until: Time)
      requires r in revisions
      modifies this
      ensures revisions == Demoted(old(revisions), Some(r), until)
    {
      revisions := revisions[r := revisions[r].(status := PreviousGrace)];
      revisions := revisions[r := revisions[r].(grace := Some(until))];
    }

    /** One rotation; the grace period is reported only if there was an active revision. */
    method Rotate(conn: Id, r: Rotation) returns (grace: Option<Time>)
      requires OneActive(revisions) && r.id !in revisions
      modifies this
      ensures revisions == Rotated(old(revisions), conn, r) && OneActive(revisions)
      ensures grace == if ActiveOf(old(revisions), conn).Some? then Some(r.at + 86_400_000_000) else None
    {
      RotatedOneActive(revisions, conn, r);
      ghost var was := revisions;
      RevokePreviousGrace(conn);
      SameActive(was, conn);
      var active := ActiveOf(revisions, conn);
      grace := None;
      if active.Some? {
        MarkPreviousGrace(active.value, r.at + GRACE);
        grace := Some(r.at + GRACE);
      }
      revisions := revisions[r.id := Revision(conn, r.secret, Active, None, r.at)];
    }
  }

  lemma SameActive(revisions: Revisions, conn: Id)
    requires OneActive(revisions)
    ensures OneActive(GraceRevoked(revisions, conn))
    ensures ActiveOf(GraceRevoked(revisions, conn), conn) == ActiveOf(revisions, conn)
  {
    var after := GraceRevoked(revisions, conn);
    forall r ensures IsActiveOf(after, conn, r) <==> IsActiveOf(revisions, conn, r) {}
  }

  // ---- the whole history -----------------------------------------------------------------

  /** Rotations at increasing times, each with a new id. */
  predicate Increasing(rotations: seq<Rotation>) {
    forall i, j :: 0 <= i < j < |rotations| ==>
      rotations[i].at < rotations[j].at && rotations[i].id != rotations[j].id
  }

  ghost predicate Unused(revisions: Revisions, conn: Id, rotations: seq<Rotation>) {
    && (forall r :: r in revisions ==> revisions[r].conn != conn)
    && forall i :: 0 <= i < |rotations| ==> rotations[i].id !in revisions
  }

  /** Where rotation `i` of `n` stands: the last is active, the one before it in grace, the others revoked. */
  function Standing(conn: Id, rotations: seq<Rotation>, i: nat): Revision
    requires i < |rotations|
  {
    var n, r := |rotations|, rotations[i];
    if i == n - 1 then Revision(conn, r.secret, Active, None, r.at)
    else if i == n - 2 then Revision(conn, r.secret, PreviousGrace, Some(rotations[n - 1].at + 86_400_000_000), r.at)
    else Revision(conn, r.secret, Revoked, None, r.at)
  }

  ghost predicate RowsStand(now: Revisions, conn: Id, rotations: seq<Rotation>) {
    forall i :: 0 <= i < |rotations| ==> rotations[i].id in now && now[rotations[i].id] == Standing(conn, rotations, i)
  }

  ghost predicate OnlyRotations(now: Revisions, conn: Id, rotations: seq<Rotation>) {
    forall r :: r in now && now[r].conn == conn ==> exists i :: 0 <= i < |rotations| && rotations[i].id == r
  }

  ghost predicate OthersKept(start: Revisions, now: Revisions, conn: Id) {
    && (forall r :: r in now && now[r].conn != conn ==> r in start)
    && (forall r :: r in start ==> r in now && now[r] == start[r])
  }

  /** The connection's rows are the rotations, each where it stands; the others' rows are as they were. */
  ghost predicate Stands(start: Revisions, now: Revisions, conn: Id, rotations: seq<Rotation>) {
    RowsStand(now, conn, rotations) && OnlyRotations(now, conn, rotations) && OthersKept(start, now, conn) &&
      OneActive(now)
  }

  ghost predicate History(start: Revisions, conn: Id, rotations: seq<Rotation>, tables: seq<Revisions>) {
    && |tables| == |rotations| + 1 && tables[0] == start
    && forall i :: 0 <= i < |rotations| ==>
         OneActive(tables[i]) && tables[i + 1] == Rotated(tables[i], conn, rotations[i])
  }

  lemma NewId(start: Revisions, now: Revisions, conn: Id, rotations: seq<Rotation>)
    requires |rotations| > 0 && Increasing(rotations) && Unused(start, conn, rotations)
    requires Stands(start, now, conn, rotations[..|rotations| - 1])
    ensures rotations[|rotations| - 1].id !in now
  {
    var n := |rotations|;
    var init, last := rotations[..n - 1], rotations[n - 1];
    forall i | 0 <= i < |init| ensures init[i].id != last.id { assert init[i] == rotations[i]; }
  }

  /** The revision that was active is the one before the last. */
  lemma ActiveBefore(start: Revisions, now: Revisions, conn: Id, init: seq<Rotation>)
    requires OneActive(now) && Stands(start, now, conn, init)
    ensures ActiveOf(now, conn) == if |init| > 0 then Some(init[|init| - 1].id) else None
  {
    if |init| > 0 { assert IsActiveOf(now, conn, init[|init| - 1].id); }
  }

  function RotatedRow(r: Revision, conn: Id, active: bool, until: Time): Revision {
    if active then r.(status := PreviousGrace, grace := Some(until)) else Ended(r, conn)
  }

  /** Row by row, what a rotation does to the revisions that are there. */
  lemma RotatedRows(now: Revisions, conn: Id, last: Rotation)
    requires OneActive(now) && last.id !in now
    ensures var later := Rotated(now, conn, last);
      && later.Keys == now.Keys + {last.id} && later[last.id] == Revision(conn, last.secret, Active, None, last.at)
      && forall r :: r in now ==> later[r] == RotatedRow(now[r], conn, ActiveOf(now, conn) == Some(r), last.at + GRACE)
  {
    hide OneActive, ActiveOf;
    var active := ActiveOf(now, conn);
    if active.Some? { assert active.value in GraceRevoked(now, conn) by { ActiveIn(now, conn); } }
    if active.Some? { ActiveIn(now, conn); }
  }

  lemma ActiveIn(now: Revisions, conn: Id)
    requires OneActive(now) && ActiveOf(now, conn).Some?
    ensures IsActiveOf(now, conn, ActiveOf(now, conn).value)
  {
  }

  lemma StandingNext(now: Revisions, conn: Id, rotations: seq<Rotation>, i: nat)
    requires |rotations| > 0 && Increasing(rotations) && i < |rotations| - 1
    requires rotations[i].id in now
    requires now[rotations[i].id] == Standing(conn, rotations[..|rotations| - 1], i)
    ensures RotatedRow(now[rotations[i].id], conn, i == |rotations| - 2, rotations[|rotations| - 1].at + GRACE)
      == Standing(conn, rotations, i)
  {
  }

  /** What one rotation does to the rows of a table, in the form the three parts below use. */
  ghost predicate RowsAfter(now: Revisions, later: Revisions, conn: Id, init: seq<Rotation>, last: Rotation) {
    && later.Keys == now.Keys + {last.id} && later[last.id] == Revision(conn, last.secret, Active, None, last.at)
    && forall r :: r in now ==>
         later[r] == RotatedRow(now[r], conn, |init| > 0 && r == init[|init| - 1].id, last.at + GRACE)
  }

  lemma RowsStandNext(now: Revisions, later: Revisions, conn: Id, rotations: seq<Rotation>)
    requires |rotations| > 0 && Increasing(rotations) && rotations[|rotations| - 1].id !in now
    requires var init := rotations[..|rotations| - 1];
      RowsStand(now, conn, init) && RowsAfter(now, later, conn, init, rotations[|rotations| - 1])
    ensures RowsStand(later, conn, rotations)
  {
    hide RotatedRow, Standing;
    var n := |rotations|;
    var init := rotations[..n - 1];
    forall i | 0 <= i < n ensures rotations[i].id in later && later[rotations[i].id] == Standing(conn, rotations, i) {
      if i < n - 1 {
        assert init[i] == rotations[i];
        assert i < n - 2 ==> init[n - 2] == rotations[n - 2];
        StandingNext(now, conn, rotations, i);
      } else {
        StandingLast(conn, rotations);
      }
    }
  }

  lemma OnlyRotationsNext(now: Revisions, later: Revisions, conn: Id, rotations: seq<Rotation>)
    requires |rotations| > 0
    requires var init := rotations[..|rotations| - 1];
      OnlyRotations(now, conn, init) && RowsAfter(now, later, conn, init, rotations[|rotations| - 1])
    ensures OnlyRotations(later, conn, rotations)
  {
    var n := |rotations|;
    var init := rotations[..n - 1];
    forall r | r in later && later[r].conn == conn ensures exists i :: 0 <= i < n && rotations[i].id == r {
      if r == rotations[n - 1].id {
        assert rotations[n - 1].id == r;
      } else {
        assert r in now && now[r].conn == conn;
        var i :| 0 <= i < |init| && init[i].id == r;
        assert rotations[i].id == r;
      }
    }
  }

  lemma OthersKeptNext(start: Revisions, now: Revisions, later: Revisions, conn: Id, rotations: seq<Rotation>)
    requires |rotations| > 0 && Unused(start, conn, rotations)
    requires var init := rotations[..|rotations| - 1];
      OthersKept(start, now, conn) && RowsStand(now, conn, init)
      && RowsAfter(now, later, conn, init, rotations[|rotations| - 1])
    ensures OthersKept(start, later, conn)
  {
    hide Standing;
    var n := |rotations|;
    forall r | r in start ensures r in later && later[r] == start[r] {
      assert r in now && now[r].conn != conn;
      assert n > 1 ==> rotations[n - 2].id !in start;
    }
  }

  lemma RotationStep(start: Revisions, now: Revisions, conn: Id, rotations: seq<Rotation>)
    requires |rotations| > 0 && Increasing(rotations) && Unused(start, conn, rotations)
    requires Stands(start, now, conn, rotations[..|rotations| - 1])
    ensures Stands(start, Rotated(now, conn, rotations[|rotations| - 1]), conn, rotations)
  {
    hide OneActive, ActiveOf, Rotated, RotatedRow, Standing, RowsStand, OnlyRotations, OthersKept;
    var n := |rotations|;
    var later := Rotated(now, conn, rotations[n - 1]);
    NewId(start, now, conn, rotations);
    ActiveBefore(start, now, conn, rotations[..n - 1]);
    RotatedOneActive(now, conn, rotations[n - 1]);
    RotatedRows(now, conn, rotations[n - 1]);
    RowsStandNext(now, later, conn, rotations);
    OnlyRotationsNext(now, later, conn, rotations);
    OthersKeptNext(start, now, later, conn, rotations);
  }

  lemma StandingLast(conn: Id, rotations: seq<Rotation>)
    requires |rotations| > 0
    ensures var last := rotations[|rotations| - 1];
      Standing(conn, rotations, |rotations| - 1) == Revision(conn, last.secret, Active, None, last.at)
  {
  }

  /** Rotation history. After any rotations at increasing times the last revision is active, the one before it
      in grace until 24 hours after the last rotation, and all earlier ones are revoked. */
  lemma {:induction false} RotationHistory(start: Revisions, conn: Id, rotations: seq<Rotation>, tables: seq<Revisions>)
    requires Increasing(rotations) && Unused(start, conn, rotations) && OneActive(start)
    requires History(start, conn, rotations, tables)
    ensures Stands(start, tables[|rotations|], conn, rotations)
    decreases |rotations|
  {
    hide OneActive, Rotated, Standing;
    var n := |rotations|;
    if n > 0 {
      var init := rotations[..n - 1];
      assert forall i :: 0 <= i < |init| ==> init[i] == rotations[i];
      assert tables[..n][0] == start;
      RotationHistory(start, conn, init, tables[..n]);
      RotationStep(start, tables[n - 1], conn, rotations);
    }
  }

  /** The last revision, and after it the one before while at most 24 hours have passed. */
  function Expected(rotations: seq<Rotation>, asOf: Time): seq<Id>
    requires |rotations| > 0
  {
    var n := |rotations|;
    [rotations[n - 1].id] + if n >= 2 && asOf <= rotations[n - 1].at + 86_400_000_000 then [rotations[n - 2].id] else []
  }

  /** The candidates at any time from the last rotation on are exactly the last revision, first, and then the
      one before it as long as at most 24 hours have passed. */
  lemma CandidatesAre(start: Revisions, now: Revisions, conn: Id, rotations: seq<Rotation>, asOf: Time, list: seq<Id>)
    requires Increasing(rotations) && Stands(start, now, conn, rotations) && |rotations| > 0
    requires asOf >= rotations[|rotations| - 1].at
    ensures IsCandidateList(now, conn, asOf, list) <==> list == Expected(rotations, asOf)
  {
    hide Stands, Increasing, Standing;
    var expected := Expected(rotations, asOf);
    forall r ensures r in now && IsCandidate(now[r], conn, asOf) <==> r in expected {
      CandidateIs(start, now, conn, rotations, asOf, r);
    }
    ExpectedDescends(start, now, conn, rotations, asOf);
    if IsCandidateList(now, conn, asOf, list) { SortedUnique(now, list, expected); }
  }

  lemma ExpectedDescends(start: Revisions, now: Revisions, conn: Id, rotations: seq<Rotation>, asOf: Time)
    requires Increasing(rotations) && Stands(start, now, conn, rotations) && |rotations| > 0
    ensures Descending(now, Expected(rotations, asOf))
  {
    var n := |rotations|;
    assert now[rotations[n - 1].id] == Standing(conn, rotations, n - 1);
    if n >= 2 { assert now[rotations[n - 2].id] == Standing(conn, rotations, n - 2); }
  }

  lemma CandidateIs(start: Revisions, now: Revisions, conn: Id, rotations: seq<Rotation>, asOf: Time, r: Id)
    requires Increasing(rotations) && Stands(start, now, conn, rotations) && |rotations| > 0
    ensures var n := |rotations|;
      (r in now && IsCandidate(now[r], conn, asOf)) <==>
      (r == rotations[n - 1].id || (n >= 2 && asOf <= rotations[n - 1].at + GRACE && r == rotations[n - 2].id))
  {
    var n := |rotations|;
    assert now[rotations[n - 1].id] == Standing(conn, rotations, n - 1);
    if n >= 2 { assert now[rotations[n - 2].id] == Standing(conn, rotations, n - 2); }
    if r in now && now[r].conn == conn {
      var i :| 0 <= i < n && rotations[i].id == r;
      assert now[r] == Standing(conn, rotations, i);
    }
  }

  ghost predicate Descending(revisions: Revisions, list: seq<Id>) {
    && (forall i :: 0 <= i < |list| ==> list[i] in revisions)
    && forall i, j :: 0 <= i < j < |list| ==>
         After(revisions[list[i]].createdAt, list[i], revisions[list[j]].createdAt, list[j])
  }

  /** Two listings of the same rows in descending order are the same. */
  lemma {:induction false} SortedUnique(revisions: Revisions, a: seq<Id>, b: seq<Id>)
    requires Descending(revisions, a) && Descending(revisions, b) && forall r :: r in a <==> r in b
    ensures a == b
    decreases |a|
  {
    NoElements(a);
    NoElements(b);
    if |a| > 0 {
      assert a[0] in b && b[0] in a;
      var i :| 0 <= i < |b| && b[i] == a[0];
      var j :| 0 <= j < |a| && a[j] == b[0];
      assert i == 0 && j == 0;
      forall r ensures r in a[1..] <==> r in b[1..] {
        Rest(revisions, a, r);
        Rest(revisions, b, r);
      }
      SortedUnique(revisions, a[1..], b[1..]);
    }
  }

  lemma NoElements(list: seq<Id>)
    ensures (forall r :: r !in list) <==> list == []
  {
    if list != [] { assert list[0] in list; }
  }

  lemma Rest(revisions: Revisions, list: seq<Id>, r: Id)
    requires |list| > 0 && Descending(revisions, list)
    ensures r in list[1..] <==> r in list && r != list[0]
  {
    if r in list && r != list[0] {
      var i :| 0 <= i < |list| && list[i] == r;
      assert list[1..][i - 1] == r;
    }
  }
}
