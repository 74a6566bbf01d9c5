/** The commit events a GitLab push leaves behind, however often the push is delivered. */
module CommitEvents {
  import opened Model

  const ZERO_SHA: Sha := "0000000000000000000000000000000000000000"
  const MAX_DELIVERY_ID := 255
  const DIGEST_CHARS := 16

  // ---- the commit ids of a push ----------------------------------------------------------

  /** The id of a commit entry, unless it is missing or the null commit. */
  function HeadSha(id: Option<Sha>): Option<Sha> {
    if id.None? || id.value == ZERO_SHA then None else id
  }

  predicate Distinct(shas: seq<Sha>) { forall i, j :: 0 <= i < j < |shas| ==> shas[i] != shas[j] }

  /** A commit entry carries `sha`, and it is not the null commit. */
  predicate Named(commits: seq<Option<Sha>>, sha: Sha) {
    sha != "0000000000000000000000000000000000000000" && exists i :: 0 <= i < |commits| && commits[i] == Some(sha)
  }

  /** First position at which a commit id is named. */
  ghost predicate FirstAt(commits: seq<Option<Sha>>, sha: Sha, i: nat) {
    && i < |commits| && Named(commits, sha) && commits[i] == Some(sha)
    && forall j :: 0 <= j < i ==> commits[j] != Some(sha)
  }

  /** The distinct ids that are neither missing nor null, in order of first occurrence. */
  method CommitShas(commits: seq<Option<Sha>>) returns (shas: seq<Sha>)
    ensures Distinct(shas) && forall sha :: sha in shas <==> Named(commits, sha)
    ensures forall k, l, i, j ::
      0 <= k < l < |shas| && FirstAt(commits, shas[k], i) && FirstAt(commits, shas[l], j) ==> i < j
  {
    shas := [];
    ghost var firsts: seq<nat> := [];
    for n := 0 to |commits|
      invariant Distinct(shas) && |firsts| == |shas|
      invariant forall sha :: sha in shas <==> Named(commits[..n], sha)
      invariant forall k :: 0 <= k < |shas| ==> firsts[k] < n && FirstAt(commits, shas[k], firsts[k])
      invariant forall k, l :: 0 <= k < l < |shas| ==> firsts[k] < firsts[l]
    {
      NamedAppend(commits, n);
      var sha := HeadSha(commits[n]);
      if sha.Some? && sha.value !in shas {
        NotBefore(commits, sha.value, n);
        shas, firsts := shas + [sha.value], firsts + [n];
      }
    }
    assert commits[..|commits|] == commits;
    forall k, i | 0 <= k < |shas| && FirstAt(commits, shas[k], i) ensures i == firsts[k] {}
  }

  lemma NamedAppend(commits: seq<Option<Sha>>, n: nat)
    requires n < |commits|
    ensures forall sha :: Named(commits[..n + 1], sha) <==> Named(commits[..n], sha) || HeadSha(commits[n]) == Some(sha)
  {
    forall sha ensures Named(commits[..n + 1], sha) <==> Named(commits[..n], sha) || HeadSha(commits[n]) == Some(sha) {
      if HeadSha(commits[n]) == Some(sha) { assert commits[..n + 1][n] == commits[n]; }
      if i :| 0 <= i < n && commits[..n][i] == Some(sha) { assert commits[..n + 1][i] == commits[i]; }
    }
  }

  lemma NotBefore(commits: seq<Option<Sha>>, sha: Sha, n: nat)
    requires n < |commits| && !Named(commits[..n], sha) && HeadSha(commits[n]) == Some(sha)
    ensures FirstAt(commits, sha, n)
  {
    forall j | 0 <= j < n ensures commits[j] != Some(sha) { assert commits[..n][j] == commits[j]; }
  }

  // ---- derived delivery ids --------------------------------------------------------------

  /** The first characters of the SHA-256 of a delivery id. */
  type Digest = d: string -> string | forall s :: |d(s)| == DIGEST_CHARS witness (s => "0000000000000000")

  function CommitDeliveryId(digest: Digest, delivery: string, sha: Sha): string
    requires |sha| <= 64
  {
    var suffix := ":commit:" + sha;
    if |delivery| + |suffix| <= MAX_DELIVERY_ID then delivery + suffix
    else delivery[..MAX_DELIVERY_ID - |suffix| - DIGEST_CHARS - 1] + ":" + digest(delivery) + suffix
  }

  lemma SuffixOf(digest: Digest, delivery: string, sha: Sha)
    requires |sha| <= 64
    ensures var id := CommitDeliveryId(digest, delivery, sha); |sha| <= |id| && id[|id| - |sha|..] == sha
  {
    var id := CommitDeliveryId(digest, delivery, sha);
    var suffix := ":commit:" + sha;
    assert suffix[8..] == sha;
    if |delivery| + |suffix| <= MAX_DELIVERY_ID {
      assert id == (delivery + ":commit:") + sha;
    } else {
      var prefix := delivery[..MAX_DELIVERY_ID - |suffix| - DIGEST_CHARS - 1] + ":" + digest(delivery);
      assert id == (prefix + ":commit:") + sha;
    }
  }

  /** The derived ids of one delivery fit the column, and differ for different commits of one id length. */
  lemma DerivedIdsFit(digest: Digest, delivery: string, a: Sha, b: Sha)
    requires |a| == |b| <= 64
    ensures |CommitDeliveryId(digest, delivery, a)| <= MAX_DELIVERY_ID
    ensures CommitDeliveryId(digest, delivery, a) == CommitDeliveryId(digest, delivery, b) ==> a == b
  {
    SuffixOf(digest, delivery, a);
    SuffixOf(digest, delivery, b);
  }

  lemma SameSplit(p: string, s: string, q: string, t: string)
    requires |s| == |t|
    ensures p + s == q + t <==> p == q && s == t
  {
    if p + s == q + t {
      assert |p| == |q|;
      assert p == (p + s)[..|p|] && q == (q + t)[..|p|];
      assert s == (p + s)[|p|..] && t == (q + t)[|p|..];
    }
  }

  /** A derived id that fits is the delivery's id, the mark and the commit; a longer one is cut to 255 characters,
      with a digest of the whole delivery id before the mark. */
  lemma DerivedId(digest: Digest, delivery: string, sha: Sha)
    requires |sha| <= 64
    ensures var id := CommitDeliveryId(digest, delivery, sha);
      if |delivery| + 8 + |sha| <= 255 then id == delivery + (":commit:" + sha)
      else |id| == 255 && id == (delivery[..230 - |sha|] + ":" + digest(delivery)) + (":commit:" + sha)
  {
  }

  /** Two deliveries share a derived id, for commits of one length, only if they are one delivery and one commit, as
      far as both ids fit uncut. */
  lemma UncutIdsDiffer(digest: Digest, d1: string, d2: string, a: Sha, b: Sha)
    requires |a| == |b| <= 64 && |d1| + 8 + |a| <= 255 && |d2| + 8 + |b| <= 255
    ensures CommitDeliveryId(digest, d1, a) == CommitDeliveryId(digest, d2, b) <==> d1 == d2 && a == b
  {
    hide CommitDeliveryId;
    DerivedId(digest, d1, a);
    DerivedId(digest, d2, b);
    SameSplit(d1, ":commit:" + a, d2, ":commit:" + b);
    SameSplit(":commit:", a, ":commit:", b);
  }

  /** Cut ids of two deliveries are one id only if the deliveries' digests and first characters agree too. */
  lemma CutIdsDiffer(digest: Digest, d1: string, d2: string, a: Sha, b: Sha)
    requires |a| == |b| <= 64 && |d1| + 8 + |a| > 255 && |d2| + 8 + |b| > 255
    ensures CommitDeliveryId(digest, d1, a) == CommitDeliveryId(digest, d2, b)
      <==> a == b && digest(d1) == digest(d2) && d1[..230 - |a|] == d2[..230 - |a|]
  {
    hide CommitDeliveryId;
    DerivedId(digest, d1, a);
    DerivedId(digest, d2, b);
    var p1, p2 := d1[..230 - |a|] + ":", d2[..230 - |a|] + ":";
    SameSplit(p1 + digest(d1), ":commit:" + a, p2 + digest(d2), ":commit:" + b);
    SameSplit(":commit:", a, ":commit:", b);
    SameSplit(p1, digest(d1), p2, digest(d2));
    SameSplit(d1[..230 - |a|], ":", d2[..230 - |a|], ":");
  }

  // ---- recording -------------------------------------------------------------------------

  datatype CommitEvent = CommitEvent(targetKey: string, head: Sha, receivedAt: Time)

  function NewEvent(sha: Sha, at: Time): CommitEvent { CommitEvent("commit:" + sha, sha, at) }

  predicate Sized(shas: seq<Sha>, length: nat) { length <= 64 && forall i :: 0 <= i < |shas| ==> |shas[i]| == length }

  /** The events a delivery should leave, in the order of its commits. */
  function Wanted(digest: Digest, delivery: string, shas: seq<Sha>): (wanted: seq<(string, Sha)>)
    requires forall i :: 0 <= i < |shas| ==> |shas[i]| <= 64
    ensures |wanted| == |shas|
    ensures forall i :: 0 <= i < |shas| ==> wanted[i] == (CommitDeliveryId(digest, delivery, shas[i]), shas[i])
  {
    seq(|shas|, i requires 0 <= i < |shas| => (CommitDeliveryId(digest, delivery, shas[i]), shas[i]))
  }

  predicate DistinctIds(wanted: seq<(string, Sha)>) {
    forall i, j :: 0 <= i < j < |wanted| ==> wanted[i].0 != wanted[j].0
  }

  lemma WantedDistinct(digest: Digest, delivery: string, shas: seq<Sha>, length: nat)
    requires Distinct(shas) && Sized(shas, length)
    ensures DistinctIds(Wanted(digest, delivery, shas))
    ensures forall i :: 0 <= i < |shas| ==> |Wanted(digest, delivery, shas)[i].0| <= MAX_DELIVERY_ID
  {
    hide CommitDeliveryId;
    var wanted := Wanted(digest, delivery, shas);
    forall i, j | 0 <= i < j < |wanted| ensures wanted[i].0 != wanted[j].0 {
      DerivedIdsFit(digest, delivery, shas[i], shas[j]);
    }
    forall i | 0 <= i < |wanted| ensures |wanted[i].0| <= MAX_DELIVERY_ID {
      DerivedIdsFit(digest, delivery, shas[i], shas[i]);
    }
  }

  /** The rows after one delivery: those there were, and one for each wanted id that was not there. */
  ghost predicate Recorded(rows: map<string, CommitEvent>, rows': map<string, CommitEvent>, wanted: seq<(string,
    Sha)>, at: Time) {
    && (forall id :: id in rows ==> id in rows' && rows'[id] == rows[id])
    && (forall i :: 0 <= i < |wanted| ==>
          && wanted[i].0 in rows'
          && (wanted[i].0 !in rows ==> rows'[wanted[i].0] == CommitEvent("commit:" + wanted[i].1, wanted[i].1, at)))
    && (forall id :: id in rows' && id !in rows ==> exists i :: 0 <= i < |wanted| && id == wanted[i].0)
  }

  class CommitLog {
    var rows: map<string, CommitEvent>

    constructor ()
      ensures rows == map[]
    {
      rows := map[];
    }

    method Record(digest: Digest, delivery: string, shas: seq<Sha>, length: nat, at: Time)
      requires Distinct(shas) && Sized(shas, length)
      modifies this
      ensures Recorded(old(rows), rows, Wanted(digest, delivery, shas), at)
    {
      hide CommitDeliveryId, Recorded, DistinctIds;
      ghost var wanted := Wanted(digest, delivery, shas);
      WantedDistinct(digest, delivery, shas, length);
      NothingRecorded(rows, wanted, at);
      for n := 0 to |shas|
        invariant Recorded(old(rows), rows, wanted[..n], at)
      {
        var id := CommitDeliveryId(digest, delivery, shas[n]);
        RecordedNext(old(rows), rows, wanted, n, at);
        if id in rows { continue; }
        rows := rows[id := NewEvent(shas[n], at)];
      }
      assert wanted[..|shas|] == wanted;
    }

    /** One push delivery: its commit list is read and each of its commits recorded. */
    method RecordPush(digest: Digest, delivery: string, commits: seq<Option<Sha>>, length: nat, at: Time)
      requires IdsOfLength(commits, length)
      modifies this
      ensures PushRecorded(digest, old(rows), rows, delivery, commits, at)
    {
      hide Recorded, PushRecorded, CommitDeliveryId;
      var shas := CommitShas(commits);
      ShasSized(commits, shas, length);
      ghost var was := rows;
      Record(digest, delivery, shas, length, at);
      PushOfShas(digest, was, rows, delivery, commits, shas, length, at);
    }
  }

  /** Every commit id a push names has the same length, at most 64. */
  ghost predicate IdsOfLength(commits: seq<Option<Sha>>, length: nat) {
    length <= 64 && forall sha :: Named(commits, sha) ==> |sha| == length
  }

  /** `sha` has its row, and a new one if there was none. */
  ghost predicate HasRow(
    digest: Digest, rows: map<string, CommitEvent>, rows': map<string, CommitEvent>, delivery: string, sha: Sha, at: Time)
  {
    && |sha| <= 64
    && var id := CommitDeliveryId(digest, delivery, sha);
    && id in rows' && (id !in rows ==> rows'[id] == CommitEvent("commit:" + sha, sha, at))
  }

  ghost predicate IdOfNamed(digest: Digest, delivery: string, commits: seq<Option<Sha>>, id: string) {
    exists sha :: Named(commits, sha) && |sha| <= 64 && id == CommitDeliveryId(digest, delivery, sha)
  }

  /** The rows after a push, in terms of its raw commit list. */
  ghost predicate PushRecorded(
    digest: Digest, rows: map<string, CommitEvent>, rows': map<string, CommitEvent>, delivery: string,
    commits: seq<Option<Sha>>, at: Time)
  {
    && (forall id :: id in rows ==> id in rows' && rows'[id] == rows[id])
    && (forall sha :: Named(commits, sha) ==> HasRow(digest, rows, rows', delivery, sha, at))
    && (forall id :: id in rows' && id !in rows ==> IdOfNamed(digest, delivery, commits, id))
  }

  lemma ShasSized(commits: seq<Option<Sha>>, shas: seq<Sha>, length: nat)
    requires IdsOfLength(commits, length) && forall sha :: sha in shas <==> Named(commits, sha)
    ensures Sized(shas, length)
  {
    forall i | 0 <= i < |shas| ensures |shas[i]| == length { assert shas[i] in shas; }
  }

  lemma PushOfShas(
    digest: Digest, rows: map<string, CommitEvent>, rows': map<string, CommitEvent>, delivery: string,
    commits: seq<Option<Sha>>, shas: seq<Sha>, length: nat, at: Time)
    requires Sized(shas, length) && forall sha :: sha in shas <==> Named(commits, sha)
    requires Recorded(rows, rows', Wanted(digest, delivery, shas), at)
    ensures PushRecorded(digest, rows, rows', delivery, commits, at)
  {
    hide Recorded, Named, HasRow, IdOfNamed, Wanted, CommitDeliveryId;
    RecordedStay(rows, rows', Wanted(digest, delivery, shas), at);
    forall sha | Named(commits, sha) ensures HasRow(digest, rows, rows', delivery, sha, at) {
      var i :| 0 <= i < |shas| && shas[i] == sha;
      WantedRow(digest, rows, rows', delivery, shas, length, at, i);
    }
    forall id | id in rows' && id !in rows ensures IdOfNamed(digest, delivery, commits, id) {
      WantedId(digest, rows, rows', delivery, commits, shas, length, at, id);
    }
  }

  lemma RecordedStay(
    rows: map<string, CommitEvent>, rows': map<string, CommitEvent>, wanted: seq<(string, Sha)>, at: Time)
    requires Recorded(rows, rows', wanted, at)
    ensures forall id :: id in rows ==> id in rows' && rows'[id] == rows[id]
  {
  }

  lemma WantedRow(
    digest: Digest, rows: map<string, CommitEvent>, rows': map<string, CommitEvent>, delivery: string,
    shas: seq<Sha>, length: nat, at: Time, i: nat)
    requires Sized(shas, length) && i < |shas| && Recorded(rows, rows', Wanted(digest, delivery, shas), at)
    ensures HasRow(digest, rows, rows', delivery, shas[i], at)
  {
    hide CommitDeliveryId;
    assert Wanted(digest, delivery, shas)[i].0 in rows';
  }

  lemma WantedId(
    digest: Digest, rows: map<string, CommitEvent>, rows': map<string, CommitEvent>, delivery: string,
    commits: seq<Option<Sha>>, shas: seq<Sha>, length: nat, at: Time, id: string)
    requires Sized(shas, length) && forall sha :: sha in shas <==> Named(commits, sha)
    requires Recorded(rows, rows', Wanted(digest, delivery, shas), at) && id in rows' && id !in rows
    ensures IdOfNamed(digest, delivery, commits, id)
  {
    hide CommitDeliveryId, Named;
    var wanted := Wanted(digest, delivery, shas);
    var i :| 0 <= i < |wanted| && id == wanted[i].0;
    assert shas[i] in shas;
  }

  lemma NamedHasRow(
    digest: Digest, rows: map<string, CommitEvent>, rows': map<string, CommitEvent>, delivery: string,
    commits: seq<Option<Sha>>, at: Time, sha: Sha)
    requires PushRecorded(digest, rows, rows', delivery, commits, at) && Named(commits, sha)
    ensures HasRow(digest, rows, rows', delivery, sha, at)
  {
    hide HasRow, IdOfNamed, Named;
  }

  lemma NewIsNamed(
    digest: Digest, rows: map<string, CommitEvent>, rows': map<string, CommitEvent>, delivery: string,
    commits: seq<Option<Sha>>, at: Time, id: string)
    requires PushRecorded(digest, rows, rows', delivery, commits, at) && id in rows'
    ensures id in rows || IdOfNamed(digest, delivery, commits, id)
    ensures id in rows ==> rows'[id] == rows[id]
  {
    hide HasRow, IdOfNamed, Named;
  }

  lemma NamedOf(digest: Digest, delivery: string, commits: seq<Option<Sha>>, id: string) returns (sha: Sha)
    requires IdOfNamed(digest, delivery, commits, id)
    ensures Named(commits, sha) && |sha| <= 64 && id == CommitDeliveryId(digest, delivery, sha)
  {
    hide Named, CommitDeliveryId;
    sha :| Named(commits, sha) && |sha| <= 64 && id == CommitDeliveryId(digest, delivery, sha);
  }

  /** Delivering the push again, at any later time, changes nothing. */
  lemma PushAgain(
    digest: Digest, a: map<string, CommitEvent>, b: map<string, CommitEvent>, c: map<string, CommitEvent>,
    delivery: string,
    commits: seq<Option<Sha>>, at: Time, later: Time)
    requires PushRecorded(digest, a, b, delivery, commits, at) && PushRecorded(digest, b, c, delivery, commits, later)
    ensures c == b
  {
    hide CommitDeliveryId, Named, IdOfNamed, PushRecorded;
    forall id | id in c ensures id in b && c[id] == b[id] {
      NewIsNamed(digest, b, c, delivery, commits, later, id);
      if IdOfNamed(digest, delivery, commits, id) {
        var sha := NamedOf(digest, delivery, commits, id);
        NamedHasRow(digest, a, b, delivery, commits, at, sha);
      }
    }
    RowsStay(digest, b, c, delivery, commits, later);
  }

  lemma RowsStay(
    digest: Digest, rows: map<string, CommitEvent>, rows': map<string, CommitEvent>, delivery: string,
    commits: seq<Option<Sha>>, at: Time)
    requires PushRecorded(digest, rows, rows', delivery, commits, at)
    ensures forall id :: id in rows ==> id in rows' && rows'[id] == rows[id]
  {
    hide HasRow, IdOfNamed, Named;
  }

  /** Under `id` is the row of a commit the push names. */
  ghost predicate RowOfCommit(
    digest: Digest, rows: map<string, CommitEvent>, delivery: string, commits: seq<Option<Sha>>, id: string)
  {
    && id in rows && Named(commits, rows[id].head) && |rows[id].head| <= 64
    && id == CommitDeliveryId(digest, delivery, rows[id].head)
  }

  ghost predicate CommitHasRow(digest: Digest, rows: map<string, CommitEvent>, delivery: string, sha: Sha, at: Time) {
    && |sha| <= 64
    && var id := CommitDeliveryId(digest, delivery, sha); id in rows && rows[id] == CommitEvent("commit:" + sha, sha, at)
  }

  /** Every named commit has its own new row, every new row is a named commit's, and the other rows stay. */
  ghost predicate OneRowEach(
    digest: Digest, start: map<string, CommitEvent>, rows: map<string, CommitEvent>, delivery: string,
    commits: seq<Option<Sha>>, at: Time)
  {
    && (forall sha :: Named(commits, sha) ==> CommitHasRow(digest, rows, delivery, sha, at))
    && (forall id :: id in rows && id !in start ==> RowOfCommit(digest, rows, delivery, commits, id))
    && (forall id :: id in start ==> id in rows && rows[id] == start[id])
  }

  lemma PushOnce(
    digest: Digest, start: map<string, CommitEvent>, rows: map<string, CommitEvent>, delivery: string,
    commits: seq<Option<Sha>>, at: Time)
    requires PushRecorded(digest, start, rows, delivery, commits, at)
    requires forall id :: id in start ==> !IdOfNamed(digest, delivery, commits, id)
    ensures OneRowEach(digest, start, rows, delivery, commits, at)
  {
    hide CommitDeliveryId, Named, PushRecorded, IdOfNamed;
    forall sha | Named(commits, sha) ensures CommitHasRow(digest, rows, delivery, sha, at) {
      NamedHasRow(digest, start, rows, delivery, commits, at, sha);
      NamedId(digest, delivery, commits, sha);
    }
    forall id | id in rows && id !in start ensures RowOfCommit(digest, rows, delivery, commits, id) {
      NewIsNamed(digest, start, rows, delivery, commits, at, id);
      var sha := NamedOf(digest, delivery, commits, id);
      NamedHasRow(digest, start, rows, delivery, commits, at, sha);
    }
    RowsStay(digest, start, rows, delivery, commits, at);
  }

  lemma NamedId(digest: Digest, delivery: string, commits: seq<Option<Sha>>, sha: Sha)
    requires Named(commits, sha) && |sha| <= 64
    ensures IdOfNamed(digest, delivery, commits, CommitDeliveryId(digest, delivery, sha))
  {
    hide Named, CommitDeliveryId;
  }

  /** From the raw commit list to the rows: however often one push is delivered, every commit id it names that is
      neither missing nor null has exactly one row of its own, from the first delivery, and there is no other new
      row. */
  lemma {:induction false} OneRowPerId(
    digest: Digest, delivery: string, commits: seq<Option<Sha>>, tables: seq<map<string, CommitEvent>>, times: seq<Time>)
    requires |tables| == |times| + 1 > 1
    requires forall k :: 0 <= k < |times| ==> PushRecorded(digest, tables[k], tables[k + 1], delivery, commits, times[k])
    requires forall id :: id in tables[0] ==> !IdOfNamed(digest, delivery, commits, id)
    ensures OneRowEach(digest, tables[0], tables[|times|], delivery, commits, times[0])
    decreases |times|
  {
    hide PushRecorded, OneRowEach, IdOfNamed;
    var n := |times|;
    if n == 1 {
      PushOnce(digest, tables[0], tables[1], delivery, commits, times[0]);
    } else {
      OneRowPerId(digest, delivery, commits, tables[..n], times[..n - 1]);
      assert PushRecorded(digest, tables[n - 2], tables[n - 1], delivery, commits, times[n - 2]);
      assert PushRecorded(digest, tables[n - 1], tables[n], delivery, commits, times[n - 1]);
      PushAgain(digest, tables[n - 2], tables[n - 1], tables[n], delivery, commits, times[n - 2], times[n - 1]);
    }
  }

  /** A commit that two different deliveries name has two rows, one for each, as far as both ids fit uncut. */
  lemma TwoDeliveries(
    digest: Digest, start: map<string, CommitEvent>, mid: map<string, CommitEvent>, end: map<string, CommitEvent>,
    d1: string, d2: string, first: seq<Option<Sha>>, second: seq<Option<Sha>>, length: nat, at: Time, later: Time,
    sha: Sha)
    requires PushRecorded(digest, start, mid, d1, first, at) && PushRecorded(digest, mid, end, d2, second, later)
    requires IdsOfLength(first, length) && Named(first, sha) && Named(second, sha)
    requires d1 != d2 && |d1| + 8 + |sha| <= 255 && |d2| + 8 + |sha| <= 255
    requires d1 + (":commit:" + sha) !in start && d2 + (":commit:" + sha) !in start
    ensures d1 + (":commit:" + sha) != d2 + (":commit:" + sha)
    ensures d1 + (":commit:" + sha) in end && end[d1 + (":commit:" + sha)] == CommitEvent("commit:" + sha, sha, at)
    ensures d2 + (":commit:" + sha) in end && end[d2 + (":commit:" + sha)] == CommitEvent("commit:" + sha, sha, later)
  {
    hide CommitDeliveryId, Named, IdOfNamed, PushRecorded;
    DerivedId(digest, d1, sha);
    DerivedId(digest, d2, sha);
    UncutIdsDiffer(digest, d1, d2, sha, sha);
    NamedHasRow(digest, start, mid, d1, first, at, sha);
    NamedHasRow(digest, mid, end, d2, second, later, sha);
    RowsStay(digest, mid, end, d2, second, later);
    var id := CommitDeliveryId(digest, d2, sha);
    if id in mid {
      NewIsNamed(digest, start, mid, d1, first, at, id);
      var other := NamedOf(digest, d1, first, id);
      UncutIdsDiffer(digest, d1, d2, other, sha);
      assert false;
    }
  }

  lemma NothingRecorded(rows: map<string, CommitEvent>, wanted: seq<(string, Sha)>, at: Time)
    ensures Recorded(rows, rows, wanted[..0], at)
  {
  }

  lemma RecordedNext(
    start: map<string, CommitEvent>, rows: map<string, CommitEvent>, wanted: seq<(string, Sha)>, n: nat, at: Time)
    requires n < |wanted| && DistinctIds(wanted) && Recorded(start, rows, wanted[..n], at)
    ensures var (id, sha) := wanted[n];
      Recorded(start, if id in rows then rows else rows[id := NewEvent(sha, at)], wanted[..n + 1], at)
  {
    var (id, sha) := wanted[n];
    var rows' := if id in rows then rows else rows[id := NewEvent(sha, at)];
    var longer := wanted[..n + 1];
    assert forall j :: 0 <= j < n ==> wanted[..n][j].0 == wanted[j].0 && wanted[j].0 != id;
    forall i | 0 <= i < |longer|
      ensures longer[i].0 in rows' && (longer[i].0 !in start ==> rows'[longer[i].0] == NewEvent(longer[i].1, at))
    {
      if i < n { assert wanted[..n][i] == longer[i]; }
    }
    forall c | c in rows' && c !in start ensures exists i :: 0 <= i < |longer| && c == longer[i].0 {
      if c == id {
        assert c == longer[n].0;
      } else {
        var i :| 0 <= i < n && c == wanted[..n][i].0;
        assert c == longer[i].0;
      }
    }
  }

  /** Recording a push again, at any later time, changes nothing. */
  lemma ReplayChangesNothing(
    start: map<string, CommitEvent>, rows: map<string, CommitEvent>, again: map<string, CommitEvent>,
    wanted: seq<(string, Sha)>, at: Time, later: Time)
    requires Recorded(start, rows, wanted, at) && Recorded(rows, again, wanted, later)
    ensures again == rows
  {
    assert again.Keys == rows.Keys;
  }

  /** Any number of replays of a push, into tables each recorded on top of the one before, leave exactly one
      row per commit id: under its derived id, carrying that commit, and no other new row. */
  lemma {:induction false} OneRowPerCommit(
    digest: Digest, delivery: string, shas: seq<Sha>, length: nat, tables: seq<map<string, CommitEvent>>,
      times: seq<Time>)
    requires Distinct(shas) && Sized(shas, length) && |tables| == |times| + 1 > 1
    requires forall k :: 0 <= k < |times| ==> Recorded(tables[k], tables[k + 1], Wanted(digest, delivery, shas), times[k])
    requires forall i :: 0 <= i < |shas| ==> CommitDeliveryId(digest, delivery, shas[i]) !in tables[0]
    ensures var rows := tables[|times|];
      && (forall i :: 0 <= i < |shas| ==>
            var id := CommitDeliveryId(digest, delivery, shas[i]);
            id in rows && rows[id] == CommitEvent("commit:" + shas[i], shas[i], times[0]))
      && (forall id :: id in tables[0] ==> id in rows && rows[id] == tables[0][id])
      && |rows.Keys - tables[0].Keys| == |shas|
    decreases |times|
  {
    hide CommitDeliveryId, DistinctIds;
    var wanted := Wanted(digest, delivery, shas);
    if |times| == 1 {
      WantedDistinct(digest, delivery, shas, length);
      NewKeys(tables[0], tables[1], wanted, times[0]);
    } else {
      var n := |times|;
      OneRowPerCommit(digest, delivery, shas, length, tables[..n], times[..n - 1]);
      ReplayStep(tables, wanted, times);
    }
  }

  lemma ReplayStep(tables: seq<map<string, CommitEvent>>, wanted: seq<(string, Sha)>, times: seq<Time>)
    requires |tables| == |times| + 1 > 2
    requires forall k :: 0 <= k < |times| ==> Recorded(tables[k], tables[k + 1], wanted, times[k])
    ensures tables[|times|] == tables[|times| - 1]
  {
    var n := |times|;
    assert Recorded(tables[n - 2], tables[n - 1], wanted, times[n - 2]);
    assert Recorded(tables[n - 1], tables[n], wanted, times[n - 1]);
    ReplayChangesNothing(tables[n - 2], tables[n - 1], tables[n], wanted, times[n - 2], times[n - 1]);
  }

  lemma NewKeys(start: map<string, CommitEvent>, rows: map<string, CommitEvent>, wanted: seq<(string, Sha)>, at: Time)
    requires Recorded(start, rows, wanted, at) && DistinctIds(wanted)
    requires forall i :: 0 <= i < |wanted| ==> wanted[i].0 !in start
    ensures |rows.Keys - start.Keys| == |wanted|
  {
    Counted(wanted);
    assert rows.Keys - start.Keys == IdsOf(wanted);
  }

  ghost function IdsOf(wanted: seq<(string, Sha)>): set<string> { set i | 0 <= i < |wanted| :: wanted[i].0 }

  lemma {:induction false} Counted(wanted: seq<(string, Sha)>)
    requires DistinctIds(wanted)
    ensures |IdsOf(wanted)| == |wanted|
  {
    if |wanted| > 0 {
      var init, last := wanted[..|wanted| - 1], wanted[|wanted| - 1];
      Counted(init);
      assert IdsOf(wanted) == IdsOf(init) + {last.0};
      assert last.0 !in IdsOf(init);
    }
  }
}
