/** The `audit_results` table and the three things the server does with it:
    `POST /api/audit/save` appends a row, the certificate routes look one row
    up for its owner, and `GET /api/audit/history` lists the owner's latest
    ten. */
module Audits {
  import opened Wrappers
  import Assessment

  /** One row. `missingItems` is the stored JSON list, `None` for SQL NULL;
      `createdAt` is the `CURRENT_TIMESTAMP` of the insert, as a number. */
  datatype AuditRow = AuditRow(
    id: int,
    userId: int,
    sectorName: string,
    sectorType: string,
    companySize: string,
    readinessScore: int,
    missingItems: Option<seq<string>>,
    createdAt: int)

  /** Row ids are strictly increasing in table order (AUTOINCREMENT), hence distinct. */
  ghost predicate IncreasingIds(rows: seq<AuditRow>)
  {
    forall i, j :: 0 <= i < j < |rows| ==> rows[i].id < rows[j].id
  }

  // ---------------------------------------------------------------- lookup

  /** `SELECT * FROM audit_results WHERE id = ? AND user_id = ?`: the first row
      with that id owned by that user, if any. */
  function FindOwned(rows: seq<AuditRow>, id: int, user: int): (r: Option<AuditRow>)
    ensures r.Some? ==> r.value in rows && r.value.id == id && r.value.userId == user
    ensures r.None? <==> forall k :: 0 <= k < |rows| ==> !(rows[k].id == id && rows[k].userId == user)
  {
    if rows == [] then None
    else if rows[0].id == id && rows[0].userId == user then Some(rows[0])
    else FindOwned(rows[1..], id, user)
  }

  /** With distinct ids an audit is visible to its owner and to nobody else. */
  lemma OwnerOnly(rows: seq<AuditRow>, k: int, user: int)
    requires IncreasingIds(rows) && 0 <= k < |rows|
    ensures FindOwned(rows, rows[k].id, user) == if user == rows[k].userId then Some(rows[k]) else None
  {
    var r := FindOwned(rows, rows[k].id, user);
    if r.Some? {
      var j :| 0 <= j < |rows| && rows[j] == r.value;
      assert j < k ==> rows[j].id < rows[k].id;
      assert k < j ==> rows[k].id < rows[j].id;
    }
  }

  // ---------------------------------------------------------------- history

  /** `WHERE user_id = ?`, in table order. */
  function Own(rows: seq<AuditRow>, user: int): (r: seq<AuditRow>)
    ensures |r| <= |rows|
    ensures forall x :: x in r <==> x in rows && x.userId == user
  {
    if rows == [] then []
    else if rows[0].userId == user then [rows[0]] + Own(rows[1..], user)
    else Own(rows[1..], user)
  }

  ghost predicate NewestFirst(s: seq<AuditRow>)
  {
    forall i, j :: 0 <= i < j < |s| ==> s[i].createdAt >= s[j].createdAt
  }

  /** Places a row in front of the first row that is not newer than it. */
  function Insert(x: AuditRow, s: seq<AuditRow>): (r: seq<AuditRow>)
    requires NewestFirst(s)
    ensures NewestFirst(r)
    ensures |r| == |s| + 1
    ensures r[0] == if s == [] || x.createdAt >= s[0].createdAt then x else s[0]
  {
    if s == [] || x.createdAt >= s[0].createdAt then [x] + s
    else [s[0]] + Insert(x, s[1..])
  }

  /** `ORDER BY created_at DESC`; rows with equal timestamps keep table order. */
  function NewestFirstOrder(s: seq<AuditRow>): (r: seq<AuditRow>)
    ensures NewestFirst(r)
    ensures |r| == |s|
  {
    if s == [] then []
    else Insert(s[0], NewestFirstOrder(s[1..]))
  }

  /** The ordering is a permutation: every row keeps its multiplicity. */
  lemma {:induction false} NewestFirstPermutes(s: seq<AuditRow>)
    ensures multiset(NewestFirstOrder(s)) == multiset(s)
  {
    if s != [] {
      var t := NewestFirstOrder(s[1..]);
      NewestFirstPermutes(s[1..]);
      InsertPermutes(s[0], t);
      assert s == [s[0]] + s[1..];
      assert multiset(s) == multiset{s[0]} + multiset(s[1..]);
    }
  }

  lemma {:induction false} InsertPermutes(x: AuditRow, s: seq<AuditRow>)
    requires NewestFirst(s)
    ensures multiset(Insert(x, s)) == multiset(s) + multiset{x}
  {
    if s != [] && x.createdAt < s[0].createdAt {
      InsertPermutes(x, s[1..]);
      assert s == [s[0]] + s[1..];
    }
  }

  /** Hence the ordering lists exactly the rows it was given. */
  lemma NewestFirstMembers(s: seq<AuditRow>, y: AuditRow)
    ensures y in NewestFirstOrder(s) <==> y in s
  {
    NewestFirstPermutes(s);
    assert y in NewestFirstOrder(s) <==> y in multiset(NewestFirstOrder(s));
    assert y in s <==> y in multiset(s);
  }

  /** One history entry: the row, with `missing_items || '[]'` decoded. */
  datatype HistoryEntry = HistoryEntry(row: AuditRow, missingItems: seq<string>)

  function Decode(row: AuditRow): (e: HistoryEntry)
    ensures e.row == row
    ensures row.missingItems.Some? ==> e.missingItems == row.missingItems.value
    ensures row.missingItems.None? ==> e.missingItems == []
  {
    HistoryEntry(row, row.missingItems.GetOr([]))
  }

  function DecodeAll(s: seq<AuditRow>): (r: seq<HistoryEntry>)
    ensures |r| == |s| && forall i :: 0 <= i < |s| ==> r[i] == Decode(s[i])
  {
    if s == [] then [] else [Decode(s[0])] + DecodeAll(s[1..])
  }

  /** The caller's rows, newest first, cut to ten. */
  function Newest(rows: seq<AuditRow>, user: int): (top: seq<AuditRow>)
    ensures |top| == if |Own(rows, user)| < 10 then |Own(rows, user)| else 10
    ensures top <= NewestFirstOrder(Own(rows, user))
  {
    var sorted := NewestFirstOrder(Own(rows, user));
    if |sorted| < 10 then sorted else sorted[..10]
  }

  /** Every listed row is one of the caller's. */
  lemma NewestOwned(rows: seq<AuditRow>, user: int, i: int)
    requires 0 <= i < |Newest(rows, user)|
    ensures Newest(rows, user)[i] in rows && Newest(rows, user)[i].userId == user
  {
    var sorted := NewestFirstOrder(Own(rows, user));
    var y := Newest(rows, user)[i];
    assert y == sorted[i];
    NewestFirstMembers(Own(rows, user), y);
  }

  /** The history route: only the caller's rows, newest first, at most ten. */
  function History(rows: seq<AuditRow>, user: int): (h: seq<HistoryEntry>)
    ensures |h| == if |Own(rows, user)| < 10 then |Own(rows, user)| else 10
    ensures forall i :: 0 <= i < |h| ==> h[i].row in rows && h[i].row.userId == user
    ensures forall i :: 0 <= i < |h| ==> h[i] == Decode(h[i].row)
    ensures forall i, j :: 0 <= i < j < |h| ==> h[i].row.createdAt >= h[j].row.createdAt
  {
    var top := Newest(rows, user);
    var h := DecodeAll(top);
    assert forall i :: 0 <= i < |h| ==> h[i].row == top[i];
    assert forall i :: 0 <= i < |h| ==> h[i].row in rows && h[i].row.userId == user by {
      forall i | 0 <= i < |h|
        ensures h[i].row in rows && h[i].row.userId == user
      {
        NewestOwned(rows, user, i);
      }
    }
    h
  }

  /** An own row sits somewhere in the sorted list. */
  lemma SortedPosition(rows: seq<AuditRow>, user: int, x: AuditRow) returns (k: int)
    requires x in rows && x.userId == user
    ensures 0 <= k < |NewestFirstOrder(Own(rows, user))| && NewestFirstOrder(Own(rows, user))[k] == x
  {
    NewestFirstMembers(Own(rows, user), x);
    k :| 0 <= k < |NewestFirstOrder(Own(rows, user))| && NewestFirstOrder(Own(rows, user))[k] == x;
  }

  /** The ten are the newest: an own row left out is no newer than any listed. */
  lemma {:induction false} HistoryKeepsNewest(rows: seq<AuditRow>, user: int, x: AuditRow)
    requires x in rows && x.userId == user
    requires forall i :: 0 <= i < |History(rows, user)| ==> History(rows, user)[i].row != x
    ensures forall i :: 0 <= i < |History(rows, user)| ==> x.createdAt <= History(rows, user)[i].row.createdAt
  {
    var sorted := NewestFirstOrder(Own(rows, user));
    var top := Newest(rows, user);
    var h := History(rows, user);
    var k := SortedPosition(rows, user, x);
    assert h == DecodeAll(top);
    assert k >= |top|;
    forall i | 0 <= i < |h|
      ensures x.createdAt <= h[i].row.createdAt
    {
      assert h[i].row == top[i] == sorted[i];
    }
  }

  /** Every own row is listed while there are at most ten. */
  lemma HistoryComplete(rows: seq<AuditRow>, user: int, x: AuditRow)
    requires x in rows && x.userId == user && |Own(rows, user)| <= 10
    ensures exists i :: 0 <= i < |History(rows, user)| && History(rows, user)[i].row == x
  {
    var top := Newest(rows, user);
    var k := SortedPosition(rows, user, x);
    assert History(rows, user) == DecodeAll(top);
    assert History(rows, user)[k].row == x;
  }

  // ---------------------------------------------------------------- table

  /** The table with its AUTOINCREMENT counter. */
  class AuditTable {
    var rows: seq<AuditRow>
    var nextId: int

    ghost predicate Valid()
      reads this
    {
      nextId > 0 && IncreasingIds(rows) && forall k :: 0 <= k < |rows| ==> 0 < rows[k].id < nextId
    }

    constructor ()
      ensures Valid() && rows == [] && nextId == 1
    {
      rows := [];
      nextId := 1;
    }

    /** `POST /api/audit/save`: the body's five fields become one new row of
        the caller's, stamped `now`; nothing says which wizard produced it. */
    method Save(user: int, body: Assessment.Draft, now: int) returns (id: int)
      requires Valid()
      modifies this
      ensures Valid()
      ensures id == old(nextId) && nextId == id + 1
      ensures rows == old(rows) + [AuditRow(id, user, body.sectorName, body.sectorType, body.size,
                                            body.readinessScore, Some(body.missingItems), now)]
    {
      id := nextId;
      rows := rows + [AuditRow(id, user, body.sectorName, body.sectorType, body.size,
                               body.readinessScore, Some(body.missingItems), now)];
      nextId := nextId + 1;
    }
  }

  /** A freshly saved audit is found by its owner's lookups and by nobody else's. */
  lemma SavedThenFound(rows: seq<AuditRow>, row: AuditRow, user: int)
    requires IncreasingIds(rows) && forall k :: 0 <= k < |rows| ==> rows[k].id < row.id
    ensures IncreasingIds(rows + [row])
    ensures FindOwned(rows + [row], row.id, user) == if user == row.userId then Some(row) else None
  {
    OwnerOnly(rows + [row], |rows|, user);
  }
}
