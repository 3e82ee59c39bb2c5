/**
 * The `/api/checkins` routes: list newest first, and create, which deletes
 * the passenger's earlier check-in before inserting the new one.
 */
module CheckinsRoute {
  import opened Wrappers
  import Seqs

  datatype CheckinRow = CheckinRow(id: nat, passengerId: int, passengerName: string,
                                   location: string, timestamp: int)

  function PassengerOf(row: CheckinRow): int { row.passengerId }

  /** Sort key putting the newest timestamp first. */
  function NewestFirst(row: CheckinRow): int { -row.timestamp }

  /** The rows after deleting the passenger's rows and inserting `row`. */
  function AfterCheckin(rows: seq<CheckinRow>, row: CheckinRow): (r: seq<CheckinRow>)
    ensures |r| > 0 && r[|r| - 1] == row
    ensures forall i :: 0 <= i < |r| && r[i].passengerId == row.passengerId ==> i == |r| - 1
    ensures Seqs.SubsequenceOf(r[..|r| - 1], rows)
    ensures forall x: CheckinRow :: x.passengerId != row.passengerId ==> multiset(r)[x] == multiset(rows)[x]
  {
    Seqs.ReplaceByKey(rows, row, PassengerOf)
  }

  /** At most one row per passenger. */
  ghost predicate OnePerPassenger(rows: seq<CheckinRow>) {
    forall i, j :: 0 <= i < j < |rows| ==> rows[i].passengerId != rows[j].passengerId
  }

  /** A check-in keeps the table at one row per passenger. */
  lemma CheckinKeepsOnePerPassenger(rows: seq<CheckinRow>, row: CheckinRow)
    requires OnePerPassenger(rows)
    ensures OnePerPassenger(AfterCheckin(rows, row))
  {
    var r := AfterCheckin(rows, row);
    var w := Seqs.WithoutKey(rows, row.passengerId, PassengerOf);
    assert r == w + [row];
    forall i, j | 0 <= i < j < |r| ensures r[i].passengerId != r[j].passengerId {
      assert r[i] == w[i];
      if j < |r| - 1 {
        assert r[j] == w[j];
        SubsequenceDistinct(w, rows, i, j);
      }
    }
  }

  /** Two positions of a subsequence of a one-per-passenger table hold different passengers. */
  lemma {:induction false} SubsequenceDistinct(w: seq<CheckinRow>, rows: seq<CheckinRow>, i: nat, j: nat)
    requires Seqs.SubsequenceOf(w, rows) && OnePerPassenger(rows)
    requires i < j < |w|
    ensures w[i].passengerId != w[j].passengerId
    decreases |rows|
  {
    assert rows != [];
    var tail := rows[1..];
    assert OnePerPassenger(tail) by {
      forall a, b | 0 <= a < b < |tail| ensures tail[a].passengerId != tail[b].passengerId {
        assert tail[a] == rows[a + 1] && tail[b] == rows[b + 1];
      }
    }
    if w[0] == rows[0] && Seqs.SubsequenceOf(w[1..], tail) {
      if i == 0 {
        assert w[j] == w[1..][j - 1];
        Seqs.SubsequenceMember(w[1..], tail, j - 1);
        var k :| 0 <= k < |tail| && tail[k] == w[j];
        assert rows[k + 1] == w[j];
      } else {
        SubsequenceDistinct(w[1..], tail, i - 1, j - 1);
      }
    } else {
      SubsequenceDistinct(w, tail, i, j);
    }
  }


  /** Two check-ins by the same passenger leave exactly one row for them: the second. */
  lemma SecondCheckinWins(rows: seq<CheckinRow>, first: CheckinRow, second: CheckinRow)
    requires first.passengerId == second.passengerId
    ensures AfterCheckin(AfterCheckin(rows, first), second) == AfterCheckin(rows, second)
    ensures var r := AfterCheckin(rows, second);
      forall i :: 0 <= i < |r| && r[i].passengerId == second.passengerId ==>
        r[i] == second && r[i].location == second.location
  {
    Seqs.ReplaceTwice(rows, first, second, PassengerOf);
  }

  /** The checkins table with its SERIAL id counter. */
  class CheckinsTable {
    var rows: seq<CheckinRow>
    var nextId: nat

    ghost predicate Valid()
      reads this
    {
      forall i :: 0 <= i < |rows| ==> rows[i].id < nextId
    }

    constructor()
      ensures Valid() && rows == [] && nextId == 1
    {
      rows := [];
      nextId := 1;
    }

    /** `GET /`: all rows, newest timestamp first. */
    function List(): (r: seq<CheckinRow>)
      reads this
      ensures multiset(r) == multiset(rows)
      ensures forall i, j :: 0 <= i < j < |r| ==> r[i].timestamp >= r[j].timestamp
    {
      var sorted := Seqs.SortBy(rows, NewestFirst);
      assert forall i, j :: 0 <= i < j < |sorted| ==> NewestFirst(sorted[i]) <= NewestFirst(sorted[j]);
      sorted
    }

    /** The DELETE statement: every row of that passenger goes. */
    method DeleteByPassenger(passengerId: int)
      requires Valid()
      modifies this`rows
      ensures Valid()
      ensures rows == Seqs.WithoutKey(old(rows), passengerId, PassengerOf)
    {
      Seqs.WithoutKeyCount(rows, passengerId, PassengerOf);
      rows := Seqs.WithoutKey(rows, passengerId, PassengerOf);
      assert forall x :: x in rows ==> x in old(rows) by {
        forall x | x in rows ensures x in old(rows) {
          assert multiset(rows)[x] > 0;
        }
      }
    }

    /** The INSERT statement: a new row with the next id and the current time. */
    method Insert(passengerId: int, passengerName: string, location: string, now: int) returns (id: nat)
      requires Valid()
      modifies this
      ensures Valid()
      ensures id == old(nextId) && nextId == old(nextId) + 1
      ensures rows == old(rows) + [CheckinRow(id, passengerId, passengerName, location, now)]
    {
      id := nextId;
      rows := rows + [CheckinRow(id, passengerId, passengerName, location, now)];
      nextId := nextId + 1;
    }

    /**
     * `POST /`: delete the passenger's rows, insert the new one and answer
     * it as re-read by id.
     */
    method Create(passengerId: int, passengerName: string, location: string, now: int)
      returns (checkin: CheckinRow)
      requires Valid()
      modifies this
      ensures Valid()
      ensures checkin == CheckinRow(old(nextId), passengerId, passengerName, location, now)
      ensures nextId == old(nextId) + 1
      ensures rows == AfterCheckin(old(rows), checkin)
      ensures OnePerPassenger(old(rows)) ==> OnePerPassenger(rows)
    {
      DeleteByPassenger(passengerId);
      var id := Insert(passengerId, passengerName, location, now);
      var found := FindById(rows, id);
      checkin := rows[|rows| - 1];
      assert found == Some(checkin) by {
        forall i | 0 <= i < |rows| - 1 ensures rows[i].id != id {
          assert rows[i].id < id;
        }
      }
      if OnePerPassenger(old(rows)) {
        CheckinKeepsOnePerPassenger(old(rows), checkin);
      }
    }
  }

  /** The re-read by id: the first row with that id, if any. */
  function FindById(rows: seq<CheckinRow>, id: nat): (r: Option<CheckinRow>)
    ensures r.None? <==> forall i :: 0 <= i < |rows| ==> rows[i].id != id
    ensures r.Some? ==> r.value.id == id && r.value in rows
    ensures r.Some? && rows[|rows| - 1].id == id && (forall i :: 0 <= i < |rows| - 1 ==> rows[i].id != id) ==>
      r.value == rows[|rows| - 1]
  {
    Seqs.FindFirst(rows, (c: CheckinRow) => c.id == id)
  }
}
