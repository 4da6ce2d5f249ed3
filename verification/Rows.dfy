/** A list of records held in a slice: a backing array and a length, changed in place. */
module Rows {
  import opened Wire

  // ---------- what the operations mean on the list ----------

  /** The list with `row` in place of the first record of the same id, or at the end. */
  function Upserted<T>(key: T -> string, rows: seq<T>, row: T): seq<T> {
    if |rows| == 0 then [row]
    else if key(rows[0]) == key(row) then [row] + rows[1..]
    else [rows[0]] + Upserted(key, rows[1..], row)
  }

  /** The records with another id, in their order. */
  function Without<T>(key: T -> string, rows: seq<T>, id: string): seq<T> {
    if |rows| == 0 then []
    else if key(rows[0]) == id then Without(key, rows[1..], id)
    else [rows[0]] + Without(key, rows[1..], id)
  }

  function Ids<T>(key: T -> string, rows: seq<T>): seq<string> {
    seq(|rows|, i requires 0 <= i < |rows| => key(rows[i]))
  }

  function Lookup<T>(key: T -> string, rows: seq<T>, id: string): Option<T> {
    if |rows| == 0 then None
    else if key(rows[0]) == id then Some(rows[0])
    else Lookup(key, rows[1..], id)
  }

  ghost predicate UniqueIds<T>(key: T -> string, rows: seq<T>) {
    forall i, j | 0 <= i < j < |rows| :: key(rows[i]) != key(rows[j])
  }

  /** What upsert does when the first record of the same id stands at i, or nowhere when i is the end. */
  lemma {:induction false} UpsertedAt<T>(key: T -> string, rows: seq<T>, row: T, i: nat)
    requires i <= |rows| && forall j | 0 <= j < i :: key(rows[j]) != key(row)
    requires i < |rows| ==> key(rows[i]) == key(row)
    ensures Upserted(key, rows, row) == if i < |rows| then rows[i := row] else rows + [row]
  {
    if i > 0 { UpsertedAt(key, rows[1..], row, i - 1); }
  }

  /** Upsert keeps every id at its position and adds at most one, at the end. */
  lemma {:induction false} UpsertKeepsPositions<T>(key: T -> string, rows: seq<T>, row: T)
    ensures Ids(key, Upserted(key, rows, row)) ==
            if Lookup(key, rows, key(row)).Some? then Ids(key, rows) else Ids(key, rows) + [key(row)]
  {
    if |rows| > 0 && key(rows[0]) != key(row) {
      UpsertKeepsPositions(key, rows[1..], row);
      var more := Upserted(key, rows[1..], row);
      assert Ids(key, Upserted(key, rows, row)) == [key(rows[0])] + Ids(key, more);
      assert Ids(key, rows) == [key(rows[0])] + Ids(key, rows[1..]);
    }
  }

  lemma {:induction false} LookupFinds<T>(key: T -> string, rows: seq<T>, id: string)
    ensures Lookup(key, rows, id).Some? <==> exists i :: 0 <= i < |rows| && key(rows[i]) == id
  {
    if |rows| > 0 {
      LookupFinds(key, rows[1..], id);
      if key(rows[0]) != id && exists i :: 0 <= i < |rows| && key(rows[i]) == id {
        var i :| 0 <= i < |rows| && key(rows[i]) == id;
        assert rows[1..][i - 1] == rows[i];
      }
    }
  }

  lemma UpsertKeepsUnique<T>(key: T -> string, rows: seq<T>, row: T)
    requires UniqueIds(key, rows)
    ensures UniqueIds(key, Upserted(key, rows, row))
  {
    var after := Upserted(key, rows, row);
    UpsertKeepsPositions(key, rows, row);
    LookupFinds(key, rows, key(row));
    forall i, j | 0 <= i < j < |after| ensures key(after[i]) != key(after[j]) {
      assert |Ids(key, after)| == |after|;
      assert key(after[i]) == Ids(key, after)[i] && key(after[j]) == Ids(key, after)[j];
    }
  }

  /** As a map from ids, upsert is an update. */
  lemma {:induction false} UpsertIsUpdate<T>(key: T -> string, rows: seq<T>, row: T, id: string)
    ensures Lookup(key, Upserted(key, rows, row), id) == if id == key(row) then Some(row) else Lookup(key, rows, id)
  {
    if |rows| > 0 && key(rows[0]) != key(row) {
      UpsertIsUpdate(key, rows[1..], row, id);
    }
  }

  /** As a map from ids, delete is a removal. */
  lemma {:induction false} DeleteIsRemoval<T>(key: T -> string, rows: seq<T>, gone: string, id: string)
    ensures Lookup(key, Without(key, rows, gone), id) == if id == gone then None else Lookup(key, rows, id)
  {
    if |rows| > 0 { DeleteIsRemoval(key, rows[1..], gone, id); }
  }

  lemma ConsAppend<T>(x: T, a: seq<T>, b: seq<T>)
    ensures [x] + (a + b) == ([x] + a) + b
  {
  }

  lemma {:induction false} WithoutAppend<T>(key: T -> string, a: seq<T>, b: seq<T>, id: string)
    ensures Without(key, a + b, id) == Without(key, a, id) + Without(key, b, id)
  {
    if |a| == 0 {
      assert a + b == b;
    } else {
      WithoutAppend(key, a[1..], b, id);
      assert (a + b)[1..] == a[1..] + b;
      ConsAppend(a[0], Without(key, a[1..], id), Without(key, b, id));
    }
  }

  /** Deleting what was just upserted is deleting what was there before. */
  lemma {:induction false} DeleteUndoesUpsert<T>(key: T -> string, rows: seq<T>, row: T)
    ensures Without(key, Upserted(key, rows, row), key(row)) == Without(key, rows, key(row))
  {
    if |rows| > 0 && key(rows[0]) != key(row) {
      DeleteUndoesUpsert(key, rows[1..], row);
    }
  }

  lemma {:induction false} DeleteKeepsUnique<T>(key: T -> string, rows: seq<T>, id: string)
    requires UniqueIds(key, rows)
    ensures UniqueIds(key, Without(key, rows, id))
    ensures forall r | r in Without(key, rows, id) :: r in rows && key(r) != id
  {
    if |rows| > 0 {
      var rest := Without(key, rows[1..], id);
      DeleteKeepsUnique(key, rows[1..], id);
      if key(rows[0]) != id {
        forall r | r in rest ensures key(r) != key(rows[0]) {
          var i :| 0 <= i < |rows[1..]| && rows[1..][i] == r;
          assert rows[i + 1] == r;
        }
        assert Without(key, rows, id) == [rows[0]] + rest;
        assert forall j | 0 <= j < |rest| :: rest[j] in rest;
      }
    }
  }

  // ---------- the slice ----------

  class Table<T(0)> {
    const key: T -> string
    var data: array<T>
    var len: nat

    ghost predicate Valid()
      reads this
    {
      len <= data.Length
    }

    function Contents(): seq<T>
      requires Valid()
      reads this, data
    {
      data[..len]
    }

    constructor (key: T -> string)
      ensures Valid() && fresh(data) && Contents() == [] && this.key == key
    {
      this.key := key;
      data := new T[0];
      len := 0;
    }

    /** Replaces the whole list, as decoding a file does. */
    method Load(rows: seq<T>)
      modifies this
      ensures Valid() && fresh(data) && Contents() == rows
    {
      data := new T[|rows|](i requires 0 <= i < |rows| => rows[i]);
      len := |rows|;
    }

    method Upsert(row: T)
      requires Valid()
      modifies this, data
      ensures Valid() && (data == old(data) || fresh(data))
      ensures Contents() == Upserted(key, old(Contents()), row)
    {
      var i := 0;
      while i < len
        invariant 0 <= i <= len && data == old(data) && len == old(len) && data[..] == old(data[..])
        invariant forall j | 0 <= j < i :: key(Contents()[j]) != key(row)
      {
        if key(data[i]) == key(row) {
          UpsertedAt(key, Contents(), row, i);
          data[i] := row;
          return;
        }
        i := i + 1;
      }
      UpsertedAt(key, Contents(), row, len);
      Append(row);
    }

    /** Appends in place while the backing array has room, and into a larger copy when it has not. */
    method Append(row: T)
      requires Valid()
      modifies this, data
      ensures Valid() && (data == old(data) || fresh(data))
      ensures Contents() == old(Contents()) + [row]
    {
      if len == data.Length {
        var bigger := new T[2 * len + 1];
        forall i | 0 <= i < len { bigger[i] := data[i]; }
        data := bigger;
      }
      data[len] := row;
      len := len + 1;
    }

    /** Compacts the kept records to the front of the backing array they are read from. */
    method Delete(id: string)
      requires Valid()
      modifies this, data
      ensures Valid() && data == old(data)
      ensures Contents() == Without(key, old(Contents()), id)
    {
      ghost var was := Contents();
      var dst := 0;
      for i := 0 to len
        invariant 0 <= dst <= i && data == old(data) && len == old(len)
        invariant data[..dst] == Without(key, was[..i], id)
        invariant forall j | i <= j < len :: data[j] == was[j]
      {
        var v := data[i];
        WithoutAppend(key, was[..i], [v], id);
        assert was[..i + 1] == was[..i] + [v];
        if key(v) != id {
          data[dst] := v;
          dst := dst + 1;
          assert data[..dst] == data[..dst - 1] + [v];
        } else {
          assert Without(key, [v], id) == [];
        }
      }
      assert was[..len] == was;
      len := dst;
    }

    /** A copy on an array of its own. */
    method Copy() returns (copy: array<T>)
      requires Valid()
      ensures fresh(copy) && copy[..] == Contents()
    {
      copy := new T[len](i requires 0 <= i < len && Valid() reads this, data => data[i]);
    }
  }
}
