/**
 * `DatabaseManager`: one JSON file per entity under the data directory, each holding
 * a list of records, with read / find / insert / update / delete over that list.
 */
module Database {
  import opened Common
  import opened Errors

  /** A JSON value as stored in a record. */
  datatype Value =
    | VNull
    | VBool(b: bool)
    | VInt(i: int)
    | VReal(r: real)
    | VStr(s: string)
    | VObj(fields: map<string, Value>)

  type Record = map<string, Value>

  /** What is on disk for one entity. */
  datatype TableFile =
    | Missing
    | Malformed          // not valid JSON
    | Rows(rows: seq<Record>)

  /** `item.get(key)`: the field, or `None` when absent. */
  function Field(item: Record, key: string): Value {
    if key in item then item[key] else VNull
  }

  /** `all(item.get(k) == v for k, v in filters.items())`. */
  predicate Matches(item: Record, filters: map<string, Value>) {
    forall k | k in filters :: Field(item, k) == filters[k]
  }

  /** No filters match every record. */
  lemma EmptyFiltersMatchAll(item: Record)
    ensures Matches(item, map[])
  {
  }

  /** The records whose match against `filters` is `keep`, in their original order. */
  function Where(rows: seq<Record>, filters: map<string, Value>, keep: bool): (out: seq<Record>)
    ensures |out| <= |rows|
    ensures forall r | r in out :: r in rows && Matches(r, filters) == keep
    ensures forall r | r in rows && Matches(r, filters) == keep :: r in out
  {
    if |rows| == 0 then []
    else
      var rest := Where(rows[1..], filters, keep);
      if Matches(rows[0], filters) == keep then [rows[0]] + rest else rest
  }

  /** Selection distributes over concatenation, so it preserves order. */
  lemma {:induction false} WhereAppend(a: seq<Record>, b: seq<Record>, filters: map<string, Value>, keep: bool)
    ensures Where(a + b, filters, keep) == Where(a, filters, keep) + Where(b, filters, keep)
  {
    if |a| > 0 {
      assert (a + b)[0] == a[0] && (a + b)[1..] == a[1..] + b;
      WhereAppend(a[1..], b, filters, keep);
      if Matches(a[0], filters) == keep {
        assert [a[0]] + (Where(a[1..], filters, keep) + Where(b, filters, keep))
            == ([a[0]] + Where(a[1..], filters, keep)) + Where(b, filters, keep);
      }
    } else {
      assert a + b == b;
    }
  }

  /** Every record is either kept or removed: the two selections split the list. */
  lemma {:induction false} WhereSplits(rows: seq<Record>, filters: map<string, Value>)
    ensures |Where(rows, filters, true)| + |Where(rows, filters, false)| == |rows|
  {
    if |rows| > 0 {
      WhereSplits(rows[1..], filters);
    }
  }

  /** Nothing is removed exactly when no record matches. */
  lemma {:induction false} NothingRemoved(rows: seq<Record>, filters: map<string, Value>)
    ensures Where(rows, filters, false) == rows <==> forall r | r in rows :: !Matches(r, filters)
  {
    if |rows| > 0 {
      NothingRemoved(rows[1..], filters);
      assert rows == [rows[0]] + rows[1..];
      if !Matches(rows[0], filters) {
        assert forall r | r in rows :: r == rows[0] || r in rows[1..];
      }
    }
  }

  /** The first record matching `filters`, if any. */
  function FindFirst(rows: seq<Record>, filters: map<string, Value>): (found: Option<Record>)
    ensures found.Some? ==> exists i | 0 <= i < |rows| :: rows[i] == found.value && Matches(rows[i], filters)
                                                         && forall j | 0 <= j < i :: !Matches(rows[j], filters)
    ensures found.None? ==> forall r | r in rows :: !Matches(r, filters)
  {
    if |rows| == 0 then None
    else if Matches(rows[0], filters) then Some(rows[0])
    else
      var found := FindFirst(rows[1..], filters);
      assert forall r | r in rows :: r == rows[0] || r in rows[1..];
      if found.Some? then
        assert exists i | 1 <= i < |rows| :: rows[i] == found.value && Matches(rows[i], filters)
                                             && forall j | 1 <= j < i :: !Matches(rows[j], filters) by {
          var i :| 0 <= i < |rows[1..]| && rows[1..][i] == found.value && Matches(rows[1..][i], filters)
                   && forall j | 0 <= j < i :: !Matches(rows[1..][j], filters);
          assert rows[i + 1] == rows[1..][i];
          assert forall j | 1 <= j < i + 1 :: rows[j] == rows[1..][j - 1];
        }
        found
      else found
  }

  /** `find_one` returns the head of what `find_all` would return. */
  lemma {:induction false} FindFirstIsHeadOfWhere(rows: seq<Record>, filters: map<string, Value>)
    ensures FindFirst(rows, filters) ==
              if Where(rows, filters, true) == [] then None else Some(Where(rows, filters, true)[0])
  {
    if |rows| > 0 && !Matches(rows[0], filters) {
      FindFirstIsHeadOfWhere(rows[1..], filters);
    }
  }

  /** A record after `item.update(updates)` when it matches, unchanged otherwise. */
  function MergeIfMatching(item: Record, filters: map<string, Value>, updates: Record): (merged: Record)
    ensures Matches(item, filters) ==> merged.Keys == item.Keys + updates.Keys
    ensures Matches(item, filters) ==> forall k | k in updates :: merged[k] == updates[k]
    ensures Matches(item, filters) ==> forall k | k in item && k !in updates :: merged[k] == item[k]
    ensures !Matches(item, filters) ==> merged == item
  {
    if Matches(item, filters) then item + updates else item
  }

  class DatabaseManager {
    /** The entity files; an entity with no entry has no file. */
    var files: map<string, TableFile>

    constructor (files: map<string, TableFile>)
      ensures this.files == files
    {
      this.files := files;
    }

    function FileOf(entity: string): TableFile
      reads this
    {
      if entity in files then files[entity] else Missing
    }

    /** `read`: a missing file is an empty list; malformed JSON raises `DatabaseError`. */
    function Read(entity: string): (r: Result<seq<Record>, Error>)
      reads this
      ensures FileOf(entity).Missing? ==> r == Ok([])
      ensures FileOf(entity).Malformed? ==> r == Err(DatabaseError)
      ensures FileOf(entity).Rows? ==> r == Ok(FileOf(entity).rows)
    {
      match FileOf(entity)
      case Missing => Ok([])
      case Malformed => Err(DatabaseError)
      case Rows(rows) => Ok(rows)
    }

    /** `find_one`: the first stored record matching every filter, or `None`. */
    function FindOne(entity: string, filters: map<string, Value>): (r: Result<Option<Record>, Error>)
      reads this
      ensures Read(entity).Err? ==> r == Err(DatabaseError)
      ensures Read(entity).Ok? && r.Ok? && r.value.Some? ==>
                r.value.value in Read(entity).value && Matches(r.value.value, filters)
      ensures Read(entity).Ok? ==> (r.Ok? && r.value.None? <==>
                forall x | x in Read(entity).value :: !Matches(x, filters))
      ensures Read(entity).Ok? ==> r == Ok(FindFirst(Read(entity).value, filters))
    {
      var rows :- Read(entity);
      Ok(FindFirst(rows, filters))
    }

    /** `find_all`: everything without filters, otherwise the matching records in order. */
    function FindAll(entity: string, filters: map<string, Value>): (r: Result<seq<Record>, Error>)
      reads this
      ensures Read(entity).Err? ==> r == Err(DatabaseError)
      ensures Read(entity).Ok? && filters == map[] ==> r == Ok(Read(entity).value)
      ensures Read(entity).Ok? ==> r.Ok? && forall x | x in r.value :: x in Read(entity).value && Matches(x, filters)
      ensures Read(entity).Ok? ==> forall x | x in Read(entity).value && Matches(x, filters) :: x in r.value
      ensures Read(entity).Ok? && filters != map[] ==> r == Ok(Where(Read(entity).value, filters, true))
    {
      var rows :- Read(entity);
      if filters == map[] then Ok(rows) else Ok(Where(rows, filters, true))
    }

    /** `insert`: appends the record at the end; the earlier records stay as they were. */
    method Insert(entity: string, record: Record) returns (r: Outcome<Error>)
      modifies this
      ensures old(Read(entity)).Err? ==> r == Fail(DatabaseError) && files == old(files)
      ensures old(Read(entity)).Ok? ==> r == Pass && files == old(files)[entity := Rows(old(Read(entity)).value + [record])]
    {
      var read := Read(entity);
      if read.Err? {
        return Fail(DatabaseError);
      }
      files := files[entity := Rows(read.value + [record])];
      return Pass;
    }

    /**
     * `update`: merges `updates` into every matching record, in place, and rewrites the
     * file only when at least one record matched.
     */
    method Update(entity: string, filters: map<string, Value>, updates: Record) returns (r: Outcome<Error>)
      modifies this
      ensures old(Read(entity)).Err? ==> r == Fail(DatabaseError) && files == old(files)
      ensures old(Read(entity)).Ok? ==> r == Pass
      ensures old(Read(entity)).Ok? && (forall x | x in old(Read(entity)).value :: !Matches(x, filters)) ==>
                files == old(files)
      ensures old(Read(entity)).Ok? && (exists x | x in old(Read(entity)).value :: Matches(x, filters)) ==>
                var rows := old(Read(entity)).value;
                files == old(files)[entity := Rows(seq(|rows|, i requires 0 <= i < |rows| =>
                                                       MergeIfMatching(rows[i], filters, updates)))]
    {
      var read := Read(entity);
      if read.Err? {
        return Fail(DatabaseError);
      }
      var rows := read.value;
      var data := rows;
      var updated := false;
      var i := 0;
      while i < |data|
        invariant 0 <= i <= |data| == |rows|
        invariant forall j | 0 <= j < i :: data[j] == MergeIfMatching(rows[j], filters, updates)
        invariant forall j | i <= j < |data| :: data[j] == rows[j]
        invariant updated <==> exists j | 0 <= j < i :: Matches(rows[j], filters)
      {
        if Matches(data[i], filters) {
          data := data[i := data[i] + updates];
          updated := true;
        }
        i := i + 1;
      }
      if updated {
        assert data == seq(|rows|, i requires 0 <= i < |rows| => MergeIfMatching(rows[i], filters, updates));
        files := files[entity := Rows(data)];
      }
      return Pass;
    }

    /**
     * `delete`: removes exactly the matching records, keeping the order of the rest, and
     * rewrites the file only when the count dropped.
     */
    method Delete(entity: string, filters: map<string, Value>) returns (r: Outcome<Error>)
      modifies this
      ensures old(Read(entity)).Err? ==> r == Fail(DatabaseError) && files == old(files)
      ensures old(Read(entity)).Ok? ==> r == Pass
      ensures old(Read(entity)).Ok? && (forall x | x in old(Read(entity)).value :: !Matches(x, filters)) ==>
                files == old(files)
      ensures old(Read(entity)).Ok? && (exists x | x in old(Read(entity)).value :: Matches(x, filters)) ==>
                files == old(files)[entity := Rows(Where(old(Read(entity)).value, filters, false))]
    {
      var read := Read(entity);
      if read.Err? {
        return Fail(DatabaseError);
      }
      var kept := Where(read.value, filters, false);
      if |kept| < |read.value| {
        files := files[entity := Rows(kept)];
      } else {
        NothingRemoved(read.value, filters);
        assert kept == read.value by {
          WhereSplits(read.value, filters);
          assert |Where(read.value, filters, true)| == 0;
          assert forall x | x in read.value :: !Matches(x, filters);
        }
      }
      NothingRemoved(read.value, filters);
      return Pass;
    }
  }
}
