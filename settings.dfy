/**
 * The `Settings` table of the application (app.py): rows of a key and a
 * value, where the key column is unique. `get_value` reads the first row
 * with a key, falling back to a default; `set_value` updates the row of a
 * key in place, or adds a row when the key is new.
 */
module Settings {
  import opened Results

  datatype Row = Row(key: string, value: string)

  /** The uniqueness constraint on the key column. */
  ghost predicate UniqueKeys(rows: seq<Row>) {
    forall i, j :: 0 <= i < j < |rows| ==> rows[i].key != rows[j].key
  }

  /** `Settings.query.filter_by(key=key).first()`: the position of the first row with `key`. */
  function IndexOf(rows: seq<Row>, key: string): (r: Option<nat>)
    ensures r.Some? ==> r.value < |rows| && rows[r.value].key == key
    ensures r.Some? ==> forall j :: 0 <= j < r.value ==> rows[j].key != key
    ensures r.None? ==> forall j :: 0 <= j < |rows| ==> rows[j].key != key
  {
    if rows == [] then None
    else if rows[0].key == key then Some(0)
    else
      match IndexOf(rows[1..], key)
      case Some(i) => Some(i + 1)
      case None => None
  }

  /** The stored value of `key`, if a row holds it. */
  function Lookup(rows: seq<Row>, key: string): Option<string> {
    match IndexOf(rows, key)
    case Some(i) => Some(rows[i].value)
    case None => None
  }

  /** `Settings.get_value(key, default)` on the rows of the table. */
  function ValueOr(rows: seq<Row>, key: string, default: string): (r: string)
    ensures Lookup(rows, key).None? ==> r == default
    ensures Lookup(rows, key).Some? ==> r == Lookup(rows, key).value
  {
    Lookup(rows, key).GetOr(default)
  }

  /** With unique keys, the row at position `i` is the row `Lookup` finds for its key. */
  lemma LookupAt(rows: seq<Row>, i: nat)
    requires UniqueKeys(rows) && i < |rows|
    ensures Lookup(rows, rows[i].key) == Some(rows[i].value)
  {
    var found := IndexOf(rows, rows[i].key);
    assert found == Some(i);
  }

  /** Overwriting the value of an existing row: that key now reads the new value, every other key reads as before. */
  lemma LookupAfterOverwrite(rows: seq<Row>, i: nat, value: string, k: string)
    requires UniqueKeys(rows) && i < |rows|
    ensures UniqueKeys(rows[i := Row(rows[i].key, value)])
    ensures Lookup(rows[i := Row(rows[i].key, value)], k) ==
            if k == rows[i].key then Some(value) else Lookup(rows, k)
  {
    var updated := rows[i := Row(rows[i].key, value)];
    assert forall j :: 0 <= j < |rows| ==> updated[j].key == rows[j].key;
    if k == rows[i].key {
      LookupAt(updated, i);
    } else {
      match IndexOf(rows, k)
      case Some(j) => {
        assert IndexOf(updated, k) == Some(j);
      }
      case None => {
        assert IndexOf(updated, k) == None;
      }
    }
  }

  /** Appending a row for a new key: that key now reads the new value, every other key reads as before. */
  lemma LookupAfterAppend(rows: seq<Row>, key: string, value: string, k: string)
    requires UniqueKeys(rows) && Lookup(rows, key).None?
    ensures UniqueKeys(rows + [Row(key, value)])
    ensures Lookup(rows + [Row(key, value)], k) == if k == key then Some(value) else Lookup(rows, k)
  {
    var extended := rows + [Row(key, value)];
    assert forall j :: 0 <= j < |rows| ==> extended[j] == rows[j];
    if k == key {
      LookupAt(extended, |rows|);
    } else {
      match IndexOf(rows, k)
      case Some(j) => {
        assert IndexOf(extended, k) == Some(j);
      }
      case None => {
        assert IndexOf(extended, k) == None;
      }
    }
  }

  /** The settings table as a mutable object. */
  class SettingsTable {
    var rows: seq<Row>

    ghost predicate Valid()
      reads this
    {
      UniqueKeys(rows)
    }

    constructor ()
      ensures Valid() && rows == []
    {
      rows := [];
    }

    function Get(key: string): Option<string>
      reads this
    {
      Lookup(rows, key)
    }

    /** `Settings.get_value(key, default)`. */
    function GetValue(key: string, default: string): (r: string)
      reads this
      ensures Get(key).None? ==> r == default
      ensures Get(key).Some? ==> r == Get(key).value
    {
      ValueOr(rows, key, default)
    }

    /**
     * `Settings.set_value(key, value)`: the row of `key` gets the new value,
     * or a row is added for a new key; keys stay unique and no other key
     * changes.
     */
    method SetValue(key: string, value: string)
      requires Valid()
      modifies this
      ensures Valid()
      ensures Get(key) == Some(value)
      ensures forall k :: k != key ==> Get(k) == old(Get(k))
      ensures |rows| == if old(Get(key)).Some? then old(|rows|) else old(|rows|) + 1
    {
      var found := IndexOf(rows, key);
      ghost var before := rows;
      if found.Some? {
        var i := found.value;
        assert Lookup(before, key).Some?;
        rows := rows[i := Row(key, value)];
        assert rows == before[i := Row(before[i].key, value)];
        LookupAfterOverwrite(before, i, value, key);
        forall k | k != key ensures Lookup(rows, k) == Lookup(before, k) {
          LookupAfterOverwrite(before, i, value, k);
        }
      } else {
        assert Lookup(before, key).None?;
        rows := rows + [Row(key, value)];
        LookupAfterAppend(before, key, value, key);
        forall k | k != key ensures Lookup(rows, k) == Lookup(before, k) {
          LookupAfterAppend(before, key, value, k);
        }
      }
    }
  }
}
