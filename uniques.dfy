/**
 * The "unique rows" query of `process_spreadsheets` (backend/app.py): a row of
 * `audantic_raw_list` is unique when no row of `my_master_list` with a phone
 * number has the same street address, city and first owner's first name.
 * The same predicate selects the rows of `uniques_list` and counts them for
 * `unique_count`.
 */
module Uniques {
  import opened Wrappers
  import opened Columns

  /** A table row: the column list it was inserted with and its values (`None` is NULL). */
  datatype Record = Record(columns: seq<string>, values: seq<Cell>)

  /**
   * The value of the first column called `name`; NULL when the row has no
   * such column, since an INSERT that leaves a column out stores NULL there.
   */
  function Lookup(columns: seq<string>, values: seq<Cell>, name: string): (v: Cell)
    ensures name !in columns ==> v == None
    ensures forall i :: 0 <= i < |columns| && i < |values| && columns[i] == name && name !in columns[..i] ==> v == values[i]
    decreases |columns|
  {
    if columns == [] || values == [] then None
    else if columns[0] == name then values[0]
    else
      assert forall i :: 0 < i < |columns| ==> columns[1..][..i - 1] == columns[1..i];
      Lookup(columns[1..], values[1..], name)
  }

  function Field(r: Record, name: string): Cell {
    Lookup(r.columns, r.values, name)
  }

  /** `a = b` in a WHERE clause: true only when both sides are non-NULL and equal. */
  predicate SqlEquals(a: Cell, b: Cell) {
    a.Some? && b.Some? && a.value == b.value
  }

  /** The correlated condition of the `NOT EXISTS` subquery, for one master row. */
  predicate Matches(raw: Record, master: Record) {
    && SqlEquals(Field(raw, "property_street_address"), Field(master, "property_street_address"))
    && SqlEquals(Field(raw, "property_city"), Field(master, "property_city"))
    && SqlEquals(Field(raw, "owner_1_first_name"), Field(master, "owner_1_first_name"))
    && Field(master, "phone1").Some?
  }

  /** One of the three compared fields of a raw row is NULL. */
  predicate HasNullKey(raw: Record) {
    || Field(raw, "property_street_address").None?
    || Field(raw, "property_city").None?
    || Field(raw, "owner_1_first_name").None?
  }

  /** `WHERE NOT EXISTS (...)`: no master row matches. */
  predicate IsUnique(raw: Record, masterList: seq<Record>) {
    forall m :: m in masterList ==> !Matches(raw, m)
  }

  /** The elements of `s` that satisfy `keep`, in order: no more of them than `s` has, and exactly those of its elements that `keep` accepts. */
  function Filter<T(!new)>(s: seq<T>, keep: T -> bool): (r: seq<T>)
    ensures |r| <= |s|
    ensures forall x :: x in r <==> x in s && keep(x)
    decreases |s|
  {
    if s == [] then []
    else
      var init := s[..|s| - 1];
      assert s == init + [s[|s| - 1]];
      Filter(init, keep) + (if keep(s[|s| - 1]) then [s[|s| - 1]] else [])
  }

  /** The table `uniques_list` built from `audantic_raw_list`: the unique rows, in table order. */
  function UniqueRows(rawList: seq<Record>, masterList: seq<Record>): (uniques: seq<Record>)
    ensures |uniques| <= |rawList|
  {
    Filter(rawList, r => IsUnique(r, masterList))
  }

  /** A row is in `uniques_list` exactly when it is a row of `audantic_raw_list` that no master row matches. */
  lemma UniqueRowsMembers(rawList: seq<Record>, masterList: seq<Record>)
    ensures forall r :: r in UniqueRows(rawList, masterList) <==> r in rawList && IsUnique(r, masterList)
  {
  }

  /** The count query over `audantic_raw_list`: how many positions of the table hold a unique row. */
  function UniqueCount(rawList: seq<Record>, masterList: seq<Record>): nat {
    CountWhere(rawList, r => IsUnique(r, masterList))
  }

  /** The number of positions of `s` whose element satisfies `keep`. */
  function CountWhere<T>(s: seq<T>, keep: T -> bool): nat {
    |set i | 0 <= i < |s| && keep(s[i])|
  }

  /** Counting over one more element adds one exactly when that element satisfies `keep`. */
  lemma CountWhereSnoc<T>(s: seq<T>, keep: T -> bool)
    requires s != []
    ensures CountWhere(s, keep) == CountWhere(s[..|s| - 1], keep) + (if keep(s[|s| - 1]) then 1 else 0)
  {
    var n := |s| - 1;
    var init := s[..n];
    var before := set i | 0 <= i < n && keep(init[i]);
    var after := set i | 0 <= i < |s| && keep(s[i]);
    assert before == set i | 0 <= i < n && keep(s[i]);
    if keep(s[n]) {
      assert after == before + {n};
    } else {
      assert after == before;
    }
  }

  lemma {:induction false} CountIsFilterLength<T(!new)>(s: seq<T>, keep: T -> bool)
    ensures CountWhere(s, keep) == |Filter(s, keep)|
    decreases |s|
  {
    if s != [] {
      var n := |s| - 1;
      CountIsFilterLength(s[..n], keep);
      CountWhereSnoc(s, keep);
    }
  }

  /** `unique_count` is the number of rows of `uniques_list`: both queries use the same predicate. */
  lemma UniqueCountIsListSize(rawList: seq<Record>, masterList: seq<Record>)
    ensures UniqueCount(rawList, masterList) == |UniqueRows(rawList, masterList)|
  {
    CountIsFilterLength(rawList, r => IsUnique(r, masterList));
  }

  /** A raw row whose street address, city or owner's first name is NULL is always kept, because NULL equals nothing. */
  lemma NullKeyRowsKept(rawList: seq<Record>, masterList: seq<Record>, r: Record)
    requires r in rawList && HasNullKey(r)
    ensures r in UniqueRows(rawList, masterList)
  {
    UniqueRowsMembers(rawList, masterList);
  }

  /** A raw row is dropped exactly when some master row with a phone number matches it on all three fields. */
  lemma DroppedIffMatched(rawList: seq<Record>, masterList: seq<Record>, r: Record)
    requires r in rawList
    ensures r !in UniqueRows(rawList, masterList) <==> exists m :: m in masterList && Matches(r, m)
  {
    UniqueRowsMembers(rawList, masterList);
  }
}
