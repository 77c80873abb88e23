/** The observable contract of an EF Core entity set, on values: a committed table of
    rows in storage order, keyed by a Guid, and the changes staged against it by Add,
    Update and Remove, which one commit applies all together or not at all. */
module Table {
  import opened Base

  /** A staged change to one row, identified by its primary key. */
  datatype Change<R> = Insert(row: R) | Modify(row: R) | Delete(target: Guid)

  /** No two rows of the table share a primary key. */
  ghost predicate UniqueKeys<R>(rows: seq<R>, key: R -> Guid)
  {
    forall i, j :: 0 <= i < j < |rows| ==> key(rows[i]) != key(rows[j])
  }

  /** The first row whose key is `id`: the database's primary-key lookup. */
  function Find<R>(rows: seq<R>, key: R -> Guid, id: Guid): (r: Option<R>)
    ensures r.Some? ==> r.value in rows && key(r.value) == id
    ensures r.None? <==> forall x :: x in rows ==> key(x) != id
  {
    if rows == [] then None
    else if key(rows[0]) == id then Some(rows[0])
    else Find(rows[1..], key, id)
  }

  /** The rows that satisfy `p`, in storage order (see FilterConcat): LINQ's Where
      followed by ToList. */
  function Filter<R>(s: seq<R>, p: R -> bool): (r: seq<R>)
    ensures forall x :: x in r ==> x in s && p(x)
    ensures forall x :: x in s && p(x) ==> x in r
    ensures forall x :: x in s ==> multiset(r)[x] == if p(x) then multiset(s)[x] else 0
  {
    if s == [] then []
    else
      var rest := Filter(s[1..], p);
      assert s == [s[0]] + s[1..];
      if p(s[0]) then [s[0]] + rest else rest
  }

  /** The first row that satisfies `p`, or None: LINQ's FirstOrDefault. */
  function FirstMatch<R>(s: seq<R>, p: R -> bool): (r: Option<R>)
    ensures r.None? <==> forall x :: x in s ==> !p(x)
    ensures r.Some? ==> exists i :: 0 <= i < |s| && s[i] == r.value && p(s[i]) &&
                                    forall j :: 0 <= j < i ==> !p(s[j])
  {
    if s == [] then None
    else if p(s[0]) then Some(s[0])
    else
      var rest := FirstMatch(s[1..], p);
      assert forall j :: 1 <= j < |s| ==> s[j] == s[1..][j - 1];
      rest
  }

  /** The table with every row keyed like `row` replaced by `row`. */
  function Replace<R>(rows: seq<R>, key: R -> Guid, row: R): (r: seq<R>)
    ensures |r| == |rows|
    ensures forall i :: 0 <= i < |rows| ==>
              r[i] == if key(rows[i]) == key(row) then row else rows[i]
  {
    if rows == [] then []
    else [if key(rows[0]) == key(row) then row else rows[0]] + Replace(rows[1..], key, row)
  }

  /** The table without the rows whose key is `id`, the others kept in order (see
      WithoutIsFilter). */
  function Without<R>(rows: seq<R>, key: R -> Guid, id: Guid): (r: seq<R>)
    ensures forall x :: x in r ==> x in rows && key(x) != id
    ensures forall x :: x in rows && key(x) != id ==> x in r
  {
    if rows == [] then []
    else if key(rows[0]) == id then Without(rows[1..], key, id)
    else [rows[0]] + Without(rows[1..], key, id)
  }

  /** One change applied to the table. An insert of an existing key, or an update or
      delete of a missing one, violates the primary key and fails. */
  function Apply<R>(rows: seq<R>, key: R -> Guid, c: Change<R>): (r: Option<seq<R>>)
    ensures c.Insert? ==> (r.Some? <==> Find(rows, key, key(c.row)).None?)
    ensures c.Modify? ==> (r.Some? <==> Find(rows, key, key(c.row)).Some?)
    ensures c.Delete? ==> (r.Some? <==> Find(rows, key, c.target).Some?)
  {
    match c
    case Insert(x) => if Find(rows, key, key(x)).Some? then None else Some(rows + [x])
    case Modify(x) => if Find(rows, key, key(x)).None? then None else Some(Replace(rows, key, x))
    case Delete(k) => if Find(rows, key, k).None? then None else Some(Without(rows, key, k))
  }

  /** The commit: the staged changes applied in order, all or nothing. Nothing staged
      leaves the table as it is, and a successful commit keeps primary keys unique. */
  function Commit<R>(rows: seq<R>, key: R -> Guid, changes: seq<Change<R>>): (r: Option<seq<R>>)
    ensures changes == [] ==> r == Some(rows)
    ensures r.Some? && UniqueKeys(rows, key) ==> UniqueKeys(r.value, key)
    decreases |changes|
  {
    if changes == [] then Some(rows)
    else match Apply(rows, key, changes[0])
      case None => None
      case Some(t) =>
        assert UniqueKeys(rows, key) ==> UniqueKeys(t, key) by {
          if UniqueKeys(rows, key) { ApplyUnique(rows, key, changes[0]); }
        }
        Commit(t, key, changes[1..])
  }

  /** The inserts AddRange stages, one per item in order. */
  function Inserts<R>(items: seq<R>): (cs: seq<Change<R>>)
    ensures |cs| == |items|
    ensures forall i :: 0 <= i < |items| ==> cs[i] == Insert(items[i])
  {
    seq(|items|, i requires 0 <= i < |items| => Insert(items[i]))
  }

  /** The primary key a change is about. */
  function ChangedKey<R>(c: Change<R>, key: R -> Guid): Guid
  {
    if c.Delete? then c.target else key(c.row)
  }

  /** What a primary-key lookup sees of key `id` once change `c` is made, if it saw `before`.
      A change of another key leaves the lookup as it was; a change of `id` itself decides
      it alone: an insert or update shows its row, a delete shows nothing. */
  function AfterChange<R>(c: Change<R>, key: R -> Guid, id: Guid, before: Option<R>): (r: Option<R>)
    ensures ChangedKey(c, key) != id ==> r == before
    ensures ChangedKey(c, key) == id ==> (r.Some? <==> !c.Delete?)
    ensures ChangedKey(c, key) == id && r.Some? ==> r.value == c.row
    ensures r.Some? && before.Some? && key(before.value) == id ==> key(r.value) == id
  {
    match c
    case Insert(x) => if key(x) == id then Some(x) else before
    case Modify(x) => if key(x) == id then Some(x) else before
    case Delete(k) => if k == id then None else before
  }

  /** The primary-key lookup through the change tracker: the latest staged change of that
      key first, the committed table otherwise. A staged delete hides the row here, where
      EF Core's Find would still return the entity it tracks as Deleted. */
  function FindTracked<R>(rows: seq<R>, key: R -> Guid, changes: seq<Change<R>>, id: Guid): (r: Option<R>)
    ensures r.Some? ==> key(r.value) == id
  {
    if changes == [] then Find(rows, key, id)
    else AfterChange(changes[|changes| - 1], key, id,
                     FindTracked(rows, key, changes[..|changes| - 1], id))
  }

  /** With unique keys, the lookup of a row's key finds that very row. */
  lemma {:induction false} FindUnique<R>(rows: seq<R>, key: R -> Guid, x: R)
    requires UniqueKeys(rows, key) && x in rows
    ensures Find(rows, key, key(x)) == Some(x)
  {
    if rows[0] != x {
      var i :| 0 <= i < |rows| && rows[i] == x;
      assert i > 0 && rows[1..][i - 1] == x;
      assert UniqueKeys(rows[1..], key) by {
        forall i, j | 0 <= i < j < |rows| - 1
          ensures key(rows[1..][i]) != key(rows[1..][j])
        {
          assert rows[1..][i] == rows[i + 1] && rows[1..][j] == rows[j + 1];
        }
      }
      FindUnique(rows[1..], key, x);
    }
  }

  /** A lookup after appending a row sees the old table first. */
  lemma {:induction false} FindAppend<R>(rows: seq<R>, key: R -> Guid, x: R, id: Guid)
    ensures Find(rows + [x], key, id) ==
              if Find(rows, key, id).Some? then Find(rows, key, id)
              else if key(x) == id then Some(x) else None
  {
    if rows != [] {
      assert (rows + [x])[1..] == rows[1..] + [x];
      FindAppend(rows[1..], key, x, id);
    }
  }

  /** A lookup after Replace sees the replacement for its key and the old rows elsewhere. */
  lemma {:induction false} FindReplace<R>(rows: seq<R>, key: R -> Guid, row: R, id: Guid)
    requires Find(rows, key, key(row)).Some?
    ensures Find(Replace(rows, key, row), key, id) ==
              if key(row) == id then Some(row) else Find(rows, key, id)
  {
    var r := Replace(rows, key, row);
    assert r[0] == if key(rows[0]) == key(row) then row else rows[0];
    assert r[1..] == Replace(rows[1..], key, row);
    if key(rows[0]) != key(row) {
      FindReplace(rows[1..], key, row, id);
    } else if key(row) != id {
      FindReplaceOther(rows[1..], key, row, id);
    }
  }

  /** Replace leaves the lookup of any other key alone. */
  lemma {:induction false} FindReplaceOther<R>(rows: seq<R>, key: R -> Guid, row: R, id: Guid)
    requires key(row) != id
    ensures Find(Replace(rows, key, row), key, id) == Find(rows, key, id)
  {
    if rows != [] {
      var r := Replace(rows, key, row);
      assert r[0] == if key(rows[0]) == key(row) then row else rows[0];
      assert r[1..] == Replace(rows[1..], key, row);
      FindReplaceOther(rows[1..], key, row, id);
    }
  }

  /** Without leaves the lookup of any other key alone. */
  lemma {:induction false} FindWithoutOther<R>(rows: seq<R>, key: R -> Guid, k: Guid, id: Guid)
    requires k != id
    ensures Find(Without(rows, key, k), key, id) == Find(rows, key, id)
  {
    if rows != [] {
      FindWithoutOther(rows[1..], key, k, id);
      if key(rows[0]) != k {
        assert ([rows[0]] + Without(rows[1..], key, k))[1..] == Without(rows[1..], key, k);
      }
    }
  }

  /** Applying a change moves the primary-key lookup exactly as AfterChange says. */
  lemma FindAfterApply<R>(rows: seq<R>, key: R -> Guid, c: Change<R>, id: Guid)
    requires Apply(rows, key, c).Some?
    ensures Find(Apply(rows, key, c).value, key, id) == AfterChange(c, key, id, Find(rows, key, id))
  {
    match c
    case Insert(x) => FindAppend(rows, key, x, id);
    case Modify(x) => FindReplace(rows, key, x, id);
    case Delete(k) => if k != id { FindWithoutOther(rows, key, k, id); }
  }

  /** Committing one more change is committing the others and then applying it. */
  lemma {:induction false} CommitAppend<R>(rows: seq<R>, key: R -> Guid, changes: seq<Change<R>>, c: Change<R>)
    ensures Commit(rows, key, changes).None? ==> Commit(rows, key, changes + [c]).None?
    ensures Commit(rows, key, changes).Some? ==>
              Commit(rows, key, changes + [c]) == Apply(Commit(rows, key, changes).value, key, c)
    decreases |changes|
  {
    if changes != [] {
      assert (changes + [c])[0] == changes[0];
      assert (changes + [c])[1..] == changes[1..] + [c];
      match Apply(rows, key, changes[0])
      case None =>
      case Some(t) => CommitAppend(t, key, changes[1..], c);
    }
  }

  /** After a successful commit, the committed table answers every primary-key lookup as
      the tracked lookup answered it before the commit. */
  lemma {:induction false} CommitMatchesTracked<R>(rows: seq<R>, key: R -> Guid, changes: seq<Change<R>>, id: Guid)
    requires Commit(rows, key, changes).Some?
    ensures Find(Commit(rows, key, changes).value, key, id) == FindTracked(rows, key, changes, id)
  {
    if changes != [] {
      var prefix, c := changes[..|changes| - 1], changes[|changes| - 1];
      assert changes == prefix + [c];
      CommitAppend(rows, key, prefix, c);
      CommitMatchesTracked(rows, key, prefix, id);
      FindAfterApply(Commit(rows, key, prefix).value, key, c, id);
    }
  }

  /** Replace keeps every row's key. */
  lemma ReplaceKeys<R>(rows: seq<R>, key: R -> Guid, row: R)
    ensures forall i :: 0 <= i < |rows| ==> key(Replace(rows, key, row)[i]) == key(rows[i])
  {
  }

  /** Without keeps unique keys unique. */
  lemma {:induction false} WithoutUnique<R>(rows: seq<R>, key: R -> Guid, k: Guid)
    requires UniqueKeys(rows, key)
    ensures UniqueKeys(Without(rows, key, k), key)
  {
    if rows != [] {
      var tail := rows[1..];
      assert UniqueKeys(tail, key) by {
        forall i, j | 0 <= i < j < |tail| ensures key(tail[i]) != key(tail[j]) {
          assert tail[i] == rows[i + 1] && tail[j] == rows[j + 1];
        }
      }
      WithoutUnique(tail, key, k);
      if key(rows[0]) != k {
        var w := Without(tail, key, k);
        var r := [rows[0]] + w;
        forall i, j | 0 <= i < j < |r| ensures key(r[i]) != key(r[j]) {
          if i == 0 {
            assert r[j] == w[j - 1] && w[j - 1] in tail;
            var m :| 0 <= m < |tail| && tail[m] == w[j - 1];
            assert rows[m + 1] == tail[m];
          } else {
            assert r[i] == w[i - 1] && r[j] == w[j - 1];
          }
        }
      }
    }
  }

  /** A successful change keeps primary keys unique. */
  lemma ApplyUnique<R>(rows: seq<R>, key: R -> Guid, c: Change<R>)
    requires UniqueKeys(rows, key) && Apply(rows, key, c).Some?
    ensures UniqueKeys(Apply(rows, key, c).value, key)
  {
    match c
    case Insert(x) =>
      var r := rows + [x];
      forall i, j | 0 <= i < j < |r| ensures key(r[i]) != key(r[j]) {
        if j == |rows| { assert r[i] in rows; }
      }
    case Modify(x) => ReplaceKeys(rows, key, x);
    case Delete(k) => WithoutUnique(rows, key, k);
  }

  /** Staging an insert of a key the tracked lookup does not see keeps a committable
      queue committable, and the committed table then holds the inserted row. */
  lemma CommitInsert<R>(rows: seq<R>, key: R -> Guid, changes: seq<Change<R>>, x: R)
    requires Commit(rows, key, changes).Some?
    requires FindTracked(rows, key, changes, key(x)).None?
    ensures Commit(rows, key, changes + [Insert(x)]).Some?
    ensures Find(Commit(rows, key, changes + [Insert(x)]).value, key, key(x)) == Some(x)
  {
    CommitAppend(rows, key, changes, Insert(x));
    CommitMatchesTracked(rows, key, changes, key(x));
    CommitMatchesTracked(rows, key, changes + [Insert(x)], key(x));
  }

  /** Staging an update or a delete of a key the tracked lookup sees keeps a committable
      queue committable. */
  lemma CommitTouchExisting<R>(rows: seq<R>, key: R -> Guid, changes: seq<Change<R>>, c: Change<R>)
    requires Commit(rows, key, changes).Some?
    requires c.Modify? || c.Delete?
    requires FindTracked(rows, key, changes, if c.Modify? then key(c.row) else c.target).Some?
    ensures Commit(rows, key, changes + [c]).Some?
  {
    CommitAppend(rows, key, changes, c);
    CommitMatchesTracked(rows, key, changes, if c.Modify? then key(c.row) else c.target);
  }

  /** After a successful commit that ends in change `c`, every primary-key lookup sees what
      the tracked lookup saw before `c` was staged, as `c` changes it. */
  lemma CommitLast<R>(rows: seq<R>, key: R -> Guid, changes: seq<Change<R>>, c: Change<R>, id: Guid)
    requires Commit(rows, key, changes + [c]).Some?
    ensures Find(Commit(rows, key, changes + [c]).value, key, id) ==
              AfterChange(c, key, id, FindTracked(rows, key, changes, id))
  {
    CommitMatchesTracked(rows, key, changes + [c], id);
    assert (changes + [c])[..|changes + [c]| - 1] == changes;
  }

  /** Filtering distributes over concatenation, so it keeps the relative order of the rows
      it keeps. */
  lemma {:induction false} FilterConcat<R>(a: seq<R>, b: seq<R>, p: R -> bool)
    ensures Filter(a + b, p) == Filter(a, p) + Filter(b, p)
  {
    if a == [] {
      assert a + b == b;
    } else {
      var head := if p(a[0]) then [a[0]] else [];
      calc {
        Filter(a + b, p);
        { FilterHead(a + b, p); TailConcat(a, b); }
        head + Filter(a[1..] + b, p);
        { FilterConcat(a[1..], b, p); }
        head + (Filter(a[1..], p) + Filter(b, p));
        { ConcatAssoc(head, Filter(a[1..], p), Filter(b, p)); }
        (head + Filter(a[1..], p)) + Filter(b, p);
        { FilterHead(a, p); }
        Filter(a, p) + Filter(b, p);
      }
    }
  }

  lemma FilterHead<R>(s: seq<R>, p: R -> bool)
    requires s != []
    ensures Filter(s, p) == (if p(s[0]) then [s[0]] else []) + Filter(s[1..], p)
  {
  }

  lemma TailConcat<T>(a: seq<T>, b: seq<T>)
    requires a != []
    ensures (a + b)[0] == a[0] && (a + b)[1..] == a[1..] + b
  {
  }

  lemma ConcatAssoc<T>(x: seq<T>, y: seq<T>, z: seq<T>)
    ensures x + (y + z) == (x + y) + z
  {
  }

  /** Removing a key is filtering on the other keys, so Without keeps storage order too. */
  lemma {:induction false} WithoutIsFilter<R>(rows: seq<R>, key: R -> Guid, id: Guid)
    ensures Without(rows, key, id) == Filter(rows, x => key(x) != id)
  {
    if rows != [] {
      WithoutIsFilter(rows[1..], key, id);
    }
  }

  /** FindBy is the first element of FilterBy. */
  lemma {:induction false} FirstMatchIsFirstOfFilter<R>(s: seq<R>, p: R -> bool)
    ensures FirstMatch(s, p) == if Filter(s, p) == [] then None else Some(Filter(s, p)[0])
  {
    if s != [] && !p(s[0]) {
      FirstMatchIsFirstOfFilter(s[1..], p);
    }
  }
}
