/** The repositories: the generic repository over one entity set (used for accounts)
    and the hand-written owners repository with its name, email and birthdate queries.
    Queries read the committed table; Find reads the tracked entities first; mutations
    only stage changes, which the DataContext commits. */
module Repositories {
  import opened Base
  import opened Entities
  import opened Table
  import opened Persistence

  const ItemNotFound := "Update failed, item not found"

  /** AGenericRepository<T>, bound to the entity set of T. */
  class GenericRepository<R> {
    const dbSet: DbSet<R>

    constructor (dbSet: DbSet<R>)
      ensures this.dbSet == dbSet
    {
      this.dbSet := dbSet;
    }

    /** All items, in storage order; `withTracking` only decides whether the results are
        tracked, not which items come back. */
    function Select(withTracking: bool): (r: seq<R>)
      reads dbSet
      ensures r == dbSet.rows
    {
      dbSet.rows
    }

    /** The item with the given key (tracked entities first, then storage), or null. */
    function FindById(id: Guid): (r: Option<R>)
      reads dbSet
      ensures r.Some? ==> dbSet.key(r.value) == id
      ensures dbSet.pending == [] ==>
                (r.Some? ==> r.value in dbSet.rows) &&
                (r.None? <==> forall x :: x in dbSet.rows ==> dbSet.key(x) != id)
    {
      FindTracked(dbSet.rows, dbSet.key, dbSet.pending, id)
    }

    /** Exactly the stored items that satisfy the predicate, each as often as stored. */
    function FilterBy(p: R -> bool): (r: seq<R>)
      reads dbSet
      ensures forall x :: x in r ==> x in dbSet.rows && p(x)
      ensures forall x :: x in dbSet.rows && p(x) ==> x in r
      ensures forall x :: x in dbSet.rows ==> multiset(r)[x] == if p(x) then multiset(dbSet.rows)[x] else 0
    {
      Filter(dbSet.rows, p)
    }

    /** The first stored item that satisfies the predicate, or null when none does. */
    function FindBy(p: R -> bool): (r: Option<R>)
      reads dbSet
      ensures r.None? <==> forall x :: x in dbSet.rows ==> !p(x)
      ensures r.Some? ==> exists i :: 0 <= i < |dbSet.rows| && dbSet.rows[i] == r.value && p(r.value) &&
                                      forall j :: 0 <= j < i ==> !p(dbSet.rows[j])
    {
      FirstMatch(dbSet.rows, p)
    }

    /** Stages the item for insertion, with no duplicate-key check. */
    method Add(item: R)
      modifies dbSet
      ensures dbSet.rows == old(dbSet.rows) && dbSet.pending == old(dbSet.pending) + [Insert(item)]
    {
      dbSet.pending := dbSet.pending + [Insert(item)];
    }

    /** Stages every item for insertion, in order, with no duplicate-key check. */
    method AddRange(items: seq<R>)
      modifies dbSet
      ensures dbSet.rows == old(dbSet.rows) && dbSet.pending == old(dbSet.pending) + Inserts(items)
    {
      dbSet.pending := dbSet.pending + Inserts(items);
    }

    /** Overwrites the item stored under item's key with item's values and marks it
        modified. When Find sees no item with that key it throws and never inserts. */
    method UpdateAsync(item: R) returns (r: Result<()>)
      modifies dbSet
      ensures old(FindById(dbSet.key(item))).None? ==>
                r == Failure(ApplicationException(ItemNotFound)) && unchanged(dbSet)
      ensures old(FindById(dbSet.key(item))).Some? ==>
                r == Success(()) && dbSet.rows == old(dbSet.rows) &&
                dbSet.pending == old(dbSet.pending) + [Modify(item)]
    {
      if FindById(dbSet.key(item)).None? {
        return Failure(ApplicationException(ItemNotFound));
      }
      dbSet.pending := dbSet.pending + [Modify(item)];
      r := Success(());
    }

    /** Stages the item for deletion. */
    method Remove(item: R)
      modifies dbSet
      ensures dbSet.rows == old(dbSet.rows) && dbSet.pending == old(dbSet.pending) + [Delete(dbSet.key(item))]
    {
      dbSet.pending := dbSet.pending + [Delete(dbSet.key(item))];
    }
  }

  /** OwnersRepository, over the Owners set of the DataContext. */
  class OwnersRepository {
    const context: DataContext

    constructor (context: DataContext)
      ensures this.context == context
    {
      this.context := context;
    }

    /** All stored owners, in storage order. */
    function Select(): (r: seq<OwnerRow>)
      reads context.owners
      ensures r == context.owners.rows
    {
      context.owners.rows
    }

    /** The owner with that id (tracked entities first, then storage), or null. */
    function FindById(id: Guid): (r: Option<OwnerRow>)
      reads context.owners
      ensures r.Some? ==> r.value.id == id
      ensures context.owners.pending == [] ==>
                (r.Some? ==> r.value in context.owners.rows) &&
                (r.None? <==> forall o :: o in context.owners.rows ==> o.id != id)
    {
      FindTracked(context.owners.rows, OwnerKey, context.owners.pending, id)
    }

    /** Stages the owner for insertion, with no duplicate-key check. */
    method Add(owner: OwnerRow)
      modifies context.owners
      ensures context.owners.rows == old(context.owners.rows)
      ensures context.owners.pending == old(context.owners.pending) + [Insert(owner)]
    {
      context.owners.pending := context.owners.pending + [Insert(owner)];
    }

    /** Overwrites the stored owner with owner's id and marks it modified. The lookup is a
        query (FirstOrDefault), so it sees stored owners only: an owner that is merely
        staged for insertion is not found, and then it throws and never inserts. */
    method UpdateAsync(owner: OwnerRow) returns (r: Result<()>)
      modifies context.owners
      ensures old(Find(context.owners.rows, OwnerKey, owner.id)).None? ==>
                r == Failure(ApplicationException(ItemNotFound)) && unchanged(context.owners)
      ensures old(Find(context.owners.rows, OwnerKey, owner.id)).Some? ==>
                r == Success(()) && context.owners.rows == old(context.owners.rows) &&
                context.owners.pending == old(context.owners.pending) + [Modify(owner)]
    {
      if Find(context.owners.rows, OwnerKey, owner.id).None? {
        return Failure(ApplicationException(ItemNotFound));
      }
      context.owners.pending := context.owners.pending + [Modify(owner)];
      r := Success(());
    }

    /** Stages the owner for deletion. */
    method Remove(owner: OwnerRow)
      modifies context.owners
      ensures context.owners.rows == old(context.owners.rows)
      ensures context.owners.pending == old(context.owners.pending) + [Delete(owner.id)]
    {
      context.owners.pending := context.owners.pending + [Delete(owner.id)];
    }

    /** Exactly the stored owners whose name contains `name`, in storage order; possibly
        empty, never null. */
    function SelectByName(name: string): (r: seq<OwnerRow>)
      reads context.owners
      ensures forall o :: o in r <==> o in context.owners.rows && Contains(o.name, name)
      ensures forall o :: multiset(r)[o] ==
                if Contains(o.name, name) then multiset(context.owners.rows)[o] else 0
    {
      Filter(context.owners.rows, (o: OwnerRow) => Contains(o.name, name))
    }

    /** The first stored owner whose email equals `email` exactly, or null. */
    function FindByEmail(email: string): (r: Option<OwnerRow>)
      reads context.owners
      ensures r.Some? ==> r.value in context.owners.rows && r.value.email == email
      ensures r.None? <==> forall o :: o in context.owners.rows ==> o.email != email
      ensures r.Some? ==>
                exists i :: 0 <= i < |context.owners.rows| && context.owners.rows[i] == r.value &&
                  forall j :: 0 <= j < i ==> context.owners.rows[j].email != email
    {
      FirstMatch(context.owners.rows, (o: OwnerRow) => o.email == email)
    }

    /** Exactly the stored owners born between `from` and `to`, both bounds inclusive. */
    function SelectByBirthDate(from: DateTime, to: DateTime): (r: seq<OwnerRow>)
      reads context.owners
      ensures forall o :: o in r <==> o in context.owners.rows && from <= o.birthdate <= to
      ensures forall o :: multiset(r)[o] ==
                if from <= o.birthdate <= to then multiset(context.owners.rows)[o] else 0
    {
      Filter(context.owners.rows, (o: OwnerRow) => from <= o.birthdate <= to)
    }
  }

  /** An item added through the generic repository, committed, and looked up again after the
      change tracker is cleared comes back equal, all columns included. */
  method AddSaveClearFind<R>(context: DataContext, repository: GenericRepository<R>, item: R)
    returns (found: Option<R>)
    requires context.Valid() && context.Committable()
    requires repository.dbSet == context.owners || repository.dbSet == context.accounts
    requires repository.FindById(repository.dbSet.key(item)).None?
    modifies context.owners, context.accounts
    ensures context.Valid()
    ensures found == Some(item)
  {
    ghost var rows0, pending0 := repository.dbSet.rows, repository.dbSet.pending;
    repository.Add(item);
    CommitInsert(rows0, repository.dbSet.key, pending0, item);
    var saved := context.SaveAllChanges();
    context.ClearChangeTracker();
    found := repository.FindById(repository.dbSet.key(item));
  }
}
