/** The two API controllers. Queries map what the repositories return into DTOs; commands
    check their guards, stage one change through a repository and commit the unit of
    work. Exceptions that escape an action (a failed commit, a failed update lookup)
    are results of their own. */
module Controllers {
  import opened Base
  import opened Entities
  import opened Mapping
  import opened Table
  import opened Persistence
  import opened Repositories

  /** The HTTP outcome of an action. Thrown is an exception that escapes the action and is
      rendered by the global error handler. */
  datatype ActionResult<T> =
    | Ok(value: T)
    | Created(value: T)
    | NoContent
    | BadRequest(message: string)
    | NotFound(message: string)
    | Conflict(message: string)
    | Thrown(error: Exception)

  const OwnerNotFound := "Owner with given Id not found"
  const EmailNotFound := "Owner with given email not found"
  const OwnerExists := "CreateOwner: Owner with the given id already exists"
  const UpdateIdMismatch := "UpdateOwner: Id in the route and body do not match."
  const UpdateOwnerNotFound := "UpdateOwner: Owner with given id not found."
  const DeleteOwnerNotFound := "DeleteOwner: Owner with given id not found."
  const AccountNotFound := "Account with given Id not found"
  const OwnerMissing := "Bad request: ownerId does't exists."
  const OwnerIdMismatch := "Bad request: ownerId from route does not match ownerId in account."
  const AccountExists := "Account with given Id already exists"
  const DeleteAccountNotFound := "UpdateAccount: Account not found."

  function InvalidFrom(from: string): string { "GetOwnerByBirthdate: Invalid date 'from': " + from }
  function InvalidTo(to: string): string { "GetOwnerByBirthdate: Invalid date 'to': " + to }

  class OwnersController {
    const ownersRepository: OwnersRepository
    const dataContext: DataContext
    /** DateTime.ParseExact(s, "yyyy-MM-dd", invariant culture); None where it throws. */
    const parseDate: string -> Option<DateTime>

    /** The repository works on the controller's unit of work. */
    ghost predicate Valid()
      reads dataContext.owners, dataContext.accounts
    {
      ownersRepository.context == dataContext && dataContext.Valid()
    }

    constructor (ownersRepository: OwnersRepository, dataContext: DataContext, parseDate: string -> Option<DateTime>)
      requires ownersRepository.context == dataContext && dataContext.Valid()
      ensures this.ownersRepository == ownersRepository && this.dataContext == dataContext
      ensures this.parseDate == parseDate && Valid()
    {
      this.ownersRepository := ownersRepository;
      this.dataContext := dataContext;
      this.parseDate := parseDate;
    }

    /** Every stored owner, as DTOs in storage order. */
    function GetOwners(): (r: ActionResult<seq<OwnerDto>>)
      reads ownersRepository.context.owners
      ensures r.Ok? && |r.value| == |ownersRepository.context.owners.rows|
      ensures forall i :: 0 <= i < |r.value| ==>
                DtoToOwnerRow(r.value[i]) == ownersRepository.context.owners.rows[i]
    {
      Ok(OwnersToDtos(ownersRepository.Select()))
    }

    /** The owner with that id, or NotFound. */
    function GetOwnerById(id: Guid): (r: ActionResult<OwnerDto>)
      reads ownersRepository.context.owners
      ensures r.Ok? || r == NotFound(OwnerNotFound)
      ensures r.Ok? <==> ownersRepository.FindById(id).Some?
      ensures r.Ok? ==> r.value.id == id && DtoToOwnerRow(r.value) == ownersRepository.FindById(id).value
    {
      match ownersRepository.FindById(id)
      case Some(owner) => Ok(OwnerToDto(owner))
      case None => NotFound(OwnerNotFound)
    }

    /** The owners whose name contains `name`; the repository never returns null, so the
        NotFound branch is dead and an empty list is Ok. */
    function GetOwnersByName(name: string): (r: ActionResult<seq<OwnerDto>>)
      reads ownersRepository.context.owners
      ensures r.Ok?
      ensures forall d :: d in r.value <==>
                DtoToOwnerRow(d) in ownersRepository.context.owners.rows && Contains(d.name, name)
    {
      Ok(OwnersToDtos(ownersRepository.SelectByName(name)))
    }

    /** The first owner with exactly that email, or NotFound. */
    function GetOwnerByEmail(email: string): (r: ActionResult<OwnerDto>)
      reads ownersRepository.context.owners
      ensures r.Ok? || r == NotFound(EmailNotFound)
      ensures r.Ok? ==> r.value.email == email && DtoToOwnerRow(r.value) in ownersRepository.context.owners.rows
      ensures r.NotFound? <==> forall o :: o in ownersRepository.context.owners.rows ==> o.email != email
      ensures r.Ok? ==>
                exists i :: 0 <= i < |ownersRepository.context.owners.rows| &&
                  ownersRepository.context.owners.rows[i] == DtoToOwnerRow(r.value) &&
                  forall j :: 0 <= j < i ==> ownersRepository.context.owners.rows[j].email != email
    {
      match ownersRepository.FindByEmail(email)
      case Some(owner) => Ok(OwnerToDto(owner))
      case None => NotFound(EmailNotFound)
    }

    /** The owners born between the two dates, both inclusive. `from` is checked before `to`. */
    function GetOwnerByBirthdate(from: string, to: string): (r: ActionResult<seq<OwnerDto>>)
      reads ownersRepository.context.owners
      ensures parseDate(from).None? ==> r == BadRequest(InvalidFrom(from))
      ensures parseDate(from).Some? && parseDate(to).None? ==> r == BadRequest(InvalidTo(to))
      ensures r.Ok? <==> parseDate(from).Some? && parseDate(to).Some?
      ensures r.Ok? ==>
                forall d :: d in r.value <==>
                  DtoToOwnerRow(d) in ownersRepository.context.owners.rows &&
                  parseDate(from).value <= d.birthdate <= parseDate(to).value
    {
      match parseDate(from)
      case None => BadRequest(InvalidFrom(from))
      case Some(dateFrom) =>
        match parseDate(to)
        case None => BadRequest(InvalidTo(to))
        case Some(dateTo) => Ok(OwnersToDtos(ownersRepository.SelectByBirthDate(dateFrom, dateTo)))
    }

    /** Creates the owner of the request body. An id the tracked lookup already sees is a
        BadRequest and stages nothing. Otherwise the owner is staged and everything staged
        is committed: on success the store holds the new owner, every other lookup answers
        as before, and the response echoes the body; a failed commit escapes and leaves the
        insert staged. */
    method CreateOwner(ownerDto: OwnerDto) returns (r: ActionResult<OwnerDto>)
      requires Valid()
      modifies dataContext.owners, dataContext.accounts
      ensures Valid()
      ensures old(ownersRepository.FindById(ownerDto.id)).Some? ==>
                r == BadRequest(OwnerExists) && unchanged(dataContext.owners, dataContext.accounts)
      ensures old(ownersRepository.FindById(ownerDto.id)).None? && old(dataContext.Committable()) ==>
                r == Created(ownerDto) &&
                dataContext.owners.pending == [] && dataContext.accounts.pending == [] &&
                (forall id :: Find(dataContext.owners.rows, OwnerKey, id) ==
                   if id == ownerDto.id then Some(DtoToOwnerRow(ownerDto)) else old(ownersRepository.FindById(id))) &&
                dataContext.accounts.rows == old(dataContext.accounts.Committed()).value
      ensures old(ownersRepository.FindById(ownerDto.id)).None? && !old(dataContext.Committable()) ==>
                r == Thrown(DbUpdateException) &&
                dataContext.owners.rows == old(dataContext.owners.rows) &&
                dataContext.owners.pending == old(dataContext.owners.pending) + [Insert(DtoToOwnerRow(ownerDto))] &&
                unchanged(dataContext.accounts)
    {
      var owner := DtoToOwner(ownerDto);
      if ownersRepository.FindById(owner.id).Some? {
        return BadRequest(OwnerExists);
      }
      var row := owner.Row();
      ghost var rows0, pending0 := dataContext.owners.rows, dataContext.owners.pending;
      ownersRepository.Add(row);
      CommitAppend(rows0, OwnerKey, pending0, Insert(row));
      if Commit(rows0, OwnerKey, pending0).Some? {
        CommitInsert(rows0, OwnerKey, pending0, row);
      }
      var saved := dataContext.SaveAllChanges();
      if saved.Failure? {
        return Thrown(saved.error);
      }
      forall id | true
        ensures Find(dataContext.owners.rows, OwnerKey, id) ==
                  if id == ownerDto.id then Some(row) else FindTracked(rows0, OwnerKey, pending0, id)
      {
        CommitLast(rows0, OwnerKey, pending0, Insert(row), id);
      }
      r := Created(OwnerToDto(row));
    }

    /** Updates name and email of the owner `id`; the birthdate of the body is ignored and the
        response echoes the body. A route id that differs from the body's is a BadRequest, an
        owner the tracked lookup does not see is NotFound, and an owner that is tracked but
        not yet stored makes the update lookup throw; none of these changes anything stored
        or staged. */
    method UpdateOwner(id: Guid, updOwnerDto: OwnerDto) returns (r: ActionResult<OwnerDto>)
      requires Valid()
      modifies dataContext.owners, dataContext.accounts
      ensures Valid()
      ensures id != updOwnerDto.id ==>
                r == BadRequest(UpdateIdMismatch) && unchanged(dataContext.owners, dataContext.accounts)
      ensures id == updOwnerDto.id && old(ownersRepository.FindById(id)).None? ==>
                r == NotFound(UpdateOwnerNotFound) && unchanged(dataContext.owners, dataContext.accounts)
      ensures id == updOwnerDto.id && old(ownersRepository.FindById(id)).Some? &&
              old(Find(dataContext.owners.rows, OwnerKey, id)).None? ==>
                r == Thrown(ApplicationException(ItemNotFound)) &&
                unchanged(dataContext.owners, dataContext.accounts)
      ensures id == updOwnerDto.id && old(ownersRepository.FindById(id)).Some? &&
              old(Find(dataContext.owners.rows, OwnerKey, id)).Some? ==>
                var updated := old(ownersRepository.FindById(id)).value.(name := updOwnerDto.name, email := updOwnerDto.email);
                if old(dataContext.Committable()) then
                  r == Ok(updOwnerDto) &&
                  dataContext.owners.pending == [] && dataContext.accounts.pending == [] &&
                  (forall k :: Find(dataContext.owners.rows, OwnerKey, k) ==
                     if k == id then Some(updated) else old(ownersRepository.FindById(k))) &&
                  dataContext.accounts.rows == old(dataContext.accounts.Committed()).value
                else
                  r == Thrown(DbUpdateException) &&
                  dataContext.owners.rows == old(dataContext.owners.rows) &&
                  dataContext.owners.pending == old(dataContext.owners.pending) + [Modify(updated)] &&
                  unchanged(dataContext.accounts)
    {
      var updOwner := DtoToOwnerRow(updOwnerDto);
      if id != updOwner.id {
        return BadRequest(UpdateIdMismatch);
      }
      var found := ownersRepository.FindById(id);
      if found.None? {
        return NotFound(UpdateOwnerNotFound);
      }
      var owner := new Owner(found.value.id, found.value.name, found.value.birthdate, found.value.email);
      owner.Update(updOwner.name, updOwner.email);
      var row := owner.Row();
      ghost var rows0, pending0 := dataContext.owners.rows, dataContext.owners.pending;
      var updated := ownersRepository.UpdateAsync(row);
      if updated.Failure? {
        return Thrown(updated.error);
      }
      CommitAppend(rows0, OwnerKey, pending0, Modify(row));
      if Commit(rows0, OwnerKey, pending0).Some? {
        CommitTouchExisting(rows0, OwnerKey, pending0, Modify(row));
      }
      var saved := dataContext.SaveAllChanges();
      if saved.Failure? {
        return Thrown(saved.error);
      }
      forall k | true
        ensures Find(dataContext.owners.rows, OwnerKey, k) ==
                  if k == id then Some(row) else FindTracked(rows0, OwnerKey, pending0, k)
      {
        CommitLast(rows0, OwnerKey, pending0, Modify(row), k);
      }
      r := Ok(OwnerToDto(updOwner));
    }

    /** Deletes the owner `id`. An owner the tracked lookup does not see is NotFound and
        changes nothing; otherwise the delete is staged and committed, after which no owner
        has that id and every other lookup answers as before. */
    method DeleteOwner(id: Guid) returns (r: ActionResult<()>)
      requires Valid()
      modifies dataContext.owners, dataContext.accounts
      ensures Valid()
      ensures old(ownersRepository.FindById(id)).None? ==>
                r == NotFound(DeleteOwnerNotFound) && unchanged(dataContext.owners, dataContext.accounts)
      ensures old(ownersRepository.FindById(id)).Some? && old(dataContext.Committable()) ==>
                r == NoContent &&
                dataContext.owners.pending == [] && dataContext.accounts.pending == [] &&
                (forall k :: Find(dataContext.owners.rows, OwnerKey, k) ==
                   if k == id then None else old(ownersRepository.FindById(k))) &&
                dataContext.accounts.rows == old(dataContext.accounts.Committed()).value
      ensures old(ownersRepository.FindById(id)).Some? && !old(dataContext.Committable()) ==>
                r == Thrown(DbUpdateException) &&
                dataContext.owners.rows == old(dataContext.owners.rows) &&
                dataContext.owners.pending == old(dataContext.owners.pending) + [Delete(id)] &&
                unchanged(dataContext.accounts)
    {
      var found := ownersRepository.FindById(id);
      if found.None? {
        return NotFound(DeleteOwnerNotFound);
      }
      ghost var rows0, pending0 := dataContext.owners.rows, dataContext.owners.pending;
      ownersRepository.Remove(found.value);
      CommitAppend(rows0, OwnerKey, pending0, Delete(id));
      if Commit(rows0, OwnerKey, pending0).Some? {
        CommitTouchExisting(rows0, OwnerKey, pending0, Delete(id));
      }
      var saved := dataContext.SaveAllChanges();
      if saved.Failure? {
        return Thrown(saved.error);
      }
      forall k | true
        ensures Find(dataContext.owners.rows, OwnerKey, k) ==
                  if k == id then None else FindTracked(rows0, OwnerKey, pending0, k)
      {
        CommitLast(rows0, OwnerKey, pending0, Delete(id), k);
      }
      r := NoContent;
    }
  }

  class AccountsController {
    const ownersRepository: OwnersRepository
    const accountsRepository: GenericRepository<AccountRow>
    const dataContext: DataContext
    /** The NullOwner sentinel a freshly mapped account points to. */
    const nullOwner: Owner

    /** Both repositories work on the controller's unit of work. */
    ghost predicate Valid()
      reads dataContext.owners, dataContext.accounts
    {
      ownersRepository.context == dataContext && accountsRepository.dbSet == dataContext.accounts &&
      dataContext.Valid()
    }

    constructor (ownersRepository: OwnersRepository, accountsRepository: GenericRepository<AccountRow>,
                 dataContext: DataContext, nullOwner: Owner)
      requires ownersRepository.context == dataContext && accountsRepository.dbSet == dataContext.accounts
      requires dataContext.Valid()
      ensures this.ownersRepository == ownersRepository && this.accountsRepository == accountsRepository
      ensures this.dataContext == dataContext && this.nullOwner == nullOwner && Valid()
    {
      this.ownersRepository := ownersRepository;
      this.accountsRepository := accountsRepository;
      this.dataContext := dataContext;
      this.nullOwner := nullOwner;
    }

    /** The accounts "of owner `ownerId`" as the action selects them: the filter compares the
        account's own Id with the owner id, so only an account whose id equals the owner id
        is listed, whoever owns it. */
    function GetAccountsByOwner(ownerId: Guid): (r: ActionResult<seq<AccountDto>>)
      reads accountsRepository.dbSet
      ensures r.Ok?
      ensures forall d :: d in r.value <==> DtoToAccountRow(d) in accountsRepository.dbSet.rows && d.id == ownerId
    {
      Ok(AccountsToDtos(accountsRepository.FilterBy((a: AccountRow) => a.id == ownerId)))
    }

    /** The accounts of owner `ownerId`, selected by their foreign key, as the route and the
        commented-out SelectByOwnerIdAsync intend. */
    function GetAccountsByOwnerCorrected(ownerId: Guid): (r: ActionResult<seq<AccountDto>>)
      reads accountsRepository.dbSet
      ensures r.Ok?
      ensures forall d :: d in r.value <==> DtoToAccountRow(d) in accountsRepository.dbSet.rows && d.ownerId == ownerId
    {
      Ok(AccountsToDtos(accountsRepository.FilterBy((a: AccountRow) => a.ownerId == ownerId)))
    }

    /** The account with that id, or NotFound. */
    function GetAccountById(id: Guid): (r: ActionResult<AccountDto>)
      reads accountsRepository.dbSet
      ensures r.Ok? || r == NotFound(AccountNotFound)
      ensures r.Ok? <==> accountsRepository.FindById(id).Some?
      ensures r.Ok? ==> DtoToAccountRow(r.value) == accountsRepository.FindById(id).value
      ensures r.Ok? ==> accountsRepository.dbSet.key(DtoToAccountRow(r.value)) == id
    {
      match accountsRepository.FindById(id)
      case Some(account) => Ok(AccountToDto(account))
      case None => NotFound(AccountNotFound)
    }

    /** The first stored account with exactly that IBAN, or NotFound (with the by-id message). */
    function GetAccountByIban(iban: string): (r: ActionResult<AccountDto>)
      reads accountsRepository.dbSet
      ensures r.Ok? || r == NotFound(AccountNotFound)
      ensures r.Ok? ==> r.value.iban == iban && DtoToAccountRow(r.value) in accountsRepository.dbSet.rows
      ensures r.NotFound? <==> forall a :: a in accountsRepository.dbSet.rows ==> a.iban != iban
      ensures r.Ok? ==>
                exists i :: 0 <= i < |accountsRepository.dbSet.rows| &&
                  accountsRepository.dbSet.rows[i] == DtoToAccountRow(r.value) &&
                  forall j :: 0 <= j < i ==> accountsRepository.dbSet.rows[j].iban != iban
    {
      match accountsRepository.FindBy((a: AccountRow) => a.iban == iban)
      case Some(account) => Ok(AccountToDto(account))
      case None => NotFound(AccountNotFound)
    }

    /** Creates the account of the body for owner `ownerId`. The guards run in order: an owner
        the tracked lookup does not see, then a body whose OwnerId differs from the route,
        then an account id that is already seen; each rejects without staging anything.
        Otherwise the account joins its owner and is staged and everything staged is
        committed: on success the store holds the new account, every other lookup answers
        as before, and the response echoes the body; a failed commit escapes and leaves the
        insert staged. */
    method CreateAccount(ownerId: Guid, accountDto: AccountDto) returns (r: ActionResult<AccountDto>)
      requires Valid()
      modifies dataContext.owners, dataContext.accounts
      ensures Valid()
      ensures old(ownersRepository.FindById(ownerId)).None? ==>
                r == BadRequest(OwnerMissing) && unchanged(dataContext.owners, dataContext.accounts)
      ensures old(ownersRepository.FindById(ownerId)).Some? && accountDto.ownerId != ownerId ==>
                r == BadRequest(OwnerIdMismatch) && unchanged(dataContext.owners, dataContext.accounts)
      ensures old(ownersRepository.FindById(ownerId)).Some? && accountDto.ownerId == ownerId &&
              old(accountsRepository.FindById(accountDto.id)).Some? ==>
                r == Conflict(AccountExists) && unchanged(dataContext.owners, dataContext.accounts)
      ensures old(ownersRepository.FindById(ownerId)).Some? && accountDto.ownerId == ownerId &&
              old(accountsRepository.FindById(accountDto.id)).None? ==>
                if old(dataContext.Committable()) then
                  r == Created(accountDto) &&
                  dataContext.owners.pending == [] && dataContext.accounts.pending == [] &&
                  (forall id :: Find(dataContext.accounts.rows, AccountKey, id) ==
                     if id == accountDto.id then Some(DtoToAccountRow(accountDto)) else old(accountsRepository.FindById(id))) &&
                  dataContext.owners.rows == old(dataContext.owners.Committed()).value
                else
                  r == Thrown(DbUpdateException) &&
                  dataContext.accounts.rows == old(dataContext.accounts.rows) &&
                  dataContext.accounts.pending == old(dataContext.accounts.pending) + [Insert(DtoToAccountRow(accountDto))] &&
                  unchanged(dataContext.owners)
    {
      var account := DtoToAccount(accountDto, nullOwner);
      var found := ownersRepository.FindById(ownerId);
      if found.None? {
        return BadRequest(OwnerMissing);
      }
      if account.ownerId != ownerId {
        return BadRequest(OwnerIdMismatch);
      }
      if accountsRepository.FindById(account.id).Some? {
        return Conflict(AccountExists);
      }
      var owner := new Owner(found.value.id, found.value.name, found.value.birthdate, found.value.email);
      var added := owner.Add(account);
      assert added.Success?;
      var row := account.Row();
      ghost var rows0, pending0 := dataContext.accounts.rows, dataContext.accounts.pending;
      accountsRepository.Add(row);
      CommitAppend(rows0, AccountKey, pending0, Insert(row));
      if Commit(rows0, AccountKey, pending0).Some? {
        CommitInsert(rows0, AccountKey, pending0, row);
      }
      var saved := dataContext.SaveAllChanges();
      if saved.Failure? {
        return Thrown(saved.error);
      }
      forall id | true
        ensures Find(dataContext.accounts.rows, AccountKey, id) ==
                  if id == accountDto.id then Some(row) else FindTracked(rows0, AccountKey, pending0, id)
      {
        CommitLast(rows0, AccountKey, pending0, Insert(row), id);
      }
      r := Created(AccountToDto(row));
    }

    /** Deletes the account `id`; the owner in the route is not consulted. An account the
        tracked lookup does not see is NotFound and changes nothing; otherwise the delete is
        staged and committed, after which no account has that id and every other lookup
        answers as before. */
    method DeleteAccount(ownerId: Guid, id: Guid) returns (r: ActionResult<()>)
      requires Valid()
      modifies dataContext.owners, dataContext.accounts
      ensures Valid()
      ensures old(accountsRepository.FindById(id)).None? ==>
                r == NotFound(DeleteAccountNotFound) && unchanged(dataContext.owners, dataContext.accounts)
      ensures old(accountsRepository.FindById(id)).Some? && old(dataContext.Committable()) ==>
                r == NoContent &&
                dataContext.owners.pending == [] && dataContext.accounts.pending == [] &&
                (forall k :: Find(dataContext.accounts.rows, AccountKey, k) ==
                   if k == id then None else old(accountsRepository.FindById(k))) &&
                dataContext.owners.rows == old(dataContext.owners.Committed()).value
      ensures old(accountsRepository.FindById(id)).Some? && !old(dataContext.Committable()) ==>
                r == Thrown(DbUpdateException) &&
                dataContext.accounts.rows == old(dataContext.accounts.rows) &&
                dataContext.accounts.pending == old(dataContext.accounts.pending) + [Delete(id)] &&
                unchanged(dataContext.owners)
    {
      var found := accountsRepository.FindById(id);
      if found.None? {
        return NotFound(DeleteAccountNotFound);
      }
      ghost var rows0, pending0 := dataContext.accounts.rows, dataContext.accounts.pending;
      accountsRepository.Remove(found.value);
      CommitAppend(rows0, AccountKey, pending0, Delete(id));
      if Commit(rows0, AccountKey, pending0).Some? {
        CommitTouchExisting(rows0, AccountKey, pending0, Delete(id));
      }
      var saved := dataContext.SaveAllChanges();
      if saved.Failure? {
        return Thrown(saved.error);
      }
      forall k | true
        ensures Find(dataContext.accounts.rows, AccountKey, k) ==
                  if k == id then None else FindTracked(rows0, AccountKey, pending0, k)
      {
        CommitLast(rows0, AccountKey, pending0, Delete(id), k);
      }
      r := NoContent;
    }

    /** Posting the same account twice: once the first request has created it, the second
        is a Conflict and changes nothing, so the store is left as the first request left
        it. */
    method CreateAccountTwice(ownerId: Guid, accountDto: AccountDto) returns (first: ActionResult<AccountDto>, second: ActionResult<AccountDto>)
      requires Valid()
      modifies dataContext.owners, dataContext.accounts
      ensures Valid()
      ensures first.Created? ==> second == Conflict(AccountExists) && old(dataContext.Committable())
      ensures first.Created? ==>
                dataContext.owners.pending == [] && dataContext.accounts.pending == [] &&
                (forall id :: Find(dataContext.accounts.rows, AccountKey, id) ==
                   if id == accountDto.id then Some(DtoToAccountRow(accountDto)) else old(accountsRepository.FindById(id))) &&
                dataContext.owners.rows == old(dataContext.owners.Committed()).value
    {
      ghost var owners0, ownersPending0 := dataContext.owners.rows, dataContext.owners.pending;
      first := CreateAccount(ownerId, accountDto);
      if first.Created? {
        CommitMatchesTracked(owners0, OwnerKey, ownersPending0, ownerId);
        assert Find(dataContext.accounts.rows, AccountKey, accountDto.id).Some?;
      }
      second := CreateAccount(ownerId, accountDto);
    }
  }

  /** GetAccountsByOwner as written leaves out an owner's account whose id differs from the
      owner's id, which the foreign-key filter lists. */
  lemma GetAccountsByOwnerMissesAccounts(c: AccountsController, a: AccountRow)
    requires c.accountsRepository.dbSet.rows == [a] && a.id != a.ownerId
    ensures c.GetAccountsByOwner(a.ownerId) == Ok([])
    ensures AccountToDto(a) in c.GetAccountsByOwnerCorrected(a.ownerId).value
  {
    assert DtoToAccountRow(AccountToDto(a)) == a;
  }
}
