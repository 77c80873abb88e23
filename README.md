# Banking Web API core, modelled in Dafny

A verified model of the core of a small banking CRUD web API (ASP.NET Core with Entity
Framework Core). The API manages **owners** and their **accounts**:

- Owner is the aggregate root. `Owner.Add` attaches an account by writing its back-reference
  and its foreign key.
- A "no owner" sentinel stands in for an account's missing owner.
- Repositories query the tables and stage changes. The `DataContext` unit of work commits
  those changes at one point.
- Two controllers turn HTTP requests into guard chains, staged changes and one save.
- A mapping profile projects the entities onto the `OwnerDto` / `AccountDto` wire records.

Module layout, following the program's projects:

- `base.dfy`, module `Base`: the shared value types.
  - `Guid` is a 128-bit identifier with `EmptyGuid`.
  - `DateTime` is its tick count, ordered like the ticks.
  - `DateTime.ToUniversalTime` with its clamping.
  - Ordinal string predicates.
  - `Option`, `Result`, and the thrown exceptions as values.
- `entities.dfy`, module `Entities`: the `Owner` and `Account` classes, whose fields are updated in place.
  - Init-only properties are `const`.
  - The persisted columns of each entity are a row datatype (`OwnerRow`, `AccountRow`).
  - The `NullOwner` sentinel is the constructor `Owner.Null`.
- `mapping.dfy`, module `Mapping`: the DTO records and the four projections of the mapping profile.
- `table.dfy`, module `Table`: EF Core's observable contract on one table, as values.
  - The committed rows, and a queue of staged `Insert` / `Modify` / `Delete` changes.
  - The all-or-nothing commit of that queue (primary-key violations fail it).
  - The primary-key lookup `Find`.
  - The tracked lookup `FindTracked`, which stands for EF's `Find`: the latest staged change of a key first, then the committed table. It differs from EF after a staged delete (see "Left out").
  - Filtering and first-match queries, all over committed rows.
  - The lemmas relating commit and lookup.
- `persistence.dfy`, module `Persistence`: the rest of the unit of work.
  - `DbSet` is a class holding the rows and the queue.
  - `DataContext` holds the two sets, with `SaveAllChanges` and `ClearChangeTracker`.
  - The configuration resolution `EvalDatabaseConfiguration`.
- `repositories.dfy`, module `Repositories`: `GenericRepository<T>` (used for accounts) and `OwnersRepository`.
  - Queries are functions of the store.
  - Mutations are methods that stage changes.
- `controllers.dfy`, module `Controllers`: `OwnersController` and `AccountsController`.
  - GET actions are functions.
  - Commands are methods that return an `ActionResult`.
  - An exception escaping an action is the result `Thrown`.

Each command's contract states:

- which guard fires, in source order;
- that a rejected request leaves both tables and both change queues unchanged;
- what the store holds after a successful save. The changed key answers with the new row or
  with nothing. Every other key answers a primary-key lookup as the tracked lookup answered
  it before the request. The other table holds what its staged changes committed to.
- that the save can fail only when the change queues were already uncommittable. In that
  case the exception escapes and the new change stays staged.

Parameters stand for sources of values the model cannot compute:

- the local UTC offset, for `ToUniversalTime`;
- `Guid.NewGuid()` and `DateTime.UtcNow`;
- the user's documents folder;
- `DateTime.ParseExact`.

Where the code and its tests disagree, the model follows the code:

- **Duplicate owner id.** `CreateOwner` answers a duplicate owner id with BadRequest
  (WebApi.Controllers/Controllers/OwnersController.cs:135-136). The mocked controller test
  expects Conflict (WebApiTest.Controllers/Controllers.Moq/OwnersControllerUt.cs:210).
- **Adding a fresh account.** `Owner.Add` rejects an account whose `OwnerId` is still the
  empty default (WebApi.Core/Core/DomainModel/Entities/Owner.cs:31). A fresh account has that
  default (WebApi.Core/Core/DomainModel/Entities/Account.cs:12). The repository test nevertheless
  adds such an account to a non-sentinel owner
  (WebApiTest/Persistence/Repositories/AccountsRepositoryUt.cs:32-39).
  `Entities.AddFreshAccount` states the code's behaviour: it succeeds exactly for an owner
  with the empty id.

Messages are the source's own strings, spelling included ("asigned", "does't").

## Model

| member | source | states |
|---|---|---|
| Base.Contains | WebApi.Persistence/Persistence/OwnersRepository.cs:37 | ordinal substring containment: the empty string is contained in every string, nothing longer than s is contained in s, and s contains itself |
| Base.ToUniversalTime | WebApi.Core/Core/DomainModel/NullEntities/NullOwner.cs:15 | the local offset is subtracted, and a result outside the DateTime range is clamped to MinValue or MaxValue |
| Entities.Owner.Row | WebApi.Core/Core/DomainModel/Entities/Owner.cs:8-11 | the persisted columns carry the owner's id and birthdate |
| Entities.Owner.Default | WebApi.Core/Core/DomainModel/Entities/Owner.cs:8-21 | a new owner gets the freshly generated id and the current UTC time as birthdate; its name, email and accounts are empty, and the aggregate invariant holds |
| Entities.Owner.constructor | WebApi.Core/Core/DomainModel/Entities/Owner.cs:8-15 | an initialised owner has exactly the given columns, no accounts, and the aggregate invariant |
| Entities.Owner.Null | WebApi.Core/Core/DomainModel/NullEntities/NullOwner.cs:8-16 | the sentinel's id is Guid.Empty and its birthdate is MinValue.ToUniversalTime(), which is MinValue itself for a non-negative offset; its name, email and accounts are empty |
| Entities.Owner.Update | WebApi.Core/Core/DomainModel/Entities/Owner.cs:25-28 | name and email become exactly the arguments; id, birthdate and accounts are unchanged, and so is the invariant |
| Entities.Owner.Add | WebApi.Core/Core/DomainModel/Entities/Owner.cs:30-36 | throws ApplicationException exactly when account.OwnerId differs from Id, and then changes neither object; otherwise it sets the back-reference and foreign key and appends the account once, with no duplicate check, and it preserves "every listed account has OwnerId == Id" |
| Entities.AddFreshAccount | WebApi.Core/Core/DomainModel/Entities/Owner.cs:30-36 | a fresh account can be added exactly to an owner with the empty id, i.e. the sentinel; any other owner throws and is unchanged |
| Entities.Account.Row | WebApi.Core/Core/DomainModel/Entities/Account.cs:6-12 | the persisted columns carry the account's id, IBAN and balance |
| Entities.Account.Default | WebApi.Core/Core/DomainModel/Entities/Account.cs:6-17 | a new account gets the freshly generated id, an empty IBAN and a zero balance; its Owner is the sentinel and its OwnerId is the sentinel's id |
| Entities.Account.constructor | WebApi.Core/Core/DomainModel/Entities/Account.cs:6-12 | an initialised account has exactly the given columns, and the sentinel as Owner |
| Mapping.OwnerToDto | WebApi.Core/Core/Mapping/MappingProfile.cs:9 | copies Id, Name, Birthdate and Email |
| Mapping.DtoToOwnerRow | WebApi.Core/Core/Mapping/MappingProfile.cs:10-11 | copies Id, Name, Birthdate and Email back |
| Mapping.DtoToOwner | WebApi.Core/Core/Mapping/MappingProfile.cs:10-11 | a fresh owner with the DTO's columns; Accounts is ignored and stays empty |
| Mapping.AccountToDto | WebApi.Core/Core/Mapping/MappingProfile.cs:13 | copies Id, Iban, Balance and OwnerId and drops the Owner reference |
| Mapping.DtoToAccountRow | WebApi.Core/Core/Mapping/MappingProfile.cs:14-15 | copies Id, Iban, Balance and OwnerId back |
| Mapping.DtoToAccount | WebApi.Core/Core/Mapping/MappingProfile.cs:14-15 | a fresh account with the DTO's columns whose Owner is ignored and stays the sentinel |
| Mapping.OwnersToDtos | WebApi.Core/Core/Mapping/MappingProfile.cs:9 | maps a list element by element, keeping its order and length; a DTO is in the result exactly when its owner is in the input |
| Mapping.AccountsToDtos | WebApi.Core/Core/Mapping/MappingProfile.cs:13 | the same for accounts |
| Mapping.OwnerDtoRoundTrip | WebApi.Core/Core/Mapping/MappingProfile.cs:9-11 | OwnerDto -> Owner -> OwnerDto is the identity, so a Created response echoes its request |
| Mapping.OwnerRowRoundTrip | WebApi.Core/Core/Mapping/MappingProfile.cs:9-11 | Owner -> OwnerDto -> Owner restores every column |
| Mapping.AccountDtoRoundTrip | WebApi.Core/Core/Mapping/MappingProfile.cs:13-15 | AccountDto -> Account -> AccountDto is the identity |
| Mapping.AccountRowRoundTrip | WebApi.Core/Core/Mapping/MappingProfile.cs:13-15 | Account -> AccountDto -> Account restores every column |
| Table.Find | WebApi.Persistence/Persistence/AGenericRepository.cs:55-56 | the primary-key lookup in the committed table returns a stored row with that key, or nothing exactly when no stored row has it |
| Table.Filter | WebApi.Persistence/Persistence/AGenericRepository.cs:63-67 | exactly the rows satisfying the predicate, each as often as stored |
| Table.FilterConcat | WebApi.Persistence/Persistence/AGenericRepository.cs:63-67 | filtering a concatenation filters each part and concatenates the results, so the kept rows stay in storage order |
| Table.FirstMatch | WebApi.Persistence/Persistence/AGenericRepository.cs:74-76 | the first row satisfying the predicate, or nothing exactly when none does |
| Table.Replace | WebApi.Persistence/Persistence/AGenericRepository.cs:100-101 | the row with the item's key takes the item's values, and every other row keeps its position and values |
| Table.Without | WebApi.Persistence/Persistence/AGenericRepository.cs:108-110 | a delete removes exactly the rows with that key |
| Table.WithoutIsFilter | WebApi.Persistence/Persistence/AGenericRepository.cs:108-110 | a delete is the filter on every other key, so the remaining rows keep their storage order |
| Table.Apply | WebApi.Persistence/Persistence/DataContext.cs:42 | one change fails exactly when it violates the primary key: an insert of an existing key, or an update or delete of a missing one |
| Table.Commit | WebApi.Persistence/Persistence/DataContext.cs:36-48 | a save with nothing staged leaves the table as it is, and a successful save keeps the primary key of the table |
| Table.AfterChange | WebApi.Persistence/Persistence/DataContext.cs:42 | a change of another key leaves a key's lookup as it was; a change of the key itself decides it: an insert or update shows its row, a delete shows nothing |
| Table.Inserts | WebApi.Persistence/Persistence/AGenericRepository.cs:89-90 | one insert per item, in order |
| Table.FindTracked | WebApi.Persistence/Persistence/AGenericRepository.cs:55-56 | Find returns only a row with the requested key (weaker than EF after a staged delete, see "Left out") |
| Table.FindUnique | WebApi.Persistence/Persistence/AGenericRepository.cs:55-56 | with unique keys, looking up a stored row's key finds that very row |
| Table.FindAppend | WebApi.Persistence/Persistence/DataContext.cs:42 | after an insert, a lookup finds the inserted row for its key and is otherwise unchanged |
| Table.FindReplace | WebApi.Persistence/Persistence/AGenericRepository.cs:100-101 | after an update of an existing key, a lookup of that key finds the new values |
| Table.FindReplaceOther | WebApi.Persistence/Persistence/AGenericRepository.cs:100-101 | an update leaves the lookup of every other key unchanged |
| Table.FindWithoutOther | WebApi.Persistence/Persistence/AGenericRepository.cs:108-110 | a delete leaves the lookup of every other key unchanged |
| Table.FindAfterApply | WebApi.Persistence/Persistence/DataContext.cs:42 | after a successful change, every lookup answers as that change makes it answer |
| Table.CommitAppend | WebApi.Persistence/Persistence/DataContext.cs:42 | committing a queue with one more change commits the rest first and then applies it |
| Table.CommitMatchesTracked | WebApi.Persistence/Persistence/DataContext.cs:36-48 | after a successful save, the committed table answers every key as Find answered it before the save |
| Table.CommitLast | WebApi.Persistence/Persistence/DataContext.cs:36-48 | after a successful save whose last change is c, every key answers as the earlier tracked view, changed by c |
| Table.ReplaceKeys | WebApi.Persistence/Persistence/AGenericRepository.cs:100-101 | an update never changes a stored row's key |
| Table.WithoutUnique | WebApi.Persistence/Persistence/AGenericRepository.cs:108-110 | a delete keeps the keys unique |
| Table.ApplyUnique | WebApi.Persistence/Persistence/DataContext.cs:42 | every successful change keeps the keys unique |
| Table.CommitInsert | WebApi.Persistence/Persistence/AGenericRepository.cs:82-83 | adding a row whose key Find does not see keeps a committable queue committable, and after the save the lookup of its key finds it |
| Table.CommitTouchExisting | WebApi.Persistence/Persistence/AGenericRepository.cs:97-110 | updating or removing a key that Find sees keeps a committable queue committable |
| Table.FirstMatchIsFirstOfFilter | WebApi.Persistence/Persistence/AGenericRepository.cs:63-76 | FindBy returns the first element of FilterBy with the same predicate, and null when that is empty |
| Persistence.DbSet.constructor | WebApi.Persistence/Persistence/DataContext.cs:15-16 | an entity set starts empty with nothing staged, keyed by the given primary key |
| Persistence.DbSet.Committed | WebApi.Persistence/Persistence/DataContext.cs:42 | what a save would make of the set: its stored rows when nothing is staged, and rows with unique keys whenever the save succeeds |
| Persistence.DataContext.constructor | WebApi.Persistence/Persistence/DataContext.cs:15-28 | a new context has two fresh, empty sets keyed by the owner and account ids |
| Persistence.DataContext.SaveAllChanges | WebApi.Persistence/Persistence/DataContext.cs:36-48 | when both queues commit, both tables become their committed values, nothing stays staged, and the result is true exactly when some row was affected; otherwise DbUpdateException escapes and nothing changes; the primary keys hold after the save either way |
| Persistence.DataContext.ClearChangeTracker | WebApi.Persistence/Persistence/DataContext.cs:50-51 | everything staged is dropped, and no stored row changes |
| Persistence.PathCombine | WebApi.Persistence/Persistence/DataContext.cs:78 | the result ends with the second path; it is the second path when that is rooted or the first is empty, the first path when the second is empty, and otherwise the first path, then '/' unless the first already ends with one, then the second path |
| Persistence.EvalDatabaseConfiguration | WebApi.Persistence/Persistence/DataContext.cs:64-100 | it throws "UseDatabase is not available" when that value is missing, then "ConnectionStrings is not available" when that value has no connection string; it succeeds exactly for LocalDb, SqlServer and Sqlite and returns the configured name first; for SqlServer it returns the raw connection string |
| Persistence.SqliteDataSource | WebApi.Persistence/Persistence/DataContext.cs:93-96 | the Sqlite data source is "Data Source=", then the connection string joined to documents/WebApi, then ".db" |
| Persistence.LocalDbDataSource | WebApi.Persistence/Persistence/DataContext.cs:84-87 | the LocalDb data source starts with the LocalDB server, has the Initial Catalog part right after it, and ends with the AttachDbFileName part |
| Persistence.LocalDbParts | WebApi.Persistence/Persistence/DataContext.cs:84-87 | the LocalDb data source starts with the LocalDB server and contains the Initial Catalog and AttachDbFileName parts |
| Persistence.LocalDbDataSourceParts | WebApi.Persistence/Persistence/DataContext.cs:82-88 | for LocalDb the data source names the connection string as Initial Catalog and attaches documents/WebApi/<connection string>.mdf |
| Repositories.GenericRepository.constructor | WebApi.Persistence/Persistence/AGenericRepository.cs:30-35 | the repository works on the given entity set of the context |
| Repositories.GenericRepository.Select | WebApi.Persistence/Persistence/AGenericRepository.cs:44-48 | all stored items in storage order, whatever withTracking says |
| Repositories.GenericRepository.FindById | WebApi.Persistence/Persistence/AGenericRepository.cs:55-56 | only an item with that id; with nothing staged, a stored item, or null exactly when none is stored |
| Repositories.GenericRepository.FilterBy | WebApi.Persistence/Persistence/AGenericRepository.cs:63-67 | exactly the stored items satisfying the predicate, with their multiplicities |
| Repositories.GenericRepository.FindBy | WebApi.Persistence/Persistence/AGenericRepository.cs:74-76 | the first stored item satisfying the predicate, or null exactly when none does |
| Repositories.GenericRepository.Add | WebApi.Persistence/Persistence/AGenericRepository.cs:82-83 | stages one insert, with no duplicate check, and stores nothing |
| Repositories.GenericRepository.AddRange | WebApi.Persistence/Persistence/AGenericRepository.cs:89-90 | stages one insert per item, in order, and stores nothing |
| Repositories.GenericRepository.UpdateAsync | WebApi.Persistence/Persistence/AGenericRepository.cs:97-102 | throws "Update failed, item not found" and changes nothing when Find does not see the id; otherwise it stages an update with the item's values and never an insert |
| Repositories.GenericRepository.Remove | WebApi.Persistence/Persistence/AGenericRepository.cs:108-110 | stages a delete of the item's key and stores nothing |
| Repositories.AddSaveClearFind | WebApiTest/Persistence/Repositories/AccountsRepositoryUt.cs:38-48 | an item added, saved and found again after the change tracker is cleared comes back equal |
| Repositories.OwnersRepository.constructor | WebApi.Persistence/Persistence/OwnersRepository.cs:11-13 | the repository works on the given data context |
| Repositories.OwnersRepository.Select | WebApi.Persistence/Persistence/OwnersRepository.cs:15-16 | all stored owners in storage order |
| Repositories.OwnersRepository.FindById | WebApi.Persistence/Persistence/OwnersRepository.cs:18-19 | only the owner with that id; with nothing staged, a stored owner, or null exactly when none is stored |
| Repositories.OwnersRepository.Add | WebApi.Persistence/Persistence/OwnersRepository.cs:21-22 | stages one insert into the Owners set only |
| Repositories.OwnersRepository.UpdateAsync | WebApi.Persistence/Persistence/OwnersRepository.cs:24-30 | throws "Update failed, item not found" and changes nothing when no stored owner has the id (a merely staged one included); otherwise it stages an update with the owner's values |
| Repositories.OwnersRepository.Remove | WebApi.Persistence/Persistence/OwnersRepository.cs:32-33 | stages a delete of the owner's id only |
| Repositories.OwnersRepository.SelectByName | WebApi.Persistence/Persistence/OwnersRepository.cs:35-38 | exactly the stored owners whose name contains the argument, with their multiplicities; a list, possibly empty |
| Repositories.OwnersRepository.FindByEmail | WebApi.Persistence/Persistence/OwnersRepository.cs:40-42 | the first stored owner whose email equals the argument exactly, or null exactly when there is none |
| Repositories.OwnersRepository.SelectByBirthDate | WebApi.Persistence/Persistence/OwnersRepository.cs:44-49 | exactly the stored owners with from <= Birthdate <= to, both bounds inclusive |
| Controllers.OwnersController.constructor | WebApi.Controllers/Controllers/OwnersController.cs:16-22 | the controller's repository works on its data context |
| Controllers.OwnersController.GetOwners | WebApi.Controllers/Controllers/OwnersController.cs:27-36 | Ok with every stored owner, mapped in storage order |
| Controllers.OwnersController.GetOwnerById | WebApi.Controllers/Controllers/OwnersController.cs:41-53 | Ok with the found owner, whose id is the requested one, or NotFound exactly when Find sees none |
| Controllers.OwnersController.GetOwnersByName | WebApi.Controllers/Controllers/OwnersController.cs:58-70 | always Ok, with exactly the owners whose name contains the argument; the NotFound branch is unreachable |
| Controllers.OwnersController.GetOwnerByEmail | WebApi.Controllers/Controllers/OwnersController.cs:75-86 | Ok with the first stored owner with exactly that email, or NotFound exactly when none has it |
| Controllers.OwnersController.GetOwnerByBirthdate | WebApi.Controllers/Controllers/OwnersController.cs:91-121 | BadRequest naming `from` if it does not parse; otherwise BadRequest naming `to` if that does not parse; otherwise Ok with exactly the owners born within the inclusive range |
| Controllers.OwnersController.CreateOwner | WebApi.Controllers/Controllers/OwnersController.cs:126-146 | BadRequest, with nothing staged, when Find sees the id; otherwise one insert and one save; on success Created echoes the body, the new owner is stored and every other lookup is as before; the save fails only if the queues were already uncommittable |
| Controllers.OwnersController.UpdateOwner | WebApi.Controllers/Controllers/OwnersController.cs:151-178 | BadRequest on a route/body id mismatch, then NotFound when Find sees no owner, and neither changes anything; an owner that is staged but not stored makes the update throw; on success only that owner's name and email change, its stored birthdate is kept, every other lookup is as before, and Ok echoes the body |
| Controllers.OwnersController.DeleteOwner | WebApi.Controllers/Controllers/OwnersController.cs:183-200 | NotFound with nothing changed when Find sees no owner; otherwise one delete and one save, after which no owner has that id, every other lookup is as before, and NoContent is returned |
| Controllers.AccountsController.constructor | WebApi.Controllers/Controllers/AccountsController.cs:15-21 | both repositories work on the controller's data context |
| Controllers.AccountsController.GetAccountsByOwner | WebApi.Controllers/Controllers/AccountsController.cs:27-38 | as written: always Ok, with exactly the stored accounts whose own Id equals the route ownerId |
| Controllers.AccountsController.GetAccountsByOwnerCorrected | WebApi.Controllers/Controllers/AccountsController.cs:33 | always Ok, with exactly the stored accounts whose OwnerId is the route ownerId |
| Controllers.GetAccountsByOwnerMissesAccounts | WebApi.Controllers/Controllers/AccountsController.cs:34 | for a table holding one account whose id differs from its OwnerId, the action lists nothing for that owner, while the foreign-key filter lists the account |
| Controllers.AccountsController.GetAccountById | WebApi.Controllers/Controllers/AccountsController.cs:43-54 | Ok with the found account, whose id is the requested one, or NotFound exactly when Find sees none |
| Controllers.AccountsController.GetAccountByIban | WebApi.Controllers/Controllers/AccountsController.cs:59-71 | Ok with the first stored account with exactly that IBAN, or NotFound (with the by-id message) exactly when none has it |
| Controllers.AccountsController.CreateAccount | WebApi.Controllers/Controllers/AccountsController.cs:76-109 | in order: BadRequest when the owner is missing, BadRequest when the body's OwnerId differs from the route, Conflict when Find sees the account id, each changing nothing; otherwise Owner.Add cannot throw, there is one insert and one save, and on success Created echoes the body and the stored account carries the route ownerId, with every other lookup as before |
| Controllers.AccountsController.DeleteAccount | WebApi.Controllers/Controllers/AccountsController.cs:114-137 | NotFound with nothing changed when Find sees no account; otherwise one delete and one save, with the route ownerId never consulted; afterwards no account has that id and every other lookup is as before |
| Controllers.AccountsController.CreateAccountTwice | WebApiTest.Controllers/Controllers/AccountsControllerTest.cs:124-143 | posting the same account again after it was created yields Conflict and changes nothing: both queues stay empty, the new account is stored, and every other account lookup answers as before the first post |

## Left out

- async/await: every call is synchronous. The API has no concurrency.
- Logging (`ILogger`, `LogChangeTracker`, the change-tracker debug views): it is diagnostics only.
- HTTP plumbing: routing attributes, the `Uri` of a Created response, the problem-details
  `ErrorsController`. An exception escaping an action is the result `Thrown`.
- EF Core internals: query translation, `AsNoTracking`, `Attach`, identity resolution, and
  change detection on tracked entities. Repositories receive row values (snapshots), so
  changing a tracked object in memory never reaches the store by itself.
- EF Core entity-state collapsing (for example, an Added entity that is then Removed):
  every staged change is an entry in the queue and is committed in order. For example,
  `GenericRepository.UpdateAsync` on an entity staged by `Add` but not yet saved commits in
  the model (the insert, then the update), whereas EF turns the Added entry into a Modified
  one and its UPDATE of a row that is not stored fails on save. No controller action does
  this within one request.
- Foreign-key constraints and cascading deletes: the model enforces primary keys only.
- `Directory.CreateDirectory` and `Environment.GetFolderPath`: the documents folder is a parameter.
- Case-insensitive configuration keys: keys are compared exactly.
- `DateTime.ParseExact` with the pattern `yyyy-MM-dd`: it is an uninterpreted parameter
  `parseDate`, and a parse that throws is None.
- `Guid.NewGuid`, `DateTime.UtcNow` and the local time zone: they are parameters.
- The static singleton `NullOwner.Instance`: Dafny has no static mutable objects. The sentinel is
  built once by `Owner.Null` and passed to whoever needs it.
- Balance is a double: it is a `real`, since no arithmetic is done on it.
- The account repository's own queries are commented out in the source. Accounts use the
  generic repository. The action calls `SelectByAsync`, which the source does not declare; the model takes it to be the generic repository's `FilterBy`.
- Test classes, mocks and dependency-injection wiring, except the scenarios modelled above.
- Persistence.PathCombine: models Path.Combine with Unix separators only. The Windows
  separators and drive roots are not modelled.
- Base.Contains: models ordinal String.Contains. The database collation a translated query
  would use is not modelled. The same holds for the exact string equality in
  `OwnersRepository.FindByEmail` and `AccountsController.GetAccountByIban`: a case- or
  accent-insensitive collation could match rows the model does not.
- Table.FindTracked: after a staged delete of a key it answers nothing, whereas EF Core's
  Find still returns the entity it tracks as Deleted until the save. In the program each
  request gets its own context, so no action starts with a staged delete. The controller
  contracts allow any staged queue and inherit the difference in that case.
- Persistence.DataContext.SaveAllChanges: counts one affected row per staged change.
- Controllers.OwnersController.CreateOwner: on success it states the stored owners through
  primary-key lookups, not their storage order.
- Controllers.OwnersController.UpdateOwner: the same, and the in-memory edit of the tracked
  owner is not modelled on the path where the update throws.
- Controllers.OwnersController.DeleteOwner: states the stored owners through primary-key lookups, not their storage order.
- Controllers.AccountsController.CreateAccount: states the stored accounts through primary-key
  lookups, not their storage order. The owner object that `Owner.Add` changes is a local
  materialisation that is not tracked.
- Controllers.AccountsController.DeleteAccount: states the stored accounts through primary-key lookups, not their storage order.
- Controllers.GetAccountsByOwnerMissesAccounts: states that the corrected action lists the
  account, not that it lists it exactly once.

## Findings

| source | as written | input that shows it | evidently intended | confidence | as-written member | corrected member |
|---|---|---|---|---|---|---|
| WebApi.Controllers/Controllers/AccountsController.cs:34 | `GetAccountsByOwner` filters on the account's own `Id` equalling the route `ownerId` | a table with one account whose `Id` differs from its `OwnerId` (every account the API creates); the request for that owner returns an empty list | filter on `OwnerId`, as the route and the commented-out `SelectByOwnerIdAsync` at line 33 say | high, not executed | Controllers.AccountsController.GetAccountsByOwner, Controllers.GetAccountsByOwnerMissesAccounts | Controllers.AccountsController.GetAccountsByOwnerCorrected |
