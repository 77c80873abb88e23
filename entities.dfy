/** The Owner/Account aggregate: Owner is the aggregate root, Account a mutable
    entity whose Owner back-reference and OwnerId foreign key are written by
    Owner.Add. The "no owner" sentinel (NullOwner) is an Owner built by Owner.Null. */
module Entities {
  import opened Base

  /** The scalar columns of an Owner, i.e. what EF Core stores in the Owners table. */
  datatype OwnerRow = OwnerRow(id: Guid, name: string, birthdate: DateTime, email: string)

  /** The scalar columns of an Account, i.e. what EF Core stores in the Accounts table.
      Balance is a double in the source; no arithmetic is done on it. */
  datatype AccountRow = AccountRow(id: Guid, iban: string, balance: real, ownerId: Guid)

  const AlreadyAssigned := "Account is already asigned to another owner"

  class Owner {
    /** Id and Birthdate are init-only: no member writes them after initialisation. */
    const id: Guid
    var name: string
    const birthdate: DateTime
    var email: string
    /** The navigation collection, in the order accounts were added. */
    var accounts: seq<Account>

    /** Every account of this owner points back at it through its foreign key. */
    ghost predicate Valid()
      reads this, accounts
    {
      forall a :: a in accounts ==> a.ownerId == id
    }

    /** The persisted columns of this owner. */
    function Row(): (r: OwnerRow)
      reads this
      ensures r.id == id && r.birthdate == birthdate
    {
      OwnerRow(id, name, birthdate, email)
    }

    /** `new Owner()`: a freshly generated id (Guid.NewGuid, passed in), the current
        UTC time as birthdate (DateTime.UtcNow, passed in), empty name, email and accounts. */
    constructor Default(newGuid: Guid, utcNow: DateTime)
      ensures id == newGuid && birthdate == utcNow
      ensures name == "" && email == "" && accounts == []
      ensures Valid()
    {
      id := newGuid;
      birthdate := utcNow;
      name := "";
      email := "";
      accounts := [];
    }

    /** `new Owner { Id = .., Name = .., Birthdate = .., Email = .. }`, which is also how
        EF Core materialises a row and how the mapper builds an Owner from an OwnerDto:
        the accounts collection keeps its empty default. */
    constructor (id: Guid, name: string, birthdate: DateTime, email: string)
      ensures Row() == OwnerRow(id, name, birthdate, email)
      ensures accounts == []
      ensures Valid()
    {
      this.id := id;
      this.name := name;
      this.birthdate := birthdate;
      this.email := email;
      accounts := [];
    }

    /** The NullOwner sentinel: an Owner whose constructor overwrites Id with Guid.Empty and
        Birthdate with DateTime.MinValue.ToUniversalTime(); localOffset is the local time
        zone's offset from UTC that this conversion uses. */
    constructor Null(localOffset: int)
      ensures id == EmptyGuid
      ensures birthdate == ToUniversalTime(MinValue, localOffset)
      ensures localOffset >= 0 ==> birthdate == MinValue
      ensures name == "" && email == "" && accounts == []
      ensures Valid()
    {
      id := EmptyGuid;
      birthdate := ToUniversalTime(MinValue, localOffset);
      name := "";
      email := "";
      accounts := [];
    }

    /** Sets Name and Email to exactly the arguments and changes nothing else. */
    method Update(name: string, email: string)
      modifies this
      ensures Row() == old(Row()).(name := name, email := email)
      ensures accounts == old(accounts)
      ensures Valid() == old(Valid())
    {
      this.name := name;
      this.email := email;
    }

    /** Adds an account to this owner. The guard precedes every write: an account whose
        OwnerId differs from this owner's Id (including a fresh account that still carries
        the empty default) is refused with an ApplicationException and nothing changes.
        There is no duplicate check: adding the same account twice lists it twice. */
    method Add(account: Account) returns (r: Result<()>)
      modifies this, account
      ensures old(account.ownerId) != id ==>
                r == Failure(ApplicationException(AlreadyAssigned)) &&
                unchanged(this) && unchanged(account)
      ensures old(account.ownerId) == id ==>
                r == Success(()) &&
                account.owner == this && account.ownerId == id &&
                accounts == old(accounts) + [account] &&
                Row() == old(Row()) && account.Row() == old(account.Row())
      ensures old(Valid()) ==> Valid()
    {
      if account.ownerId != id {
        return Failure(ApplicationException(AlreadyAssigned));
      }
      account.owner := this;
      account.ownerId := id;
      accounts := accounts + [account];
      r := Success(());
    }
  }

  class Account {
    /** Id and Iban are init-only. */
    const id: Guid
    const iban: string
    /** Balance has a private setter that no member calls: it keeps the value it was
        initialised with. */
    const balance: real
    /** The only publicly writable fields: the back-reference and the foreign key. */
    var owner: Owner
    var ownerId: Guid

    /** The persisted columns of this account (the Owner reference is not a column). */
    function Row(): (r: AccountRow)
      reads this
      ensures r.id == id && r.iban == iban && r.balance == balance
    {
      AccountRow(id, iban, balance, ownerId)
    }

    /** `new Account()`: a freshly generated id (passed in), empty Iban, zero Balance, and
        the sentinel as Owner with its empty id as OwnerId. */
    constructor Default(newGuid: Guid, nullOwner: Owner)
      ensures id == newGuid && iban == "" && balance == 0.0
      ensures owner == nullOwner && ownerId == nullOwner.id
    {
      id := newGuid;
      iban := "";
      balance := 0.0;
      owner := nullOwner;
      ownerId := nullOwner.id;
    }

    /** An initialised Account (object initializer, EF Core materialisation or the mapper):
        the given columns, and the sentinel as Owner. */
    constructor (row: AccountRow, nullOwner: Owner)
      ensures Row() == row && owner == nullOwner
    {
      id := row.id;
      iban := row.iban;
      balance := row.balance;
      owner := nullOwner;
      ownerId := row.ownerId;
    }
  }

  /** A fresh account still carries the sentinel's empty id as OwnerId, so adding it to an
      owner succeeds exactly when that owner is the sentinel (or shares its empty id). */
  method AddFreshAccount(owner: Owner, nullOwner: Owner, newGuid: Guid) returns (r: Result<()>)
    requires nullOwner.id == EmptyGuid
    modifies owner
    ensures r.Success? <==> owner.id == EmptyGuid
    ensures r.Failure? ==> r.error == ApplicationException(AlreadyAssigned) && unchanged(owner)
  {
    var account := new Account.Default(newGuid, nullOwner);
    r := owner.Add(account);
  }
}
