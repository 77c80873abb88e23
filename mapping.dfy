/** The wire records OwnerDto and AccountDto and the four projections of the mapping
    profile between them and the entities. */
module Mapping {
  import opened Base
  import opened Entities

  /** OwnerDto has no navigation property. */
  datatype OwnerDto = OwnerDto(id: Guid, name: string, birthdate: DateTime, email: string)

  /** AccountDto carries the foreign key but not the Owner reference. */
  datatype AccountDto = AccountDto(id: Guid, iban: string, balance: real, ownerId: Guid)

  /** Owner -> OwnerDto: copies Id, Name, Birthdate and Email; Accounts has no counterpart. */
  function OwnerToDto(o: OwnerRow): (d: OwnerDto)
    ensures d.id == o.id && d.name == o.name && d.birthdate == o.birthdate && d.email == o.email
  {
    OwnerDto(o.id, o.name, o.birthdate, o.email)
  }

  /** The scalar part of OwnerDto -> Owner. */
  function DtoToOwnerRow(d: OwnerDto): (o: OwnerRow)
    ensures o.id == d.id && o.name == d.name && o.birthdate == d.birthdate && o.email == d.email
  {
    OwnerRow(d.id, d.name, d.birthdate, d.email)
  }

  /** OwnerDto -> Owner: Accounts is ignored, so the new owner keeps its empty default. */
  method DtoToOwner(d: OwnerDto) returns (o: Owner)
    ensures fresh(o)
    ensures o.Row() == DtoToOwnerRow(d) && o.accounts == [] && o.Valid()
  {
    o := new Owner(d.id, d.name, d.birthdate, d.email);
  }

  /** Account -> AccountDto: copies Id, Iban, Balance and OwnerId and drops the Owner reference. */
  function AccountToDto(a: AccountRow): (d: AccountDto)
    ensures d.id == a.id && d.iban == a.iban && d.balance == a.balance && d.ownerId == a.ownerId
  {
    AccountDto(a.id, a.iban, a.balance, a.ownerId)
  }

  /** The scalar part of AccountDto -> Account. */
  function DtoToAccountRow(d: AccountDto): (a: AccountRow)
    ensures a.id == d.id && a.iban == d.iban && a.balance == d.balance && a.ownerId == d.ownerId
  {
    AccountRow(d.id, d.iban, d.balance, d.ownerId)
  }

  /** AccountDto -> Account: Owner is ignored, so it stays the NullOwner sentinel. */
  method DtoToAccount(d: AccountDto, nullOwner: Owner) returns (a: Account)
    ensures fresh(a)
    ensures a.Row() == DtoToAccountRow(d) && a.owner == nullOwner
  {
    a := new Account(DtoToAccountRow(d), nullOwner);
  }

  /** Mapping a list of owners maps each element in place. */
  function OwnersToDtos(os: seq<OwnerRow>): (ds: seq<OwnerDto>)
    ensures |ds| == |os|
    ensures forall i :: 0 <= i < |os| ==> ds[i] == OwnerToDto(os[i])
    ensures forall d :: d in ds <==> DtoToOwnerRow(d) in os
  {
    seq(|os|, i requires 0 <= i < |os| => OwnerToDto(os[i]))
  }

  /** Mapping a list of accounts maps each element in place. */
  function AccountsToDtos(as_: seq<AccountRow>): (ds: seq<AccountDto>)
    ensures |ds| == |as_|
    ensures forall i :: 0 <= i < |as_| ==> ds[i] == AccountToDto(as_[i])
    ensures forall d :: d in ds <==> DtoToAccountRow(d) in as_
  {
    seq(|as_|, i requires 0 <= i < |as_| => AccountToDto(as_[i]))
  }

  /** OwnerDto -> Owner -> OwnerDto is the identity: a Created response echoes its request. */
  lemma OwnerDtoRoundTrip(d: OwnerDto)
    ensures OwnerToDto(DtoToOwnerRow(d)) == d
  {
  }

  /** Owner -> OwnerDto -> Owner restores every persisted column. */
  lemma OwnerRowRoundTrip(o: OwnerRow)
    ensures DtoToOwnerRow(OwnerToDto(o)) == o
  {
  }

  /** AccountDto -> Account -> AccountDto is the identity. */
  lemma AccountDtoRoundTrip(d: AccountDto)
    ensures AccountToDto(DtoToAccountRow(d)) == d
  {
  }

  /** Account -> AccountDto -> Account restores every persisted column. */
  lemma AccountRowRoundTrip(a: AccountRow)
    ensures DtoToAccountRow(AccountToDto(a)) == a
  {
  }
}
