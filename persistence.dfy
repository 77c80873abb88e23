/** The unit of work: the DataContext with one entity set per entity type, its single
    commit point, the change-tracker reset, and the resolution of the configured
    database into a data-source string. */
module Persistence {
  import opened Base
  import opened Entities
  import opened Table

  /** The primary keys of the two tables. */
  function OwnerKey(o: OwnerRow): Guid { o.id }
  function AccountKey(a: AccountRow): Guid { a.id }

  /** One entity set: the committed table (storage order) and the changes staged on it
      since the last commit, oldest first. */
  class DbSet<R> {
    const key: R -> Guid
    var rows: seq<R>
    var pending: seq<Change<R>>

    /** The database enforces the primary key. */
    ghost predicate Valid()
      reads this
    {
      UniqueKeys(rows, key)
    }

    constructor (key: R -> Guid)
      ensures this.key == key && rows == [] && pending == [] && Valid()
    {
      this.key := key;
      rows := [];
      pending := [];
    }

    /** What this set would hold after a successful commit, if its staged changes commit. */
    function Committed(): (r: Option<seq<R>>)
      reads this
      ensures pending == [] ==> r == Some(rows)
      ensures r.Some? && Valid() ==> UniqueKeys(r.value, key)
    {
      Commit(rows, key, pending)
    }
  }

  class DataContext {
    const owners: DbSet<OwnerRow>
    const accounts: DbSet<AccountRow>

    ghost predicate Valid()
      reads owners, accounts
    {
      owners.key == OwnerKey && accounts.key == AccountKey &&
      owners.Valid() && accounts.Valid()
    }

    /** Every staged change of both sets can be written without violating a primary key. */
    ghost predicate Committable()
      reads owners, accounts
    {
      owners.Committed().Some? && accounts.Committed().Some?
    }

    /** A context over an empty database with nothing tracked. */
    constructor ()
      ensures Valid() && fresh(owners) && fresh(accounts)
      ensures owners.rows == [] && owners.pending == []
      ensures accounts.rows == [] && accounts.pending == []
    {
      owners := new DbSet(OwnerKey);
      accounts := new DbSet(AccountKey);
    }

    /** SaveChanges: every staged change of both sets is written in one transaction. If
        one of them violates a primary key nothing is written, the changes stay staged and
        the exception propagates. Otherwise the staged changes are gone and the result says
        whether any row was affected, one row per staged change. */
    method SaveAllChanges() returns (r: Result<bool>)
      requires Valid()
      modifies owners, accounts
      ensures Valid()
      ensures old(owners.Committed()).Some? && old(accounts.Committed()).Some? ==>
                r == Success(|old(owners.pending)| + |old(accounts.pending)| > 0) &&
                owners.rows == old(owners.Committed()).value && owners.pending == [] &&
                accounts.rows == old(accounts.Committed()).value && accounts.pending == []
      ensures old(owners.Committed()).None? || old(accounts.Committed()).None? ==>
                r == Failure(DbUpdateException) && unchanged(owners, accounts)
    {
      var o, a := owners.Committed(), accounts.Committed();
      if o.None? || a.None? {
        return Failure(DbUpdateException);
      }
      var affected := |owners.pending| + |accounts.pending|;
      owners.rows, owners.pending := o.value, [];
      accounts.rows, accounts.pending := a.value, [];
      r := Success(affected > 0);
    }

    /** ChangeTracker.Clear: every tracked entity is detached, so whatever was staged is
        dropped; no stored data changes. */
    method ClearChangeTracker()
      modifies owners, accounts
      ensures owners.pending == [] && accounts.pending == []
      ensures owners.rows == old(owners.rows) && accounts.rows == old(accounts.rows)
    {
      owners.pending := [];
      accounts.pending := [];
    }
  }

  /** What EvalDatabaseConfiguration reads from appsettings: the UseDatabase value
      (absent when missing) and the ConnectionStrings section. */
  datatype Configuration = Configuration(useDatabase: Option<string>, connectionStrings: map<string, string>)

  const UseDatabaseMissing := "UseDatabase is not available"
  const ConnectionStringMissing := "ConnectionStrings is not available"
  const UnknownDatabase := "appsettings.json Problems with database configuration"

  /** Path.Combine on a Unix file system: an empty second part gives the first, an empty
      first part or a rooted second part gives the second, and otherwise the two are
      joined by one '/' unless the first already ends with one. */
  function PathCombine(path1: string, path2: string): (r: string)
    ensures EndsWith(r, path2)
    ensures path2 != [] && path2[0] == '/' ==> r == path2
    ensures (path2 == [] || path2[0] != '/') ==> StartsWith(r, path1)
    ensures path2 == [] ==> r == path1
    ensures path1 == [] ==> r == path2
    ensures path1 != [] && path2 != [] && path2[0] != '/' ==>
              r == path1 + (if EndsWith(path1, "/") then "" else "/") + path2
  {
    if path2 == [] then path1
    else if path1 == [] || path2[0] == '/' then path2
    else if path1[|path1| - 1] == '/' then path1 + path2
    else path1 + "/" + path2
  }

  /** The parts of the LocalDb data source: the server, the database name as initial
      catalog, integrated security, and the database file to attach. */
  const LocalDbServer := "Data Source = (LocalDB)\\MSSQLLocalDB; "
  function CatalogPart(connectionString: string): string { "Initial Catalog = " + connectionString + ";" }
  const SecurityPart := " Integrated Security = True; "
  function AttachPart(dbFile: string): string { "AttachDbFileName = " + dbFile + ";" }

  function LocalDbDataSource(connectionString: string, dbFile: string): (r: string)
    ensures StartsWith(r, LocalDbServer) && EndsWith(r, AttachPart(dbFile))
    ensures OccursAt(r, CatalogPart(connectionString), |LocalDbServer|)
  {
    LocalDbServer + CatalogPart(connectionString) + SecurityPart + AttachPart(dbFile)
  }

  /** Resolves the configured database to (provider name, data source). `documents` is the
      user's documents folder; the WebApi folder below it holds the file databases. */
  function EvalDatabaseConfiguration(config: Configuration, documents: string): (r: Result<(string, string)>)
    ensures config.useDatabase.None? ==>
              r == Failure(ConfigurationException(UseDatabaseMissing))
    ensures config.useDatabase.Some? && config.useDatabase.value !in config.connectionStrings ==>
              r == Failure(ConfigurationException(ConnectionStringMissing))
    ensures r.Success? <==>
              config.useDatabase.Some? && config.useDatabase.value in config.connectionStrings &&
              config.useDatabase.value in {"LocalDb", "SqlServer", "Sqlite"}
    ensures r.Success? ==> r.value.0 == config.useDatabase.value
    ensures r.Success? && r.value.0 == "SqlServer" ==>
              r.value.1 == config.connectionStrings["SqlServer"]
  {
    match config.useDatabase
    case None => Failure(ConfigurationException(UseDatabaseMissing))
    case Some(useDatabase) =>
      if useDatabase !in config.connectionStrings then
        Failure(ConfigurationException(ConnectionStringMissing))
      else
        var connectionString := config.connectionStrings[useDatabase];
        var pathDocuments := PathCombine(documents, "WebApi");
        if useDatabase == "LocalDb" then
          var dbFile := PathCombine(pathDocuments, connectionString) + ".mdf";
          Success((useDatabase, LocalDbDataSource(connectionString, dbFile)))
        else if useDatabase == "SqlServer" then
          Success((useDatabase, connectionString))
        else if useDatabase == "Sqlite" then
          Success((useDatabase, "Data Source=" + PathCombine(pathDocuments, connectionString) + ".db"))
        else
          Failure(ConfigurationException(UnknownDatabase))
  }

  /** The Sqlite data source names the file <connection string>.db in the WebApi folder. */
  lemma SqliteDataSource(config: Configuration, documents: string)
    requires config.useDatabase == Some("Sqlite") && "Sqlite" in config.connectionStrings
    ensures var r := EvalDatabaseConfiguration(config, documents);
            var file := PathCombine(PathCombine(documents, "WebApi"), config.connectionStrings["Sqlite"]);
            r.Success? && StartsWith(r.value.1, "Data Source=") && EndsWith(r.value.1, ".db") &&
            r.value.1[12..|r.value.1| - 3] == file &&
            EndsWith(file, config.connectionStrings["Sqlite"])
  {
    var file := PathCombine(PathCombine(documents, "WebApi"), config.connectionStrings["Sqlite"]);
    var s := "Data Source=" + file + ".db";
    assert EvalDatabaseConfiguration(config, documents) == Success(("Sqlite", s));
    assert |"Data Source="| == 12 && |".db"| == 3;
    assert s[12..|s| - 3] == file;
  }

  /** The LocalDb data source starts with the server and contains the database name as
      Initial Catalog and the file to attach. */
  lemma LocalDbParts(conn: string, dbFile: string)
    ensures var s := LocalDbDataSource(conn, dbFile);
            StartsWith(s, LocalDbServer) && Contains(s, CatalogPart(conn)) && Contains(s, AttachPart(dbFile))
  {
    var head, catalog, attach := LocalDbServer, CatalogPart(conn), AttachPart(dbFile);
    var s := LocalDbDataSource(conn, dbFile);
    assert s == head + catalog + (SecurityPart + attach);
    ContainsMiddle(head, catalog, SecurityPart + attach);
    assert s == (head + catalog + SecurityPart) + attach + "";
    ContainsMiddle(head + catalog + SecurityPart, attach, "");
    assert s[..|head|] == head;
  }

  /** For LocalDb, the data source names the database as its Initial Catalog and attaches
      the file <connection string>.mdf in the WebApi folder. */
  lemma LocalDbDataSourceParts(config: Configuration, documents: string)
    requires config.useDatabase == Some("LocalDb") && "LocalDb" in config.connectionStrings
    ensures var r := EvalDatabaseConfiguration(config, documents);
            var conn := config.connectionStrings["LocalDb"];
            var dbFile := PathCombine(PathCombine(documents, "WebApi"), conn) + ".mdf";
            r.Success? && StartsWith(r.value.1, LocalDbServer) &&
            Contains(r.value.1, CatalogPart(conn)) && Contains(r.value.1, AttachPart(dbFile))
  {
    var conn := config.connectionStrings["LocalDb"];
    var dbFile := PathCombine(PathCombine(documents, "WebApi"), conn) + ".mdf";
    assert EvalDatabaseConfiguration(config, documents) == Success(("LocalDb", LocalDbDataSource(conn, dbFile)));
    LocalDbParts(conn, dbFile);
  }
}
