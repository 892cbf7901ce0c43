/** The wizard's RDS step: the version list offered for an engine and the
    engine selector, which resets the version for the MySQL and PostgreSQL
    families. */
module RdsForm {
  import opened Wizard

  const Engines: seq<string> := ["mysql", "postgres", "mariadb", "aurora-mysql", "aurora-postgresql"]
  const MysqlVersions: seq<string> := ["8.0", "5.7"]
  const PostgresVersions: seq<string> := ["14.3", "13.7", "12.11"]

  predicate MysqlFamily(engine: string) {
    engine == "mysql" || engine == "aurora-mysql"
  }

  predicate PostgresFamily(engine: string) {
    engine == "postgres" || engine == "aurora-postgresql"
  }

  /** The versions the selector offers: PostgreSQL ones for the PostgreSQL
      family, MySQL ones for every other engine. */
  function EngineVersions(engine: string): (vs: seq<string>)
    ensures PostgresFamily(engine) <==> vs == PostgresVersions
    ensures !PostgresFamily(engine) <==> vs == MysqlVersions
    ensures |vs| >= 2
  {
    if PostgresFamily(engine) then PostgresVersions else MysqlVersions
  }

  /** The engine selector as written: the engine is stored, and the version is
      reset for the two mapped families only. */
  function ChangeEngine(r: RdsValues, engine: string): (s: RdsValues)
    ensures s.engine == engine
    ensures MysqlFamily(engine) ==> s.engineVersion == "8.0"
    ensures PostgresFamily(engine) ==> s.engineVersion == "14.3"
    ensures !MysqlFamily(engine) && !PostgresFamily(engine) ==> s.engineVersion == r.engineVersion
    ensures s.(engine := r.engine, engineVersion := r.engineVersion) == r
  {
    var s := r.(engine := engine);
    if MysqlFamily(engine) then s.(engineVersion := "8.0")
    else if PostgresFamily(engine) then s.(engineVersion := "14.3")
    else s
  }

  /** For the four mapped engines the version chosen is one the selector offers. */
  lemma MappedEngineVersionOffered(r: RdsValues, engine: string)
    requires MysqlFamily(engine) || PostgresFamily(engine)
    ensures ChangeEngine(r, engine).engineVersion in EngineVersions(engine)
  {
  }

  /** Going from PostgreSQL to MariaDB keeps "14.3", which the MariaDB selector
      (MySQL versions) does not offer. */
  lemma MariadbKeepsPostgresVersion()
    ensures var r := ChangeEngine(InitialValues.rds, "postgres");
      ChangeEngine(r, "mariadb").engineVersion == "14.3"
      && ChangeEngine(r, "mariadb").engineVersion !in EngineVersions("mariadb")
  {
  }

  /** The selector with the unmapped case closed: a version the new engine's
      list does not offer is replaced by that list's first entry. */
  function ChangeEngineOffered(r: RdsValues, engine: string): (s: RdsValues)
    ensures s.engine == engine
    ensures s.engineVersion in EngineVersions(engine)
    ensures MysqlFamily(engine) || PostgresFamily(engine) ==> s == ChangeEngine(r, engine)
    ensures r.engineVersion in EngineVersions(engine) && !MysqlFamily(engine) && !PostgresFamily(engine) ==>
      s.engineVersion == r.engineVersion
  {
    var s := ChangeEngine(r, engine);
    if s.engineVersion in EngineVersions(engine) then s
    else s.(engineVersion := EngineVersions(engine)[0])
  }

  /** The corrected selector keeps the version on offer through any sequence of
      engine changes, starting from the wizard's initial values. */
  lemma {:induction false} OfferedVersionAfterAnyChanges(r: RdsValues, engines: seq<string>)
    requires r.engineVersion in EngineVersions(r.engine)
    ensures var s := ChangeEngines(r, engines); s.engineVersion in EngineVersions(s.engine)
    decreases |engines|
  {
    if engines != [] {
      OfferedVersionAfterAnyChanges(ChangeEngineOffered(r, engines[0]), engines[1..]);
    }
  }

  function ChangeEngines(r: RdsValues, engines: seq<string>): RdsValues
    decreases |engines|
  {
    if engines == [] then r else ChangeEngines(ChangeEngineOffered(r, engines[0]), engines[1..])
  }

  lemma InitialVersionOffered()
    ensures InitialValues.rds.engineVersion in EngineVersions(InitialValues.rds.engine)
  {
  }
}
