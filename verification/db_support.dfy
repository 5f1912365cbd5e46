/** Which SQL dialects can return rows from a write, and which accept ORDER BY on an UPDATE. */
module DbSupport {

  /** The drivers whose INSERT and UPDATE statements return no rows: a closed deny-list. */
  const DbWithoutReturning: set<string> := {"mysql", "mysql2", "sqlite3"}

  /** Whether a write statement on this driver can hand back the rows it wrote. */
  function DoesSupportReturning(driverName: string): (supported: bool)
    ensures !supported <==> driverName == "mysql" || driverName == "mysql2" || driverName == "sqlite3"
  {
    driverName !in DbWithoutReturning
  }

  /** Whether an UPDATE on this driver may carry an ORDER BY. */
  function DoesSupportUpdateOrderBy(driverName: string): (supported: bool)
    ensures !supported <==> driverName == "mssql"
  {
    driverName != "mssql"
  }

  /**
   * The two capabilities are independent of each other, and a driver name
   * nobody listed, however unfamiliar, is assumed capable of both.
   */
  lemma CapabilitiesAreIndependent()
    ensures DoesSupportReturning("mssql") && !DoesSupportUpdateOrderBy("mssql")
    ensures !DoesSupportReturning("mysql") && DoesSupportUpdateOrderBy("mysql")
    ensures !DoesSupportReturning("sqlite3") && DoesSupportUpdateOrderBy("sqlite3")
    ensures DoesSupportReturning("pg") && DoesSupportUpdateOrderBy("pg")
    ensures DoesSupportReturning("no-such-driver") && DoesSupportUpdateOrderBy("no-such-driver")
  {
  }
}
