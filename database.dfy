/**
 * The Bill Pugh singleton `DatabaseConnection`: a connected flag that can
 * only be switched on, a Java `int` counter of executed transactions, and
 * the masking applied to the connection string before it is shown.
 */
module Database {
  import opened Numbers

  const CONNECTION_STRING := "jdbc:postgresql://fintech-db.example.com:5432/transactions"
  const VISIBLE_PREFIX: nat := 20

  /** Java's `int` increment: two's-complement wrap-around past `Integer.MAX_VALUE`. */
  function Int32Inc(n: int): (r: int)
    requires INT_MIN <= n <= INT_MAX
    ensures INT_MIN <= r <= INT_MAX
    ensures n < INT_MAX ==> r == n + 1
    ensures n == INT_MAX ==> r == INT_MIN
  {
    if n == INT_MAX then INT_MIN else n + 1
  }

  /** `maskConnectionString`: a string longer than 20 characters keeps its first 20, followed by "***". */
  function MaskConnectionString(conn: string): (shown: string)
    ensures |conn| > VISIBLE_PREFIX ==> |shown| == VISIBLE_PREFIX + 3
                                        && shown[..VISIBLE_PREFIX] == conn[..VISIBLE_PREFIX]
                                        && shown[VISIBLE_PREFIX..] == "***"
    ensures |conn| <= VISIBLE_PREFIX ==> shown == conn
  {
    if |conn| > VISIBLE_PREFIX then conn[..VISIBLE_PREFIX] + "***" else conn
  }

  /** Masking an already masked string changes nothing. */
  lemma MaskIdempotent(conn: string)
    ensures MaskConnectionString(MaskConnectionString(conn)) == MaskConnectionString(conn)
  {
    var once := MaskConnectionString(conn);
    if |conn| > VISIBLE_PREFIX {
      assert once[..VISIBLE_PREFIX] + "***" == once;
    }
  }

  /** The shown form of the configured connection string. */
  lemma MaskedDefault()
    ensures MaskConnectionString(CONNECTION_STRING) == "jdbc:postgresql://fi***"
  {
    var shown := "jdbc:postgresql://fi";
    assert forall i | 0 <= i < VISIBLE_PREFIX :: CONNECTION_STRING[i] == shown[i];
  }

  /** `DatabaseConnection`. */
  class DatabaseConnection {
    const connectionString: string
    var isConnected: bool
    var activeConnections: int

    /** Counter within the range of a Java `int`. */
    predicate Valid()
      reads this
    {
      INT_MIN <= activeConnections <= INT_MAX
    }

    /** Starts disconnected, with no transaction executed. */
    constructor()
      ensures Valid()
      ensures connectionString == CONNECTION_STRING
      ensures !isConnected && activeConnections == 0
    {
      connectionString := CONNECTION_STRING;
      isConnected := false;
      activeConnections := 0;
    }

    /** `connect()`: afterwards connected; a second call changes nothing. */
    method Connect()
      modifies this
      ensures isConnected
      ensures activeConnections == old(activeConnections)
    {
      if !isConnected {
        isConnected := true;
      }
    }

    /**
     * `executeTransaction`: refused without a connection, leaving every field
     * as it was; otherwise the counter moves on by one.
     */
    method ExecuteTransaction(transactionId: string, amount: real)
      requires Valid()
      modifies this
      ensures Valid()
      ensures isConnected == old(isConnected)
      ensures !old(isConnected) ==> activeConnections == old(activeConnections)
      ensures old(isConnected) ==> activeConnections == Int32Inc(old(activeConnections))
    {
      if !isConnected {
        return;
      }
      activeConnections := Int32Inc(activeConnections);
    }
  }

  /** Connect, execute, connect again, execute twice: the counter reads 3. */
  method ConnectionScenario() returns (db: DatabaseConnection)
    ensures db.isConnected && db.activeConnections == 3
  {
    db := new DatabaseConnection();
    db.Connect();
    db.ExecuteTransaction("TXN001", 5000.0);
    db.Connect();
    db.ExecuteTransaction("TXN002", 15000.0);
    db.ExecuteTransaction("TXN003", 25000.0);
  }

  /** A transaction before `connect()` is not counted. */
  method DisconnectedScenario() returns (db: DatabaseConnection)
    ensures !db.isConnected && db.activeConnections == 0
  {
    db := new DatabaseConnection();
    db.ExecuteTransaction("TXN000", 100.0);
  }
}
