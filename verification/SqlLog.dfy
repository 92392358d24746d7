/**
 * The four log implementations over one SQL connection: SQLite and Postgres, in Go and in
 * Python. Each is proved to leave exactly `Store` of the committed table and to report
 * exactly `Admits` for an append and `Free` for a claim, with no transaction left open.
 */
module SqlLog {
  import opened Base
  import opened Nodes
  import opened LogTable

  datatype AppendResult = Stored(id: string) | SlotConflict | BadNode

  datatype ClaimResult = Claimed | Taken | BadClaim

  function AppendOutcome(c: Codec, rows: seq<Row>, n: Node): AppendResult {
    if !ValidNode(n) then BadNode else if Admits(rows, RowOf(c, n)) then Stored(NodeId(c, n)) else SlotConflict
  }

  function ClaimOutcome(c: Codec, rows: seq<Row>, n: Node): ClaimResult {
    if !ValidNode(n) then BadClaim else if Free(rows, RowOf(c, n)) then Claimed else Taken
  }

  function After(c: Codec, rows: seq<Row>, n: Node): seq<Row> {
    if ValidNode(n) then Store(rows, RowOf(c, n)) else rows
  }

  /** A row matches the claim query: same tenant, trajectory, kind and seq, and exactly this step. */
  predicate ClaimMatch(r: Row, n: Node) {
    r.node.step.Some? && r.node.step == n.step && SlotOf(r.node) == SlotOf(n)
  }

  /** The table after an append, with a row that another session commits after the insert. */
  function Contended(c: Codec, rows: seq<Row>, n: Node, rival: Option<Row>): seq<Row> {
    var table := After(c, rows, n);
    if ValidNode(n) && rival.Some? then Store(table, rival.value) else table
  }

  /** The verdict is the one on the table before, unless the insertion was lost. */
  lemma RivalKeepsVerdict(c: Codec, rows: seq<Row>, n: Node, rival: Option<Row>)
    requires ValidNode(n) && !Lost(rows, RowOf(c, n))
    ensures AppendOutcome(c, Contended(c, rows, n, rival), n) == AppendOutcome(c, rows, n)
  {
    hide ValidNode, NodeId;
    var row := RowOf(c, n);
    var table := Store(rows, row);
    OwnerOfStored(rows, row, SlotOf(n));
    if rival.Some? {
      OwnerOfStored(table, rival.value, SlotOf(n));
    }
  }

  lemma StoredOwns(rows: seq<Row>, r: Row, rival: Option<Row>)
    requires Free(rows, r)
    ensures var table := rows + [r];
      Owner(if rival.Some? then Store(table, rival.value) else table, SlotOf(r.node)) == r.id
  {
    OwnerOfStored(rows, r, SlotOf(r.node));
    if rival.Some? {
      OwnerOfStored(rows + [r], rival.value, SlotOf(r.node));
    }
  }

  /** What an insertion adds, and that the added row then owns its slot. */
  lemma InsertedWhen(rows: seq<Row>, r: Row)
    ensures Free(rows, r) ==> Store(rows, r) == rows + [r] && !HasId(rows, r.id) && !HasSlot(rows, SlotOf(r.node))
    ensures !Free(rows, r) ==> Store(rows, r) == rows
    ensures Free(rows, r) ==> forall rival: Option<Row> ::
      Owner(if rival.Some? then Store(rows + [r], rival.value) else rows + [r], SlotOf(r.node)) == r.id
  {
    if Free(rows, r) {
      forall rival: Option<Row>
        ensures Owner(if rival.Some? then Store(rows + [r], rival.value) else rows + [r], SlotOf(r.node)) == r.id
      {
        StoredOwns(rows, r, rival);
      }
    }
  }

  predicate Matched(rows: seq<Row>, n: Node) {
    exists i | 0 <= i < |rows| :: ClaimMatch(rows[i], n)
  }

  /** The table a claim inserts into when another session commits `rival` after the claim's query. */
  function Raced(rows: seq<Row>, n: Node, rival: Option<Row>): seq<Row> {
    if ValidNode(n) && !Matched(rows, n) && rival.Some? then Store(rows, rival.value) else rows
  }

  /** A connection, its transaction state, and the statements the logs issue on it. */
  class Connection {
    const strict: bool        // Postgres: an error aborts the transaction until a rollback
    var committed: seq<Row>
    var rows: seq<Row>        // the table as this connection sees it
    var mark: seq<Row>        // the table at the savepoint
    var open: bool
    var aborted: bool

    /** Nothing of this connection is pending; a read transaction may be open. */
    ghost predicate Settled()
      reads this
    {
      !aborted && rows == committed
    }

    ghost predicate Ready()
      reads this
    {
      Settled() && !open
    }

    constructor (strict: bool, table: seq<Row>)
      ensures this.strict == strict && committed == table && Ready()
    {
      this.strict := strict;
      committed, rows, mark, open, aborted := table, table, table, false, false;
    }

    method Begin()
      requires Ready()
      modifies this`open
      ensures open
    {
      open := true;
    }

    /** The Python drivers open a transaction with the first statement that needs one. */
    method BeginImplicitly()
      requires Settled()
      modifies this`open
      ensures open
    {
      open := true;
    }

    method Commit()
      requires open && !aborted
      modifies this
      ensures committed == old(rows) && Ready()
    {
      committed, open := rows, false;
    }

    method Rollback()
      modifies this
      ensures committed == old(committed) && Ready()
    {
      rows, open, aborted := committed, false, false;
    }

    method Savepoint()
      requires open && !aborted
      modifies this`mark
      ensures mark == rows
    {
      mark := rows;
    }

    method RollbackToSavepoint()
      requires open
      modifies this`rows, this`aborted
      ensures rows == mark && !aborted
    {
      rows, aborted := mark, false;
    }

    /**
     * Another session commits a row while this one's transaction is open. The unique indexes also
     * guard this session's pending row: a row that breaks one of them is not committed.
     */
    method Rival(r: Row)
      requires open && (rows == committed || exists own :: rows == committed + [own])
      modifies this`rows, this`committed
      ensures rows == Store(old(rows), r)
      ensures committed == if Free(old(rows), r) then old(committed) + [r] else old(committed)
    {
      if Free(rows, r) {
        committed := committed + [r];
        rows := rows + [r];
      }
    }

    method Fail()
      modifies this`aborted
      ensures aborted == (old(aborted) || strict)
    {
      aborted := aborted || strict;
    }

    /** INSERT: an error when either unique index refuses the row. */
    method Insert(r: Row) returns (ok: bool)
      requires open && !aborted
      modifies this`rows, this`aborted
      ensures ok == Free(old(rows), r)
      ensures rows == Store(old(rows), r)
      ensures aborted == (!ok && strict)
    {
      ok := Free(rows, r);
      rows := Store(rows, r);
      if !ok {
        Fail();
      }
    }

    /** INSERT OR IGNORE: either unique index turns the statement into a no-op. */
    method InsertOrIgnore(r: Row) returns (affected: nat)
      requires !aborted
      modifies this`rows, this`committed
      ensures affected == if Free(old(rows), r) then 1 else 0
      ensures rows == Store(old(rows), r)
      ensures committed == if open then old(committed) else rows
    {
      affected := if Free(rows, r) then 1 else 0;
      rows := Store(rows, r);
      if !open {
        committed := rows;
      }
    }

    /** INSERT ... ON CONFLICT (id) DO NOTHING: only the primary key is absorbed. */
    method InsertUnlessId(r: Row) returns (ok: bool)
      requires open && !aborted
      modifies this`rows, this`aborted
      ensures ok == (HasId(old(rows), r.id) || !HasSlot(old(rows), SlotOf(r.node)))
      ensures rows == Store(old(rows), r)
      ensures aborted == (!ok && strict)
    {
      ok := HasId(rows, r.id) || !HasSlot(rows, SlotOf(r.node));
      rows := Store(rows, r);
      if !ok {
        Fail();
      }
    }

    /** SELECT id at the slot; refused inside an aborted transaction. */
    method SlotOwner(s: LogSlot) returns (ok: bool, owner: string)
      ensures ok == !aborted
      ensures ok ==> owner == Owner(rows, s)
    {
      ok, owner := !aborted, "";
      if ok {
        owner := Owner(rows, s);
      }
    }

    /** SELECT 1 with `step_n = ?`: unlike the index it never matches a row without a step. */
    method HasClaim(n: Node) returns (found: bool)
      requires !aborted
      ensures found == Matched(rows, n)
    {
      found := Matched(rows, n);
    }
  }

  lemma MatchTakesSlot(rows: seq<Row>, n: Node)
    requires Matched(rows, n)
    ensures HasSlot(rows, SlotOf(n))
  {
    var i :| 0 <= i < |rows| && ClaimMatch(rows[i], n);
    assert SlotOf(rows[i].node) == SlotOf(n);
  }

  /** A lookup after the insertion gives the same verdict as one before it. */
  lemma OwnerAfterStore(rows: seq<Row>, r: Row)
    ensures Admits(Store(rows, r), r) <==> Admits(rows, r)
  {
    OwnerOfStored(rows, r, SlotOf(r.node));
  }

  /** go/trajir/log: SQLite, autocommit insert-or-ignore, then a look at the slot's owner. */
  class SqliteLog {
    const c: Codec
    const db: Connection

    constructor (c: Codec, db: Connection)
      ensures this.c == c && this.db == db
    {
      this.c, this.db := c, db;
    }

    method Append(n: Node) returns (res: AppendResult)
      requires db.Ready() && TableOk(c, db.committed)
      modifies db
      ensures res == AppendOutcome(c, old(db.committed), n)
      ensures db.committed == After(c, old(db.committed), n) && db.Ready()
    {
      hide ValidNode, NodeId, TableOk;
      if !ValidNode(n) {
        return BadNode;
      }
      var row := RowOf(c, n);
      var affected := db.InsertOrIgnore(row);
      if affected == 1 {
        return Stored(row.id);
      }
      var ok, owner := db.SlotOwner(SlotOf(n));
      if owner != "" && owner != row.id {
        return SlotConflict;
      }
      return Stored(row.id);
    }

    method ClaimToolCall(n: Node) returns (res: ClaimResult)
      requires db.Ready() && n.step.Some?
      modifies db
      ensures res == ClaimOutcome(c, old(db.committed), n)
      ensures db.committed == After(c, old(db.committed), n) && db.Ready()
    {
      hide ValidNode, NodeId;
      if !ValidNode(n) {
        return BadClaim;
      }
      db.Begin();
      var found := db.HasClaim(n);
      if found {
        MatchTakesSlot(db.rows, n);
        db.Commit();
        return Taken;
      }
      var ok := db.Insert(RowOf(c, n));
      if !ok {
        db.Rollback();
        return Taken;
      }
      db.Commit();
      return Claimed;
    }
  }

  /** go/trajir/postgres: a savepoint lets the owner lookup follow a failed insert. */
  class PostgresLog {
    const c: Codec
    const db: Connection

    constructor (c: Codec, db: Connection)
      ensures this.c == c && this.db == db
    {
      this.c, this.db := c, db;
    }

    /** `rival` is a row that another session commits between the insert and the owner lookup. */
    method Append(n: Node, rival: Option<Row>) returns (res: AppendResult)
      requires db.Ready() && TableOk(c, db.committed)
      modifies db
      ensures res == AppendOutcome(c, Contended(c, old(db.committed), n, rival), n)
      ensures db.committed == Contended(c, old(db.committed), n, rival) && db.Ready()
    {
      hide ValidNode, NodeId, TableOk, Owner, Free;
      if !ValidNode(n) {
        return BadNode;
      }
      var row := RowOf(c, n);
      db.Begin();
      db.Savepoint();
      var inserted := db.InsertUnlessId(row);
      InsertedWhen(old(db.committed), row);
      if !inserted {
        db.RollbackToSavepoint();
        if rival.Some? {
          db.Rival(rival.value);
        }
        var ok, owner := db.SlotOwner(SlotOf(n));
        db.Rollback();
        if owner != "" && owner != row.id {
          return SlotConflict;
        }
        return Stored(row.id);
      }
      if rival.Some? {
        db.Rival(rival.value);
      }
      var ok, owner := db.SlotOwner(SlotOf(n));
      if owner != "" && owner != row.id {
        db.Rollback();
        return SlotConflict;
      }
      db.Commit();
      return Stored(row.id);
    }

    /** `rival` is a row that another session commits between the query and the insert. */
    method ClaimToolCall(n: Node, rival: Option<Row>) returns (res: ClaimResult)
      requires db.Ready() && n.step.Some?
      modifies db
      ensures var table := Raced(old(db.committed), n, rival);
        res == ClaimOutcome(c, table, n) && db.committed == After(c, table, n)
      ensures db.Ready()
    {
      hide ValidNode, NodeId;
      if !ValidNode(n) {
        return BadClaim;
      }
      db.Begin();
      var found := db.HasClaim(n);
      if found {
        MatchTakesSlot(db.rows, n);
        db.Commit();
        return Taken;
      }
      if rival.Some? {
        db.Rival(rival.value);
      }
      var ok := db.Insert(RowOf(c, n));
      if !ok {
        db.Rollback();
        return Taken;
      }
      db.Commit();
      return Claimed;
    }
  }

  /** pkg/trajectory_ir/runtime/log.py: SQLite, with the lookup inside the insert's transaction. */
  class PySqliteLog {
    const c: Codec
    const db: Connection

    constructor (c: Codec, db: Connection)
      ensures this.c == c && this.db == db
    {
      this.c, this.db := c, db;
    }

    method Append(n: Node) returns (res: AppendResult)
      requires db.Ready() && TableOk(c, db.committed)
      modifies db
      ensures res == AppendOutcome(c, old(db.committed), n)
      ensures db.committed == After(c, old(db.committed), n) && db.Ready()
    {
      hide ValidNode, NodeId, TableOk;
      if !ValidNode(n) {
        return BadNode;
      }
      var row := RowOf(c, n);
      db.BeginImplicitly();
      var _ := db.InsertOrIgnore(row);
      var ok, owner := db.SlotOwner(SlotOf(n));
      OwnerAfterStore(old(db.committed), row);
      if owner != "" && owner != row.id {
        db.Rollback();
        return SlotConflict;
      }
      db.Commit();
      return Stored(row.id);
    }

    method ClaimToolCall(n: Node) returns (res: ClaimResult)
      requires db.Ready() && n.step.Some?
      modifies db
      ensures res == ClaimOutcome(c, old(db.committed), n)
      ensures db.committed == After(c, old(db.committed), n) && db.Ready()
    {
      hide ValidNode, NodeId;
      if !ValidNode(n) {
        return BadClaim;
      }
      db.Begin();
      var found := db.HasClaim(n);
      if found {
        MatchTakesSlot(db.rows, n);
        db.Commit();
        return Taken;
      }
      var ok := db.Insert(RowOf(c, n));
      if !ok {
        db.Rollback();
        return Taken;
      }
      db.Commit();
      return Claimed;
    }
  }

  /** drivers/postgres/log.py: a failed insert rolls everything back before the lookup. */
  class PyPostgresLog {
    const c: Codec
    const db: Connection

    constructor (c: Codec, db: Connection)
      ensures this.c == c && this.db == db
    {
      this.c, this.db := c, db;
    }

    /**
     * `rival` is a row that another session commits between the insert and the owner lookup. The
     * lookup after a rollback leaves a read transaction open, so only `Settled` is kept.
     */
    method Append(n: Node, rival: Option<Row>) returns (res: AppendResult)
      requires db.Settled() && TableOk(c, db.committed)
      modifies db
      ensures res == AppendOutcome(c, Contended(c, old(db.committed), n, rival), n)
      ensures db.committed == Contended(c, old(db.committed), n, rival) && db.Settled()
    {
      hide ValidNode, NodeId, TableOk, Owner, Free;
      if !ValidNode(n) {
        return BadNode;
      }
      var row := RowOf(c, n);
      db.BeginImplicitly();
      var inserted := db.InsertUnlessId(row);
      InsertedWhen(old(db.committed), row);
      if !inserted {
        db.Rollback();
        db.BeginImplicitly();
        if rival.Some? {
          db.Rival(rival.value);
        }
        var ok, owner := db.SlotOwner(SlotOf(n));
        if owner != "" && owner != row.id {
          return SlotConflict;
        }
        return Stored(row.id);
      }
      if rival.Some? {
        db.Rival(rival.value);
      }
      var ok, owner := db.SlotOwner(SlotOf(n));
      if owner != "" && owner != row.id {
        db.Rollback();
        return SlotConflict;
      }
      db.Commit();
      return Stored(row.id);
    }

    method ClaimToolCall(n: Node, rival: Option<Row>) returns (res: ClaimResult)
      requires db.Settled() && n.step.Some?
      modifies db
      ensures var table := Raced(old(db.committed), n, rival);
        res == ClaimOutcome(c, table, n) && db.committed == After(c, table, n)
      ensures db.Settled()
    {
      hide ValidNode, NodeId;
      if !ValidNode(n) {
        return BadClaim;
      }
      db.BeginImplicitly();
      var found := db.HasClaim(n);
      if found {
        MatchTakesSlot(db.rows, n);
        db.Commit();
        return Taken;
      }
      if rival.Some? {
        db.Rival(rival.value);
      }
      var ok := db.Insert(RowOf(c, n));
      if !ok {
        db.Rollback();
        return Taken;
      }
      db.Commit();
      return Claimed;
    }
  }
}
