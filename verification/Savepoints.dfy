/** Nested transactions: Plans.transaction and create_task over SQLite's one transaction and its savepoint stack. */
module Savepoints {
  import opened Text

  type Tables = map<int, int>

  /** A saved point: its name and the tables when it was set. */
  datatype Savepoint = Savepoint(name: string, saved: Tables)

  /** The connection: the tables, the tables at BEGIN while a transaction is open, and the open savepoints. */
  datatype Connection = Connection(tables: Tables, begun: Option<Tables>, stack: seq<Savepoint>)

  predicate InTransaction(c: Connection) { c.begun.Some? || c.stack != [] }

  datatype Command = Begin | Commit | Rollback | Save(name: string) | Release(name: string) | RollbackTo(name: string)

  /** The most recent savepoint of a name. */
  function FindLast(stack: seq<Savepoint>, name: string): (r: Option<nat>)
    ensures r.Some? ==> r.value < |stack| && stack[r.value].name == name
    ensures forall i | (if r.Some? then r.value else -1) < i < |stack| :: stack[i].name != name
  {
    if stack == [] then None
    else if stack[|stack| - 1].name == name then Some(|stack| - 1)
    else FindLast(stack[..|stack| - 1], name)
  }

  /** SQLite's meaning of a command; None is an error that leaves the connection alone. */
  function Execute(c: Connection, k: Command): Option<Connection> {
    match k
    case Begin => if InTransaction(c) then None else Some(c.(begun := Some(c.tables)))
    case Commit => if InTransaction(c) then Some(Connection(c.tables, None, [])) else None
    case Rollback => if c.begun.Some? then Some(Connection(c.begun.value, None, [])) else None
    case Save(name) => Some(c.(stack := c.stack + [Savepoint(name, c.tables)]))
    case Release(name) =>
      var i := FindLast(c.stack, name);
      if i.Some? then Some(c.(stack := c.stack[..i.value])) else None
    case RollbackTo(name) =>
      var i := FindLast(c.stack, name);
      if i.Some? then Some(c.(tables := c.stack[i.value].saved, stack := c.stack[..i.value + 1])) else None
  }

  /** Code that runs against the connection: writes, exceptions, handlers, and the two kinds of scope. */
  datatype Code =
    | Skip
    | Write(key: int, value: int)
    | Raise
    | Then(first: Code, second: Code)
    | Handle(body: Code)                  // an except clause that swallows the failure
    | Scope(name: string, body: Code)     // with transaction(...): or the body of create_task

  datatype Outcome = Outcome(ok: bool, connection: Connection)

  /** An SQLite error inside a scope's own bookkeeping is an exception like any other. */
  function Issue(c: Connection, k: Command): Outcome {
    match Execute(c, k)
    case Some(d) => Outcome(true, d)
    case None => Outcome(false, c)
  }

  /** What the Python code does, command by command. */
  function Interpret(code: Code, c: Connection): Outcome {
    match code
    case Skip => Outcome(true, c)
    case Write(key, value) => Outcome(true, c.(tables := c.tables[key := value]))
    case Raise => Outcome(false, c)
    case Then(first, second) =>
      var r := Interpret(first, c);
      if r.ok then Interpret(second, r.connection) else r
    case Handle(body) => Interpret(body, c).(ok := true)
    case Scope(name, body) =>
      var nested := InTransaction(c);
      var entered := Issue(c, if nested then Save(name) else Begin);
      if !entered.ok then entered
      else
        var r := Interpret(body, entered.connection);
        var closed := if r.ok then Issue(r.connection, if nested then Release(name) else Commit) else r;
        if closed.ok then closed
        else
          var back := Issue(closed.connection, if nested then RollbackTo(name) else Rollback);
          if nested && back.ok then Issue(back.connection, Release(name)).(ok := false) else back.(ok := false)
  }

  datatype Result = Result(ok: bool, tables: Tables)

  /** All-or-nothing scopes, without any connection: a failed scope leaves the tables it was entered with. */
  function Meaning(code: Code, t: Tables): Result {
    match code
    case Skip => Result(true, t)
    case Write(key, value) => Result(true, t[key := value])
    case Raise => Result(false, t)
    case Then(first, second) =>
      var r := Meaning(first, t);
      if r.ok then Meaning(second, r.tables) else r
    case Handle(body) => Meaning(body, t).(ok := true)
    case Scope(_, body) =>
      var r := Meaning(body, t);
      if r.ok then r else Result(false, t)
  }

  lemma FindPushed(stack: seq<Savepoint>, p: Savepoint)
    ensures FindLast(stack + [p], p.name) == Some(|stack|)
  {
  }

  ghost predicate Atomic(code: Code, c: Connection) {
    && Interpret(code, c).ok == Meaning(code, c.tables).ok
    && Interpret(code, c).connection == c.(tables := Meaning(code, c.tables).tables)
  }

  lemma InnerScope(name: string, body: Code, c: Connection)
    requires InTransaction(c) && Atomic(body, c.(stack := c.stack + [Savepoint(name, c.tables)]))
    ensures Atomic(Scope(name, body), c)
  {
    var p := Savepoint(name, c.tables);
    var d := c.(stack := c.stack + [p], tables := Meaning(body, c.tables).tables);
    FindPushed(c.stack, p);
    assert (c.stack + [p])[..|c.stack|] == c.stack;
    assert (c.stack + [p])[..|c.stack| + 1] == c.stack + [p];
    assert Execute(d, Release(name)) == Some(c.(tables := d.tables));
    assert Execute(d, RollbackTo(name)) == Some(c.(stack := c.stack + [p]));
    assert Execute(c.(stack := c.stack + [p]), Release(name)) == Some(c);
  }

  lemma OuterScope(name: string, body: Code, c: Connection)
    requires !InTransaction(c) && Atomic(body, c.(begun := Some(c.tables)))
    ensures Atomic(Scope(name, body), c)
  {
  }

  /** At every nesting depth, and although all scopes of a kind share one savepoint name, running the code leaves the
    transaction and the savepoint stack as it found them and the tables as the all-or-nothing reading says. */
  lemma {:induction false} ScopesAreAtomic(code: Code, c: Connection)
    ensures Interpret(code, c).ok == Meaning(code, c.tables).ok
    ensures Interpret(code, c).connection == c.(tables := Meaning(code, c.tables).tables)
  {
    match code {
      case Then(first, second) =>
        ScopesAreAtomic(first, c);
        ScopesAreAtomic(second, Interpret(first, c).connection);
      case Handle(body) => ScopesAreAtomic(body, c);
      case Scope(name, body) =>
        if InTransaction(c) {
          ScopesAreAtomic(body, c.(stack := c.stack + [Savepoint(name, c.tables)]));
          InnerScope(name, body, c);
        } else {
          ScopesAreAtomic(body, c.(begun := Some(c.tables)));
          OuterScope(name, body, c);
        }
      case _ =>
    }
  }

  /** A batch: one scope around a sequence of operations, each of which is code of its own. */
  function InOrder(items: seq<Code>): Code {
    if items == [] then Skip else Then(items[0], InOrder(items[1..]))
  }

  /** A batch in which some operation fails changes nothing, wherever it stands and however deep it nests; a batch that
    succeeds leaves what its operations leave one after the other. */
  lemma FailedBatchChangesNothing(name: string, items: seq<Code>, c: Connection)
    ensures !Interpret(Scope(name, InOrder(items)), c).ok ==> Interpret(Scope(name, InOrder(items)), c).connection == c
    ensures Interpret(Scope(name, InOrder(items)), c).ok ==>
      Interpret(Scope(name, InOrder(items)), c).connection == Interpret(InOrder(items), c).connection
  {
    ScopesAreAtomic(Scope(name, InOrder(items)), c);
    ScopesAreAtomic(InOrder(items), c);
  }
}
