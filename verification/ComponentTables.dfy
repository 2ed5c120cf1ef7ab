/**
 The two tables of the database, stored and future, over any kind of entry: heap objects in the
 database itself, plain values in the specifications of the systems that use it.
 */
module ComponentTables {
  import opened Options
  import opened Events

  type Table<T> = map<EntityId, map<string, T>>

  function Find<T>(table: Table<T>, e: EntityId, c: string): Option<T> {
    if e in table && c in table[e] then Some(table[e][c]) else None
  }

  /** table[e][c] := x, creating the inner map as operator[] does. */
  function Put<T>(table: Table<T>, e: EntityId, c: string, x: T): (r: Table<T>)
    ensures forall e', c' :: Find(r, e', c') == if e' == e && c' == c then Some(x) else Find(table, e', c')
  {
    table[e := (if e in table then table[e] else map[])[c := x]]
  }

  /** Removes one entry; the inner map stays, even when it becomes empty. */
  function Erase<T>(table: Table<T>, e: EntityId, c: string): (r: Table<T>)
    ensures forall e', c' :: Find(r, e', c') == if e' == e && c' == c then None else Find(table, e', c')
  {
    if e in table then table[e := table[e] - {c}] else table
  }

  lemma PutErased<T>(table: Table<T>, e: EntityId, c: string, x: T)
    ensures Put(Erase(table, e, c), e, c, x) == Put(table, e, c, x)
  {
    if e in table {
      assert (table[e] - {c})[c := x] == table[e][c := x];
    }
  }

  datatype Tables<T> = Tables(stored: Table<T>, futures: Table<T>) {
    /** What a consumer of getFutureComponent would get without anything being created. */
    function Lookup(e: EntityId, c: string): Option<T> {
      if Find(stored, e, c).Some? then Find(stored, e, c) else Find(futures, e, c)
    }

    /** No key is stored and future at once, and no empty inner future map remains. */
    ghost predicate WellFormed() {
      && (forall e, c | Find(futures, e, c).Some? :: Find(stored, e, c).None?)
      && (forall e | e in futures :: futures[e] != map[])
    }

    /** Distinct keys never share an entry; meant for tables of objects. */
    ghost predicate NoSharing() {
      forall e1, c1, e2, c2 ::
        Lookup(e1, c1).Some? && Lookup(e1, c1) == Lookup(e2, c2) ==> e1 == e2 && c1 == c2
    }

    ghost predicate Holds(x: T) {
      exists e, c :: Lookup(e, c) == Some(x)
    }

    function InsertEntity(e: EntityId): Tables<T> { this.(stored := stored[e := map[]]) }

    function RemoveEntity(e: EntityId): Tables<T> { this.(stored := stored - {e}) }

    function RemoveComponent(e: EntityId, c: string): Tables<T> { this.(stored := Erase(stored, e, c)) }

    function AddFuture(e: EntityId, c: string, x: T): Tables<T> { this.(futures := Put(futures, e, c, x)) }

    /** takeFutureComponent: the inner map goes with its last entry. */
    function TakeFuture(e: EntityId, c: string): Tables<T> {
      var rest := Erase(futures, e, c);
      this.(futures := if e in rest && rest[e] == map[] then rest - {e} else rest)
    }

    /** insertComponentValue: whatever was announced as a future becomes the stored entry. */
    function Insert(e: EntityId, c: string, x: T): Tables<T> {
      var taken := TakeFuture(e, c);
      taken.(stored := Put(stored, e, c, x))
    }
  }

  /** What a storage system holds, as values: its database and the names of the registered procedures. */
  datatype Store = Store(tables: Tables<Value>, rpcs: map<EntityId, seq<string>>)

  lemma TakenFuture<T>(t: Tables<T>, e: EntityId, c: string)
    requires t.WellFormed()
    ensures var r := t.TakeFuture(e, c);
      && r.stored == t.stored
      && (forall e', c' :: Find(r.futures, e', c') == if e' == e && c' == c then None else Find(t.futures, e', c'))
      && r.WellFormed()
  {
    var r := t.TakeFuture(e, c);
    var rest := Erase(t.futures, e, c);
    forall e', c' ensures Find(r.futures, e', c') == Find(rest, e', c') {
    }
  }

  /** The calls that change the tables; `created` is the entry the call creates if it has to create one. */
  datatype Operation<T> =
    | InsertEntity(e: EntityId)
    | RemoveEntity(e: EntityId)
    | RemoveComponent(e: EntityId, c: string)
    | GetFuture(e: EntityId, c: string, created: T)
    | InsertComponent(e: EntityId, c: string, created: T)

  function Adopted<T>(t: Tables<T>, e: EntityId, c: string, created: T): T {
    if Find(t.futures, e, c).Some? then Find(t.futures, e, c).value else created
  }

  function Apply<T>(t: Tables<T>, op: Operation<T>): Tables<T> {
    match op
    case InsertEntity(e) => t.InsertEntity(e)
    case RemoveEntity(e) => t.RemoveEntity(e)
    case RemoveComponent(e, c) => t.RemoveComponent(e, c)
    case GetFuture(e, c, created) => if t.Lookup(e, c).Some? then t else t.AddFuture(e, c, created)
    case InsertComponent(e, c, created) => t.Insert(e, c, Adopted(t, e, c, created))
  }

  /** An entry that the call really creates is not in the tables yet. */
  ghost predicate Creates<T>(t: Tables<T>, op: Operation<T>) {
    match op
    case GetFuture(e, c, created) => t.Lookup(e, c).None? ==> !t.Holds(created)
    case InsertComponent(e, c, created) => Find(t.futures, e, c).None? ==> !t.Holds(created)
    case _ => true
  }

  /** Calls that drop the stored entry of (e, c). A future entry is dropped by nothing. */
  predicate Drops<T>(t: Tables<T>, op: Operation<T>, e: EntityId, c: string) {
    Find(t.stored, e, c).Some? &&
    match op
    case InsertEntity(e') => e' == e
    case RemoveEntity(e') => e' == e
    case RemoveComponent(e', c') => e' == e && c' == c
    case GetFuture(_, _, _) => false
    case InsertComponent(e', c', _) => e' == e && c' == c
  }

  /** Every call keeps stored and future keys apart, empty inner maps away and entries unshared. */
  lemma ApplyKeepsShape<T>(t: Tables<T>, op: Operation<T>)
    requires t.WellFormed() && t.NoSharing() && Creates(t, op)
    ensures Apply(t, op).WellFormed() && Apply(t, op).NoSharing()
  {
    var r := Apply(t, op);
    match op
    case InsertComponent(e, c, created) =>
      TakenFuture(t, e, c);
      var x := Adopted(t, e, c, created);
      assert forall e', c' :: Find(r.stored, e', c') == (if e' == e && c' == c then Some(x) else Find(t.stored, e', c'));
      assert forall e', c' | !(e' == e && c' == c) :: r.Lookup(e', c') == t.Lookup(e', c');
      forall e', c' | t.Lookup(e', c') == Some(x) ensures e' == e && c' == c {
        if Find(t.futures, e, c).Some? { assert t.Lookup(e, c) == Some(x); } else { assert t.Holds(x); }
      }
    case GetFuture(e, c, created) =>
      if t.Lookup(e, c).None? {
        assert forall e', c' | !(e' == e && c' == c) :: r.Lookup(e', c') == t.Lookup(e', c');
        assert forall e', c' :: t.Lookup(e', c') != Some(created);
      }
    case _ =>
      assert forall e', c' | r.Lookup(e', c').Some? :: r.Lookup(e', c') == t.Lookup(e', c');
  }

  /** A handle stays the entry of its key through a call exactly when the call does not drop the stored entry. */
  lemma HandleKeptIffNotDropped<T>(t: Tables<T>, op: Operation<T>, e: EntityId, c: string)
    requires t.WellFormed() && t.NoSharing() && Creates(t, op)
    requires t.Lookup(e, c).Some?
    ensures Apply(t, op).Lookup(e, c) == t.Lookup(e, c) <==> !Drops(t, op, e, c)
  {
    if op.InsertComponent? { TakenFuture(t, op.e, op.c); }
  }

  lemma KeptUnlessDropped<T>(t: Tables<T>, op: Operation<T>)
    requires t.WellFormed() && t.NoSharing() && Creates(t, op)
    ensures forall e, c | t.Lookup(e, c).Some? && !Drops(t, op, e, c) :: Apply(t, op).Lookup(e, c) == t.Lookup(e, c)
  {
    forall e, c | t.Lookup(e, c).Some? && !Drops(t, op, e, c) ensures Apply(t, op).Lookup(e, c) == t.Lookup(e, c) {
      HandleKeptIffNotDropped(t, op, e, c);
    }
  }

  function Run<T>(t: Tables<T>, ops: seq<Operation<T>>): Tables<T>
    decreases |ops|
  {
    if ops == [] then t else Run(Apply(t, ops[0]), ops[1..])
  }

  ghost predicate GoodRun<T>(t: Tables<T>, ops: seq<Operation<T>>, e: EntityId, c: string)
    decreases |ops|
  {
    ops == [] || (Creates(t, ops[0]) && !Drops(t, ops[0], e, c) && GoodRun(Apply(t, ops[0]), ops[1..], e, c))
  }

  /**
   Over any run of calls that never drops the stored (e, c): the handle taken at the start is what the
   key means at the end, and it is stored as soon as one call of the run inserts (e, c).
   */
  lemma {:induction false} HandleSurvivesRun<T>(t: Tables<T>, ops: seq<Operation<T>>, e: EntityId, c: string)
    requires t.WellFormed() && t.NoSharing() && t.Lookup(e, c).Some? && GoodRun(t, ops, e, c)
    ensures var r := Run(t, ops);
      && r.WellFormed() && r.NoSharing()
      && r.Lookup(e, c) == t.Lookup(e, c)
      && (Find(r.stored, e, c).Some? <==>
          Find(t.stored, e, c).Some? || exists op :: op in ops && op.InsertComponent? && op.e == e && op.c == c)
    decreases |ops|
  {
    if ops != [] {
      var u := Apply(t, ops[0]);
      ApplyKeepsShape(t, ops[0]);
      HandleKeptIffNotDropped(t, ops[0], e, c);
      HandleSurvivesRun(u, ops[1..], e, c);
      if ops[0].InsertComponent? { TakenFuture(t, ops[0].e, ops[0].c); }
      assert forall op :: op in ops <==> op == ops[0] || op in ops[1..];
    }
  }
}
