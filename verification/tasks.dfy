/**
 * A pipeline task: one run of one stage implementation, identified by (type,
 * implementation, name, version) and recorded in the tasks table.  `Begin` and `Finish`
 * are the two halves of `Task.start` around the stage's `run`; each stage module composes
 * them with its own run into a `Start` method.
 */
module Tasks {
  import opened Base
  import opened Strs
  import opened Js
  import opened Db

  /** How a stage's `run` ended: it returned, it threw, or the process exited under it. */
  datatype RunOutcome = Returned | Threw(error: Error) | Exited

  /** `type/implementation/name#version`. */
  function Identifier(key: TaskKey): string
  {
    key.taskType + "/" + key.implementation + "/" + key.name + "#" + IntToString(key.version)
  }

  /** The message `start` throws for a taken identity (with the stray `}` it writes). */
  function DuplicateMessage(key: TaskKey): string
  {
    "A task with the same name and version already exists: " + Identifier(key) + "}"
  }

  /** The version `start` uses: the given one when it is truthy, else the next free one. */
  function ChosenVersion(rows: seq<TaskRow>, taskType: string, implementation: string, name: string,
                         given: Option<int>): (v: int)
    ensures given.Some? && given.value != 0 ==> v == given.value
    ensures given.None? || given.value == 0 ==> v == NextVersion(rows, taskType, implementation, name)
  {
    if given.Some? && given.value != 0 then given.value else NextVersion(rows, taskType, implementation, name)
  }

  class Task {
    const db: Database
    const taskType: string
    const implementation: string
    const name: string
    var id: Option<nat>
    var version: Option<int>
    var status: Option<TaskStatus>
    var createdAt: Option<nat>
    var updatedAt: Option<nat>
    var params: Value
    var metrics: Value

    constructor(db: Database, taskType: string, implementation: string, name: string)
      ensures this.db == db && this.taskType == taskType
      ensures this.implementation == implementation && this.name == name
      ensures id.None? && version.None? && status.None? && createdAt.None? && updatedAt.None?
      ensures params == Undefined && metrics == Undefined
    {
      this.db := db;
      this.taskType := taskType;
      this.implementation := implementation;
      this.name := name;
      id := None;
      version := None;
      status := None;
      createdAt := None;
      updatedAt := None;
      params := Undefined;
      metrics := Undefined;
    }

    /** The fields every save writes have been set. */
    ghost predicate Started()
      reads this
    {
      version.Some? && status.Some? && createdAt.Some? && updatedAt.Some?
    }

    function Key(): TaskKey
      reads this`version
      requires version.Some?
    {
      TaskKey(taskType, implementation, name, version.value)
    }

    /** The row this task's fields describe, with the id the table gave it. */
    ghost function Row(): TaskRow
      reads this
      requires Started() && id.Some?
    {
      TaskRow(id.value, Key(), status.value, createdAt.value, updatedAt.value, params, metrics)
    }

    /** The identity has a row, with this task's id and creation time. */
    ghost predicate Recorded()
      reads this, db
    {
      && Started() && id.Some? && db.Valid()
      && FindTask(db.tasks, Key()).Some?
      && db.tasks[FindTask(db.tasks, Key()).value].id == id.value
      && db.tasks[FindTask(db.tasks, Key()).value].createdAt == createdAt.value
    }

    /** The table holds exactly this task's fields in the row of its identity. */
    ghost predicate Synced()
      reads this, db
    {
      && Started() && id.Some? && db.Valid()
      && FindTask(db.tasks, Key()).Some?
      && db.tasks[FindTask(db.tasks, Key()).value] == Row()
    }

    /** `save`: the upsert on the identity; the RETURNING id becomes the task's id. */
    method Save()
      requires Started() && db.Valid()
      modifies db`tasks, db`taskSerial, this`id
      ensures db.Valid()
      ensures db.tasks == Upsert(old(db.tasks), old(db.taskSerial), Key(), status.value, createdAt.value,
                                 updatedAt.value, params, metrics).0
      ensures id == Some(Upsert(old(db.tasks), old(db.taskSerial), Key(), status.value, createdAt.value,
                                updatedAt.value, params, metrics).1)
      ensures db.taskSerial == old(db.taskSerial) + 1
      ensures old(Recorded()) || FindTask(old(db.tasks), Key()).None? ==> Synced()
    {
      var u := Upsert(db.tasks, db.taskSerial, Key(), status.value, createdAt.value, updatedAt.value, params, metrics);
      UpsertValid(db.tasks, db.taskSerial, Key(), status.value, createdAt.value, updatedAt.value, params, metrics);
      UpsertRow(db.tasks, db.taskSerial, Key(), status.value, createdAt.value, updatedAt.value, params, metrics);
      db.tasks := u.0;
      db.taskSerial := db.taskSerial + 1;
      id := Some(u.1);
    }

    /** A save of an identity that has a row: the row is updated in place and keeps its id. */
    method Resave()
      requires Recorded()
      modifies db`tasks, db`taskSerial, this`id
      ensures Synced() && id == old(id)
      ensures var p := FindTask(old(db.tasks), Key()).value;
              db.tasks == old(db.tasks)[p := old(db.tasks)[p].(status := status.value, updatedAt := updatedAt.value,
                                                                params := params, metrics := metrics)]
    {
      Save();
    }

    /** `updateMetrics`: the metrics object is replaced whole, not merged, and saved. */
    method UpdateMetrics(m: Value)
      requires Synced()
      modifies this`metrics, this`updatedAt, this`id, db`tasks, db`taskSerial, db`clock
      ensures Synced() && id == old(id)
      ensures metrics == m && updatedAt == Some(old(db.clock))
      ensures db.clock == old(db.clock) + 1
      ensures var p := FindTask(old(db.tasks), Key()).value;
              db.tasks == old(db.tasks)[p := old(db.tasks)[p].(metrics := m, updatedAt := old(db.clock))]
    {
      ghost var rows := db.tasks;
      ghost var p := FindTask(rows, Key()).value;
      metrics := m;
      var t := db.Now();
      updatedAt := Some(t);
      assert Recorded();
      assert rows[p].status == status.value && rows[p].params == params;
      Resave();
    }

    /** Lines 49-73 of `start`: pick the version, refuse a taken identity before writing
        anything, then save the task as running. */
    method Begin(p: Value, given: Option<int>) returns (r: Outcome)
      requires db.Valid()
      modifies this`params, this`version, this`status, this`createdAt, this`updatedAt, this`id
      modifies db`tasks, db`taskSerial, db`clock
      ensures params == p
      ensures version == Some(ChosenVersion(old(db.tasks), taskType, implementation, name, given))
      ensures db.Valid()
      ensures FindTask(old(db.tasks), Key()).Some? ==>
        && r == Fail(Error(DuplicateMessage(Key())))
        && db.tasks == old(db.tasks) && db.taskSerial == old(db.taskSerial) && db.clock == old(db.clock)
        && status == old(status) && createdAt == old(createdAt) && updatedAt == old(updatedAt) && id == old(id)
      ensures FindTask(old(db.tasks), Key()).None? ==>
        && r == Pass && Synced()
        && status == Some(Running)
        && createdAt == Some(old(db.clock)) && updatedAt == Some(old(db.clock) + 1)
        && db.clock == old(db.clock) + 2
        && id == Some(old(db.taskSerial))
        && db.tasks == old(db.tasks) + [Row()]
    {
      params := p;
      version := Some(ChosenVersion(db.tasks, taskType, implementation, name, given));
      var existing := CountTasks(db.tasks, KeyFilter(Key()));
      CountByKey(db.tasks, Key());
      if existing > 0 {
        return Fail(Error(DuplicateMessage(Key())));
      }
      Register();
      r := Pass;
    }

    /** Lines 66-73 of `start`: a fresh identity is saved as running, created one tick
        before its last update, in a new row at the end of the table. */
    method Register()
      requires db.Valid() && version.Some? && FindTask(db.tasks, Key()).None?
      modifies this`status, this`createdAt, this`updatedAt, this`id, db`tasks, db`taskSerial, db`clock
      ensures Synced()
      ensures status == Some(Running)
      ensures createdAt == Some(old(db.clock)) && updatedAt == Some(old(db.clock) + 1)
      ensures db.clock == old(db.clock) + 2
      ensures id == Some(old(db.taskSerial))
      ensures db.tasks == old(db.tasks) + [Row()]
    {
      status := Some(Running);
      var t1 := db.Now();
      createdAt := Some(t1);
      var t2 := db.Now();
      updatedAt := Some(t2);
      Save();
    }

    /** `Begin` seen from a stage: the version, and either the refusal of a taken identity
        or a running task that is saved. */
    method Open(p: Value, given: Option<int>) returns (r: Outcome)
      requires db.Valid()
      modifies this`params, this`version, this`status, this`createdAt, this`updatedAt, this`id
      modifies db`tasks, db`taskSerial, db`clock
      ensures params == p
      ensures version == Some(ChosenVersion(old(db.tasks), taskType, implementation, name, given))
      ensures FindTask(old(db.tasks), Key()).Some? ==> r == Fail(Error(DuplicateMessage(Key()))) && db.tasks == old(db.tasks)
      ensures FindTask(old(db.tasks), Key()).None? ==> r == Pass && Synced() && status == Some(Running)
    {
      r := Begin(p, given);
    }

    /** Lines 76-88 of `start`: record how `run` ended, save, and pass the same outcome on,
        so an error is re-thrown only after the failed status is stored. */
    method Finish(o: RunOutcome) returns (r: RunOutcome)
      requires Synced() && !o.Exited?
      modifies this`status, this`updatedAt, this`id, db`tasks, db`taskSerial, db`clock
      ensures r == o && Synced() && id == old(id)
      ensures status == Some(if o.Returned? then Succeeded else Failed)
      ensures updatedAt == Some(old(db.clock)) && db.clock == old(db.clock) + 1
      ensures var p := FindTask(old(db.tasks), Key()).value;
              db.tasks == old(db.tasks)[p := old(db.tasks)[p].(status := status.value, updatedAt := old(db.clock))]
    {
      ghost var rows := db.tasks;
      ghost var p := FindTask(rows, Key()).value;
      var s := if o.Returned? then Succeeded else Failed;
      status := Some(s);
      var t := db.Now();
      updatedAt := Some(t);
      assert Recorded();
      assert rows[p].params == params && rows[p].metrics == metrics;
      Resave();
      r := o;
    }

    /** `Finish` seen from a stage: the outcome `start` resolves to and the final status. */
    method Conclude(o: RunOutcome) returns (r: Outcome)
      requires Synced() && !o.Exited?
      modifies this`status, this`updatedAt, this`id, db`tasks, db`taskSerial, db`clock
      ensures Synced() && id == old(id)
      ensures r == (if o.Returned? then Pass else Fail(o.error))
      ensures status == Some(if o.Returned? then Succeeded else Failed)
    {
      var finished := Finish(o);
      r := if finished.Returned? then Pass else Fail(finished.error);
    }
  }

  /** Writing the stage tables leaves a synced task synced: only the task registry's own
      fields matter. */
  twostate lemma SyncedKept(task: Task)
    requires old(task.Synced())
    requires unchanged(task)
    requires unchanged(task.db`tasks, task.db`taskSerial, task.db`configurations, task.db`configurationSerial)
    ensures task.Synced()
  {
  }

  /** The final status recorded for each way a run can end; an exit leaves it running. */
  function FinalStatus(o: RunOutcome): TaskStatus
  {
    match o
    case Returned => Succeeded
    case Threw(_) => Failed
    case Exited => Running
  }

  // ---------------------------------------------------------------------------------
  // The identifier names the task unambiguously when the parts avoid '/' and '#'.

  predicate Plain(s: string)
  {
    '/' !in s && '#' !in s
  }

  lemma IntToStringPlain(n: int)
    ensures Plain(IntToString(n))
  {
    var d := NatToString(if n < 0 then -n else n);
    assert forall i :: 0 <= i < |d| ==> IsDigit(d[i]);
    if n < 0 {
      assert IntToString(n) == "-" + d;
      assert forall i :: 0 <= i < |"-" + d| ==> ("-" + d)[i] == '-' || IsDigit(("-" + d)[i]);
    }
  }

  lemma {:induction false} IdentifierParts(key: TaskKey)
    requires Plain(key.taskType) && Plain(key.implementation) && Plain(key.name)
    ensures var tail := key.name + "#" + IntToString(key.version);
            Split(Identifier(key), "/") == [key.taskType, key.implementation, tail]
            && Split(tail, "#") == [key.name, IntToString(key.version)]
  {
    var v := IntToString(key.version);
    IntToStringPlain(key.version);
    var tail := key.name + "#" + v;
    assert '/' !in tail by {
      forall i | 0 <= i < |tail| ensures tail[i] != '/' {
        if i < |key.name| { assert tail[i] == key.name[i]; }
        else if i > |key.name| { assert tail[i] == v[i - |key.name| - 1]; }
      }
    }
    var parts := [key.taskType, key.implementation, tail];
    assert Join(parts, "/") == Identifier(key) by {
      assert parts[1..] == [key.implementation, tail];
      assert parts[1..][1..] == [tail];
      assert Join(parts[1..], "/") == key.implementation + "/" + tail;
      assert Join(parts, "/") == key.taskType + "/" + (key.implementation + "/" + tail);
    }
    SplitJoin(parts, '/');
    var halves := [key.name, v];
    assert Join(halves, "#") == tail by {
      assert halves[1..] == [v];
    }
    SplitJoin(halves, '#');
  }

  /** Two tasks whose names avoid '/' and '#' have the same identifier only if they are the
      same task. */
  lemma IdentifierInjective(k1: TaskKey, k2: TaskKey)
    requires Plain(k1.taskType) && Plain(k1.implementation) && Plain(k1.name)
    requires Plain(k2.taskType) && Plain(k2.implementation) && Plain(k2.name)
    requires Identifier(k1) == Identifier(k2)
    ensures k1 == k2
  {
    IdentifierParts(k1);
    IdentifierParts(k2);
    ParseIntRoundTrip(k1.version);
    ParseIntRoundTrip(k2.version);
  }
}
