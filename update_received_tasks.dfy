/** production/management/commands/update_received_tasks.py: the one-off
    migration that moves every received production task into production. */
module UpdateReceivedTasks {
  import opened Common
  import opened ProductionModels

  /** What the migration does to one task: a received task goes to
      in_production and, when it has no start time but a receipt time,
      starts at its receipt time; any other task is left as it is. */
  function Migrated(t: ProductionTask): (r: ProductionTask)
    ensures t.status == TaskStatus.Received ==> r.status == TaskStatus.InProduction
    ensures t.status != TaskStatus.Received ==> r == t
    ensures r.status != TaskStatus.Received
    ensures r.startedAt == (if t.status == TaskStatus.Received && t.startedAt.None? then t.receivedAt else t.startedAt)
    ensures r.(status := t.status, startedAt := t.startedAt) == t
  {
    if t.status != TaskStatus.Received then t
    else
      var started := if t.startedAt.None? && t.receivedAt.Some? then t.receivedAt else t.startedAt;
      t.(status := TaskStatus.InProduction, startedAt := started)
  }

  /** ProductionTask.objects.filter(status='received').count(). */
  function CountReceived(tasks: seq<ProductionTask>): (n: nat)
    ensures n <= |tasks|
    ensures n == 0 <==> forall k :: 0 <= k < |tasks| ==> tasks[k].status != TaskStatus.Received
  {
    if tasks == [] then 0
    else
      var rest := CountReceived(tasks[1..]);
      assert forall k :: 1 <= k < |tasks| ==> tasks[k] == tasks[1..][k - 1];
      (if tasks[0].status == TaskStatus.Received then 1 else 0) + rest
  }

  lemma {:induction false} CountReceivedSnoc(tasks: seq<ProductionTask>, t: ProductionTask)
    ensures CountReceived(tasks + [t]) ==
      CountReceived(tasks) + (if t.status == TaskStatus.Received then 1 else 0)
  {
    if tasks != [] {
      assert (tasks + [t])[1..] == tasks[1..] + [t];
      CountReceivedSnoc(tasks[1..], t);
    }
  }

  /** The migration is idempotent: a second run finds nothing to do. */
  lemma MigratedTwice(t: ProductionTask)
    ensures Migrated(Migrated(t)) == Migrated(t)
    ensures CountReceived([Migrated(t)]) == 0
  {
  }

  /** The loop of Command.handle over the received tasks: each is
      migrated and counted; other tasks are not touched. */
  method MigrateAll(tasks: seq<ProductionTask>) returns (migrated: seq<ProductionTask>, updated: nat)
    ensures updated == CountReceived(tasks)
    ensures |migrated| == |tasks|
    ensures forall k :: 0 <= k < |tasks| ==> migrated[k] == Migrated(tasks[k])
  {
    migrated := tasks;
    updated := 0;
    var i := 0;
    while i < |tasks|
      invariant 0 <= i <= |tasks| == |migrated|
      invariant forall k :: 0 <= k < i ==> migrated[k] == Migrated(tasks[k])
      invariant forall k :: i <= k < |tasks| ==> migrated[k] == tasks[k]
      invariant updated == CountReceived(tasks[..i])
    {
      CountReceivedSnoc(tasks[..i], tasks[i]);
      assert tasks[..i + 1] == tasks[..i] + [tasks[i]];
      if tasks[i].status == TaskStatus.Received {
        migrated := migrated[i := Migrated(tasks[i])];
        updated := updated + 1;
      }
      i := i + 1;
    }
    assert tasks[..i] == tasks;
  }

  /** Command.handle: with no received task nothing is saved and the count
      is 0; otherwise every task is migrated and the count of received
      tasks is reported as the number updated. */
  method Handle(production: ProductionBook) returns (updated: nat)
    requires production.Valid()
    modifies production`tasks
    ensures production.Valid()
    ensures updated == CountReceived(old(production.tasks))
    ensures |production.tasks| == |old(production.tasks)|
    ensures forall k :: 0 <= k < |production.tasks| ==> production.tasks[k] == Migrated(old(production.tasks[k]))
    ensures updated == 0 ==> production.tasks == old(production.tasks)
  {
    var count := CountReceived(production.tasks);
    if count == 0 {
      return 0;
    }
    var migrated;
    migrated, updated := MigrateAll(production.tasks);
    production.tasks := migrated;
  }
}
