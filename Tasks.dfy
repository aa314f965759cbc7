/**
 * The patient's scheduled tasks (hooks/useTasks.ts): whose tasks are shown,
 * the query for today's and tomorrow's tasks in date-then-time order, task
 * creation, the completion toggle with its timestamp, and deletion. The
 * `tasks` table is a field of the hook's state; the dates of today and
 * tomorrow, the clock's timestamp and the database's answers are parameters.
 */
module Tasks {
  import opened Wrappers
  import opened JsText
  import opened Lists
  import TargetPatient

  const NoTargetMessage: string := "No hay paciente objetivo para asignar la tarea."
  const NotSignedInMessage: string := "Usuario no autenticado."

  /** A time of day in seconds since midnight (`HH:MM:SS`). */
  type TimeOfDay = t: nat | t < 86400

  datatype Task = Task(id: string, patientId: string, createdBy: Option<string>, title: string,
                       description: Option<string>, scheduledDate: string,
                       scheduledTime: Option<TimeOfDay>, completed: bool, completedAt: Option<string>)

  /** `targetUserId`: a caregiver sees the linked patient's tasks, anyone else their own. */
  function Target(role: Option<string>, profileId: Option<string>, isLinked: bool,
                  patientId: Option<string>): (t: Option<string>)
    ensures TargetPatient.IsCaregiver(role) ==> t == TargetPatient.LinkedPatient(isLinked, patientId)
    ensures !TargetPatient.IsCaregiver(role) ==> t == profileId
  {
    TargetPatient.ForRole(role, isLinked, patientId, profileId)
  }

  /** The sort key of `order('scheduled_date').order('scheduled_time')` over
      today's and tomorrow's tasks: the day first, then the time, a task with
      no time after every timed task of its day. */
  function OrderKey(t: Task, today: string): (k: int)
    ensures 0 <= k < 2 * 86401
    ensures k < 86401 <==> t.scheduledDate == today
  {
    (if t.scheduledDate == today then 0 else 86401)
    + (if t.scheduledTime.Some? then t.scheduledTime.value else 86400)
  }

  /** A row the query selects: the target's, scheduled today or tomorrow. */
  predicate Selected(t: Task, target: string, today: string, tomorrow: string) {
    t.patientId == target && (t.scheduledDate == today || t.scheduledDate == tomorrow)
  }

  /** What the query answers: the selected rows, ordered by day and time. */
  function QueryTasks(table: seq<Task>, target: string, today: string, tomorrow: string): (r: seq<Task>)
    ensures forall t :: t in r <==> t in table && Selected(t, target, today, tomorrow)
    ensures SortedBy(r, (t: Task) => OrderKey(t, today))
  {
    var selected := Filter(table, (t: Task) => Selected(t, target, today, tomorrow));
    var r := SortBy(selected, (t: Task) => OrderKey(t, today));
    assert forall t :: t in r <==> t in multiset(r);
    assert forall t :: t in selected <==> t in multiset(selected);
    r
  }

  /** Today's tasks come before tomorrow's, and within one day a timed task
      comes before an untimed one and earlier times before later ones. */
  lemma QueryOrder(table: seq<Task>, target: string, today: string, tomorrow: string, i: nat, j: nat)
    requires i < j < |QueryTasks(table, target, today, tomorrow)|
    ensures var r := QueryTasks(table, target, today, tomorrow);
      && (r[j].scheduledDate == today ==> r[i].scheduledDate == today)
      && (r[i].scheduledDate == r[j].scheduledDate && r[i].scheduledTime.None? ==> r[j].scheduledTime.None?)
      && (r[i].scheduledDate == r[j].scheduledDate && r[i].scheduledTime.Some? && r[j].scheduledTime.Some? ==>
            r[i].scheduledTime.value <= r[j].scheduledTime.value)
  {
    var r := QueryTasks(table, target, today, tomorrow);
    assert OrderKey(r[i], today) <= OrderKey(r[j], today);
  }

  /** `completed_at`: the clock's timestamp when the task becomes completed, none otherwise. */
  function CompletionStamp(completed: bool, now: string): (at: Option<string>)
    ensures at.Some? <==> completed
    ensures at.Some? ==> at.value == now
  {
    if completed then Some(now) else None
  }

  /** A task whose completion flag and timestamp agree. */
  predicate StampAgrees(t: Task) {
    t.completed <==> t.completedAt.Some?
  }

  /** The tasks with the id take the new completion; the others stay as they are. */
  function SetCompletion(tasks: seq<Task>, id: string, completed: bool, completedAt: Option<string>): (r: seq<Task>)
    ensures |r| == |tasks|
    ensures forall k :: 0 <= k < |tasks| ==>
      r[k] == if tasks[k].id == id then tasks[k].(completed := completed, completedAt := completedAt) else tasks[k]
  {
    seq(|tasks|, k requires 0 <= k < |tasks| =>
      if tasks[k].id == id then tasks[k].(completed := completed, completedAt := completedAt) else tasks[k])
  }

  /** A toggle keeps every task's flag and timestamp in agreement. */
  lemma ToggleKeepsStampsAgreeing(tasks: seq<Task>, id: string, current: bool, now: string)
    requires forall k :: 0 <= k < |tasks| ==> StampAgrees(tasks[k])
    ensures var r := SetCompletion(tasks, id, !current, CompletionStamp(!current, now));
      forall k :: 0 <= k < |r| ==> StampAgrees(r[k])
  {
  }

  /** Toggling a task and toggling it back restores every completion flag. */
  lemma ToggleTwiceRestoresFlags(tasks: seq<Task>, id: string, now1: string, now2: string)
    requires forall k :: 0 <= k < |tasks| ==> tasks[k].id == id ==> !tasks[k].completed && tasks[k].completedAt.None?
    ensures SetCompletion(SetCompletion(tasks, id, true, CompletionStamp(true, now1)), id, false,
                          CompletionStamp(false, now2)) == tasks
  {
    var once := SetCompletion(tasks, id, true, CompletionStamp(true, now1));
    var twice := SetCompletion(once, id, false, CompletionStamp(false, now2));
    forall k | 0 <= k < |tasks| ensures twice[k] == tasks[k] {
      if tasks[k].id == id {
        assert twice[k] == tasks[k].(completed := false, completedAt := None);
      }
    }
  }

  class TaskList {
    var tasks: seq<Task>
    var loading: bool
    var error: Option<string>
    /** The `tasks` table. */
    var table: seq<Task>

    constructor (table: seq<Task>)
      ensures tasks == [] && loading && error.None? && this.table == table
    {
      tasks := [];
      loading := true;
      error := None;
      this.table := table;
    }

    /** `fetchTasks`: without a target the list is emptied; otherwise it
        becomes the target's tasks of today and tomorrow, or the failure is
        kept. Loading ends either way. */
    method Fetch(target: Option<string>, today: string, tomorrow: string, failure: Option<string>)
      modifies this
      ensures table == old(table) && !loading
      ensures !Truthy(target) ==> tasks == [] && error == old(error)
      ensures Truthy(target) && failure.None? ==> tasks == QueryTasks(table, target.value, today, tomorrow) && error.None?
      ensures Truthy(target) && failure.Some? ==> tasks == old(tasks) && error == failure
    {
      if !Truthy(target) {
        tasks := [];
        loading := false;
        return;
      }
      loading := true;
      error := None;
      if failure.Some? {
        error := failure;
      } else {
        tasks := QueryTasks(table, target.value, today, tomorrow);
      }
      loading := false;
    }

    /** `createTask`: refused without a target or a signed-in user; a failed
        insert throws; otherwise an uncompleted task created by the user is
        added for the target and the list is refetched. */
    method CreateTask(target: Option<string>, userId: Option<string>, title: string, description: Option<string>,
                      date: string, time: TimeOfDay, newId: string, insertError: Option<string>,
                      today: string, tomorrow: string, refetchFailure: Option<string>) returns (r: Outcome)
      modifies this
      ensures !Truthy(target) ==> r == Thrown(NoTargetMessage)
      ensures Truthy(target) && !Truthy(userId) ==> r == Thrown(NotSignedInMessage)
      ensures Truthy(target) && Truthy(userId) && insertError.Some? ==> r == Thrown(insertError.value)
      ensures !Truthy(target) || !Truthy(userId) || insertError.Some? ==>
        table == old(table) && tasks == old(tasks) && loading == old(loading) && error == old(error)
      ensures Truthy(target) && Truthy(userId) && insertError.None? ==>
        var task := Task(newId, target.value, userId, title, description, date, Some(time), false, None);
        && r == Done && !loading
        && table == old(table) + [task]
        && (refetchFailure.None? ==> tasks == QueryTasks(table, target.value, today, tomorrow) && error.None?)
        && ((date == today || date == tomorrow) && refetchFailure.None? ==> task in tasks)
        && (refetchFailure.Some? ==> tasks == old(tasks) && error == refetchFailure)
    {
      if !Truthy(target) {
        return Thrown(NoTargetMessage);
      }
      if !Truthy(userId) {
        return Thrown(NotSignedInMessage);
      }
      if insertError.Some? {
        return Thrown(insertError.value);
      }
      var task := Task(newId, target.value, userId, title, description, date, Some(time), false, None);
      table := table + [task];
      assert task in table;
      Fetch(target, today, tomorrow, refetchFailure);
      r := Done;
    }

    /** `toggleTask`: the write sets the opposite of the given status and its
        timestamp; only when it succeeds does the list change, and then only
        the tasks with the id. */
    method ToggleTask(id: string, currentStatus: bool, now: string, updateError: Option<string>) returns (r: Outcome)
      modifies this
      ensures updateError.Some? ==> r == Thrown(updateError.value) && table == old(table) && tasks == old(tasks)
      ensures updateError.None? ==>
        && r == Done
        && table == SetCompletion(old(table), id, !currentStatus, CompletionStamp(!currentStatus, now))
        && tasks == SetCompletion(old(tasks), id, !currentStatus, CompletionStamp(!currentStatus, now))
      ensures loading == old(loading) && error == old(error)
    {
      var completed := !currentStatus;
      var completedAt := CompletionStamp(completed, now);
      if updateError.Some? {
        return Thrown(updateError.value);
      }
      table := SetCompletion(table, id, completed, completedAt);
      tasks := SetCompletion(tasks, id, completed, completedAt);
      r := Done;
    }

    /** `deleteTask`: a failed delete throws; otherwise every task with the id
        goes and the list is refetched. */
    method DeleteTask(target: Option<string>, id: string, deleteError: Option<string>,
                      today: string, tomorrow: string, refetchFailure: Option<string>) returns (r: Outcome)
      modifies this
      ensures deleteError.Some? ==>
        && r == Thrown(deleteError.value)
        && table == old(table) && tasks == old(tasks) && loading == old(loading) && error == old(error)
      ensures deleteError.None? ==>
        && r == Done && !loading
        && table == Filter(old(table), (t: Task) => t.id != id)
        && (!Truthy(target) ==> tasks == [] && error == old(error))
        && (Truthy(target) && refetchFailure.None? ==>
              tasks == QueryTasks(table, target.value, today, tomorrow) && error.None?)
        && (Truthy(target) && refetchFailure.Some? ==> tasks == old(tasks) && error == refetchFailure)
        && (refetchFailure.None? || !Truthy(target) ==> forall t :: t in tasks ==> t.id != id)
    {
      if deleteError.Some? {
        return Thrown(deleteError.value);
      }
      table := Filter(table, (t: Task) => t.id != id);
      Fetch(target, today, tomorrow, refetchFailure);
      r := Done;
    }
  }
}
