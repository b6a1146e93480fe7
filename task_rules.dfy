/**
 * The task rule validator (ValidateTaskRules): the entry conditions of the
 * DONE status (a responsible user) and of the DOING status (at most five
 * DOING tasks per user), checked against a snapshot of the stored tasks.
 */
module TaskRules {
  import opened Domain
  import opened Store

  /** The stored record named by the task's own id is a DOING task, so the
    * validator takes it off the user's count. Only the stored status is
    * looked at, not the stored user. */
  predicate SelfDiscounted(tasks: map<nat, Task>, t: Task)
  {
    t.id.Some? && t.id.value in tasks && tasks[t.id.value].status == DOING
  }

  /**
   * validateTaskRules: Pass, or the TaskValidation error of the first rule
   * the task breaks. Reads the store only for a DOING task with a user.
   */
  function ValidateTaskRules(tasks: map<nat, Task>, t: Task): (r: Outcome)
    ensures t.status == DONE && t.userId.None? ==> r == Fail(TaskValidation(DoneNeedsUserMessage))
    ensures t.status == TODO ==> r == Pass
    ensures t.status == DONE && t.userId.Some? ==> r == Pass
    ensures t.status == DOING && t.userId.None? ==> r == Pass
    ensures t.status == DOING && t.userId.Some? ==>
              && (r.Fail? ==> r == Fail(TaskValidation(DoingLimitMessage)))
              && (r.Fail? <==> CountDoing(tasks, t.userId.value)
                               >= DoingLimit + (if SelfDiscounted(tasks, t) then 1 else 0))
  {
    if t.status == DONE && t.userId.None? then
      Fail(TaskValidation(DoneNeedsUserMessage))
    else if t.status == DOING && t.userId.Some? then
      var doingCount: int := CountDoing(tasks, t.userId.value);
      var counted := if SelfDiscounted(tasks, t) then doingCount - 1 else doingCount;
      if counted >= DoingLimit then Fail(TaskValidation(DoingLimitMessage)) else Pass
    else
      Pass
  }

  /** The other stored DOING tasks of user u: all of them but the one named by t's id. */
  function OtherDoingKeys(tasks: map<nat, Task>, t: Task, u: nat): set<nat>
  {
    if t.id.Some? then DoingKeys(tasks, u) - {t.id.value} else DoingKeys(tasks, u)
  }

  /**
   * What the validator means: a DOING task of u passes exactly when u has
   * fewer than five OTHER DOING tasks, provided the record stored under the
   * task's id is not a DOING task of a different user.
   */
  lemma DoingPassesIffFewerThanFiveOthers(tasks: map<nat, Task>, t: Task, u: nat)
    requires DoingFor(t, u)
    requires !(t.id.Some? && t.id.value in tasks && tasks[t.id.value].status == DOING
               && tasks[t.id.value].userId != Some(u))
    ensures ValidateTaskRules(tasks, t) == Pass <==> |OtherDoingKeys(tasks, t, u)| < DoingLimit
  {
    var all := DoingKeys(tasks, u);
    if t.id.Some? {
      var j := t.id.value;
      if j in all {
        assert SelfDiscounted(tasks, t);
        assert all == (all - {j}) + {j};
      } else {
        assert all - {j} == all;
        assert !SelfDiscounted(tasks, t);
      }
    }
  }

  /** Rules other than the DOING cap never depend on the store. */
  lemma RulesIgnoreStoreUnlessDoing(tasks1: map<nat, Task>, tasks2: map<nat, Task>, t: Task)
    requires !(t.status == DOING && t.userId.Some?)
    ensures ValidateTaskRules(tasks1, t) == ValidateTaskRules(tasks2, t)
  {
  }

  /**
   * The cap is kept by the write that follows a passing validation, as long
   * as the write goes to the record the task's id names (or the task has no
   * id) and that record is not a DOING task of a different user. The written
   * record w is arbitrary: only its status and user count.
   */
  lemma DoingCapPreserved(tasks: map<nat, Task>, t: Task, u: nat, k: nat, w: Task)
    requires DoingFor(t, u)
    requires ValidateTaskRules(tasks, t) == Pass
    requires t.id.None? || t.id == Some(k)
    requires !(t.id == Some(k) && k in tasks && tasks[k].status == DOING && tasks[k].userId != Some(u))
    ensures CountDoing(tasks[k := w], u) <= DoingLimit
  {
    CountDoingAfterWrite(tasks, k, w, u);
  }

  /**
   * Without that proviso the cap breaks: a user with five DOING tasks can
   * take over a DOING task of another user, because the validator discounts
   * the stored record by its status alone.
   */
  lemma ReassignedDoingTaskExceedsCap(tasks: map<nat, Task>, t: Task, u: nat)
    requires DoingFor(t, u) && t.id.Some? && t.id.value in tasks
    requires tasks[t.id.value].status == DOING && tasks[t.id.value].userId != Some(u)
    requires CountDoing(tasks, u) == DoingLimit
    ensures ValidateTaskRules(tasks, t) == Pass
    ensures CountDoing(tasks[t.id.value := t], u) == DoingLimit + 1
  {
    CountDoingAfterWrite(tasks, t.id.value, t, u);
  }

  /**
   * Nor does the discount help when the payload's id names a different
   * record than the one written, as in an update whose path id differs from
   * the payload's id: a DOING task of u elsewhere lifts the count by one for
   * the check, and the write turns the stored record k, not a DOING task of
   * u, into a sixth one.
   */
  lemma DiscountOnOtherRecordExceedsCap(tasks: map<nat, Task>, t: Task, u: nat, k: nat, w: Task)
    requires DoingFor(t, u) && t.id.Some? && t.id.value != k
    requires t.id.value in tasks && DoingFor(tasks[t.id.value], u)
    requires k in tasks && !DoingFor(tasks[k], u) && DoingFor(w, u)
    requires CountDoing(tasks, u) == DoingLimit
    ensures ValidateTaskRules(tasks, t) == Pass
    ensures CountDoing(tasks[k := w], u) == DoingLimit + 1
  {
    CountDoingAfterWrite(tasks, k, w, u);
  }

  /**
   * The other way round: a payload without id gets no discount, so a user
   * with five DOING tasks cannot save one of them again as DOING, although
   * the write would leave the count at five.
   */
  lemma PayloadWithoutIdCountsItself(tasks: map<nat, Task>, t: Task, u: nat, k: nat, w: Task)
    requires DoingFor(t, u) && t.id.None?
    requires k in tasks && DoingFor(tasks[k], u) && DoingFor(w, u)
    requires CountDoing(tasks, u) == DoingLimit
    ensures ValidateTaskRules(tasks, t).Fail?
    ensures CountDoing(tasks[k := w], u) == DoingLimit
  {
    CountDoingAfterWrite(tasks, k, w, u);
  }
}
