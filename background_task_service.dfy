/** GingerTemplate.Core.Services.BackgroundTaskService: a stack of running task
    names, pushed on start and popped on a matching end, and the disposable
    scope that ends its task once. */
module BackgroundTasks {
  import opened Base

  const MismatchError := Error(InvalidOperation, "Mismatched background task end call.")

  /** The stack after starting `taskName`; a missing stack is created.
      The top of the stack is the last element. */
  function Started(stack: Option<seq<string>>, taskName: string): (r: seq<string>)
    ensures |r| > 0 && r[|r| - 1] == taskName
    ensures r[..|r| - 1] == (if stack.None? then [] else stack.value)
  {
    (if stack.None? then [] else stack.value) + [taskName]
  }

  /** Whether ending `taskName` is accepted: the stack exists, is not empty,
      and has `taskName` on top. */
  predicate CanEnd(stack: Option<seq<string>>, taskName: Option<string>) {
    stack.Some? && |stack.value| > 0 && taskName == Some(stack.value[|stack.value| - 1])
  }

  /** The stack after an accepted end: the top is gone. */
  function Ended(stack: Option<seq<string>>, taskName: Option<string>): (r: seq<string>)
    requires CanEnd(stack, taskName)
    ensures r + [taskName.value] == stack.value
  {
    stack.value[..|stack.value| - 1]
  }

  /** Ending the tasks `names` innermost first, from the stack `s`; `None`
      when some end is refused. */
  function EndAll(s: seq<string>, names: seq<string>): Option<seq<string>>
    decreases |names|
  {
    if names == [] then Some(s)
    else
      var last := Some(names[|names| - 1]);
      if CanEnd(Some(s), last) then EndAll(Ended(Some(s), last), names[..|names| - 1]) else None
  }

  /** Properly nested scopes: starting tasks one after another and ending
      them in reverse order leaves the stack as it was. */
  lemma {:induction false} NestedTasksRestore(s: seq<string>, names: seq<string>)
    ensures EndAll(s + names, names) == Some(s)
    decreases |names|
  {
    if names == [] {
      assert s + names == s;
    } else {
      var init := names[..|names| - 1];
      var last := Some(names[|names| - 1]);
      assert s + names == (s + init) + [names[|names| - 1]];
      assert CanEnd(Some(s + names), last);
      assert Ended(Some(s + names), last) == s + init;
      NestedTasksRestore(s, init);
    }
  }

  /** Ending a task that is not on top is refused whatever the stack holds below. */
  lemma EndOutOfOrderRefused(s: seq<string>, a: string, b: string)
    requires a != b
    ensures !CanEnd(Some(Started(Some(Started(Some(s), a)), b)), Some(a))
  {
  }

  class BackgroundTaskService {
    /** The ambient task stack; `None` until the first start. */
    var stack: Option<seq<string>>

    constructor ()
      ensures stack == None
    {
      stack := None;
    }

    /** `StartBackgroundTask`: a null name is rejected before any change;
        otherwise the name is pushed and a fresh scope for it returned. */
    method StartBackgroundTask(taskName: Option<string>) returns (r: Result<BackgroundTaskScope>)
      modifies this
      ensures taskName.None? ==> r.Err? && r.error.kind == ArgumentNull && stack == old(stack)
      ensures taskName.Some? ==>
                && r.Ok? && fresh(r.value)
                && r.value.service == this && r.value.taskName == taskName.value && !r.value.disposed
                && stack == Some(Started(old(stack), taskName.value))
    {
      if taskName.None? {
        return Err(ArgumentError(ArgumentNull, "taskName", "Value cannot be null."));
      }
      var s := if stack.None? then [] else stack.value;
      stack := Some(s + [taskName.value]);
      var scope := new BackgroundTaskScope(this, taskName.value);
      return Ok(scope);
    }

    /** `EndBackgroundTask`: pops the top when it is `taskName`, and
        otherwise throws and leaves the stack as it was. */
    method EndBackgroundTask(taskName: Option<string>) returns (error: Option<Exception>)
      modifies this
      ensures error.None? <==> CanEnd(old(stack), taskName)
      ensures error.None? ==> stack == Some(Ended(old(stack), taskName))
      ensures error.Some? ==> error == Some(MismatchError) && stack == old(stack)
    {
      if stack.None? || |stack.value| == 0 || Some(stack.value[|stack.value| - 1]) != taskName {
        return Some(MismatchError);
      }
      stack := Some(stack.value[..|stack.value| - 1]);
      return None;
    }
  }

  /** The scope `StartBackgroundTask` returns; disposing it ends its task. */
  class BackgroundTaskScope {
    const service: BackgroundTaskService
    const taskName: string
    var disposed: bool

    constructor (service: BackgroundTaskService, taskName: string)
      ensures this.service == service && this.taskName == taskName && !disposed
    {
      this.service := service;
      this.taskName := taskName;
      disposed := false;
    }

    /** `Dispose`: ends the task the first time only. The flag is set after
        the end call, so a refused end leaves the scope undisposed. */
    method Dispose() returns (error: Option<Exception>)
      modifies this, service
      ensures old(disposed) ==> error.None? && disposed && service.stack == old(service.stack)
      ensures !old(disposed) ==>
                && (error.None? <==> CanEnd(old(service.stack), Some(taskName)))
                && disposed == error.None?
                && service.stack == (if error.None? then Some(Ended(old(service.stack), Some(taskName))) else old(service.stack))
    {
      error := None;
      if !disposed {
        error := service.EndBackgroundTask(Some(taskName));
        if error.Some? {
          return;
        }
        disposed := true;
      }
    }
  }
}
