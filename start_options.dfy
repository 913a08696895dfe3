/** The functional-options builder for Temporal's `client.StartWorkflowOptions`.
    Each setter makes an `Option` that writes one field of the options
    record; `NewOptions` starts from a record holding only the task queue
    and applies the options in order. */
module StartOptions {
  import Temporal

  /** The fields of `client.StartWorkflowOptions` that some option writes.
      Every other field of the Go struct keeps its zero value. */
  datatype StartWorkflowOptions = StartWorkflowOptions(
    id: string,
    taskQueue: string,
    workflowExecutionTimeout: Temporal.Duration,
    workflowRunTimeout: Temporal.Duration,
    workflowTaskTimeout: Temporal.Duration,
    workflowIdReusePolicy: Temporal.WorkflowIdReusePolicy,
    workflowIdConflictPolicy: Temporal.WorkflowIdConflictPolicy,
    workflowExecutionErrorWhenAlreadyStarted: bool,
    retryPolicy: Temporal.RetryPolicy,
    cronSchedule: string,
    memo: Temporal.StringMap,
    searchAttributes: Temporal.StringMap,
    typedSearchAttributes: Temporal.TypedSearchAttributes,
    enableEagerStart: bool,
    startDelay: Temporal.Duration,
    staticSummary: string,
    staticDetails: string,
    versioningOverride: Temporal.VersioningOverride,
    priority: Temporal.Priority)

  /** An option, as made by one of the nineteen setter constructors: the
      setter's name and the argument its closure captures. */
  datatype Option =
    | ID(workflowId: string)
    | TaskQueue(queue: string)
    | WorkflowExecutionTimeout(executionTimeout: Temporal.Duration)
    | WorkflowRunTimeout(runTimeout: Temporal.Duration)
    | WorkflowTaskTimeout(taskTimeout: Temporal.Duration)
    | WorkflowIDReusePolicy(reusePolicy: Temporal.WorkflowIdReusePolicy)
    | WorkflowIDConflictPolicy(conflictPolicy: Temporal.WorkflowIdConflictPolicy)
    | WorkflowExecutionErrorWhenAlreadyStarted(errorWhenStarted: bool)
    | RetryPolicy(retry: Temporal.RetryPolicy)
    | CronSchedule(schedule: string)
    | Memo(memoMap: Temporal.StringMap)
    | SearchAttributes(attributes: Temporal.StringMap)
    | TypedSearchAttributes(typedAttributes: Temporal.TypedSearchAttributes)
    | EnableEagerStart(eager: bool)
    | StartDelay(delay: Temporal.Duration)
    | StaticSummary(summary: string)
    | StaticDetails(details: string)
    | VersioningOverride(override: Temporal.VersioningOverride)
    | Priority(level: Temporal.Priority)

  /** Names of the record's fields, so that laws can quantify over them. */
  datatype Field =
    | IdField | TaskQueueField
    | ExecutionTimeoutField | RunTimeoutField | TaskTimeoutField
    | ReusePolicyField | ConflictPolicyField | ErrorWhenStartedField
    | RetryPolicyField | CronScheduleField | MemoField | SearchAttributesField
    | TypedSearchAttributesField | EagerStartField | StartDelayField
    | StaticSummaryField | StaticDetailsField | VersioningOverrideField
    | PriorityField

  /** The content of one field, whatever its Go type. */
  datatype FieldValue =
    | Str(s: string)
    | Dur(d: Temporal.Duration)
    | Enum(code: int)
    | Flag(b: bool)
    | Handle(h: Temporal.Foreign)
    | Dict(m: Temporal.StringMap)

  /** Reads field `f` of record `r`. */
  function Get(r: StartWorkflowOptions, f: Field): FieldValue
  {
    match f
    case IdField => Str(r.id)
    case TaskQueueField => Str(r.taskQueue)
    case ExecutionTimeoutField => Dur(r.workflowExecutionTimeout)
    case RunTimeoutField => Dur(r.workflowRunTimeout)
    case TaskTimeoutField => Dur(r.workflowTaskTimeout)
    case ReusePolicyField => Enum(r.workflowIdReusePolicy)
    case ConflictPolicyField => Enum(r.workflowIdConflictPolicy)
    case ErrorWhenStartedField => Flag(r.workflowExecutionErrorWhenAlreadyStarted)
    case RetryPolicyField => Handle(r.retryPolicy)
    case CronScheduleField => Str(r.cronSchedule)
    case MemoField => Dict(r.memo)
    case SearchAttributesField => Dict(r.searchAttributes)
    case TypedSearchAttributesField => Handle(r.typedSearchAttributes)
    case EagerStartField => Flag(r.enableEagerStart)
    case StartDelayField => Dur(r.startDelay)
    case StaticSummaryField => Str(r.staticSummary)
    case StaticDetailsField => Str(r.staticDetails)
    case VersioningOverrideField => Handle(r.versioningOverride)
    case PriorityField => Handle(r.priority)
  }

  /** The Go zero value of each field's type. */
  function ZeroValue(f: Field): FieldValue
  {
    match f
    case IdField | TaskQueueField | CronScheduleField
       | StaticSummaryField | StaticDetailsField => Str("")
    case ExecutionTimeoutField | RunTimeoutField | TaskTimeoutField
       | StartDelayField => Dur(0)
    case ReusePolicyField | ConflictPolicyField => Enum(0)
    case ErrorWhenStartedField | EagerStartField => Flag(false)
    case RetryPolicyField | TypedSearchAttributesField
       | VersioningOverrideField | PriorityField => Handle(Temporal.Nil)
    case MemoField | SearchAttributesField => Dict(Temporal.NilMap)
  }

  /** The field a setter's closure assigns. */
  function Target(opt: Option): Field
  {
    match opt
    case ID(_) => IdField
    case TaskQueue(_) => TaskQueueField
    case WorkflowExecutionTimeout(_) => ExecutionTimeoutField
    case WorkflowRunTimeout(_) => RunTimeoutField
    case WorkflowTaskTimeout(_) => TaskTimeoutField
    case WorkflowIDReusePolicy(_) => ReusePolicyField
    case WorkflowIDConflictPolicy(_) => ConflictPolicyField
    case WorkflowExecutionErrorWhenAlreadyStarted(_) => ErrorWhenStartedField
    case RetryPolicy(_) => RetryPolicyField
    case CronSchedule(_) => CronScheduleField
    case Memo(_) => MemoField
    case SearchAttributes(_) => SearchAttributesField
    case TypedSearchAttributes(_) => TypedSearchAttributesField
    case EnableEagerStart(_) => EagerStartField
    case StartDelay(_) => StartDelayField
    case StaticSummary(_) => StaticSummaryField
    case StaticDetails(_) => StaticDetailsField
    case VersioningOverride(_) => VersioningOverrideField
    case Priority(_) => PriorityField
  }

  /** The argument a setter's closure captures, as a field value. */
  function Payload(opt: Option): FieldValue
  {
    match opt
    case ID(x) => Str(x)
    case TaskQueue(x) => Str(x)
    case WorkflowExecutionTimeout(x) => Dur(x)
    case WorkflowRunTimeout(x) => Dur(x)
    case WorkflowTaskTimeout(x) => Dur(x)
    case WorkflowIDReusePolicy(x) => Enum(x)
    case WorkflowIDConflictPolicy(x) => Enum(x)
    case WorkflowExecutionErrorWhenAlreadyStarted(x) => Flag(x)
    case RetryPolicy(x) => Handle(x)
    case CronSchedule(x) => Str(x)
    case Memo(x) => Dict(x)
    case SearchAttributes(x) => Dict(x)
    case TypedSearchAttributes(x) => Handle(x)
    case EnableEagerStart(x) => Flag(x)
    case StartDelay(x) => Dur(x)
    case StaticSummary(x) => Str(x)
    case StaticDetails(x) => Str(x)
    case VersioningOverride(x) => Handle(x)
    case Priority(x) => Handle(x)
  }

  // FieldwiseEqual, split into groups of fields so that each proof stays small.

  lemma FieldwiseEqualStrings(a: StartWorkflowOptions, b: StartWorkflowOptions)
    requires forall f :: Get(a, f) == Get(b, f)
    ensures a.id == b.id && a.taskQueue == b.taskQueue && a.cronSchedule == b.cronSchedule
    ensures a.staticSummary == b.staticSummary && a.staticDetails == b.staticDetails
  {
    assert Get(a, IdField) == Get(b, IdField);
    assert Get(a, TaskQueueField) == Get(b, TaskQueueField);
    assert Get(a, CronScheduleField) == Get(b, CronScheduleField);
    assert Get(a, StaticSummaryField) == Get(b, StaticSummaryField);
    assert Get(a, StaticDetailsField) == Get(b, StaticDetailsField);
  }

  lemma FieldwiseEqualScalars(a: StartWorkflowOptions, b: StartWorkflowOptions)
    requires forall f :: Get(a, f) == Get(b, f)
    ensures a.workflowExecutionTimeout == b.workflowExecutionTimeout
    ensures a.workflowRunTimeout == b.workflowRunTimeout
    ensures a.workflowTaskTimeout == b.workflowTaskTimeout
    ensures a.startDelay == b.startDelay
    ensures a.workflowIdReusePolicy == b.workflowIdReusePolicy
    ensures a.workflowIdConflictPolicy == b.workflowIdConflictPolicy
    ensures a.workflowExecutionErrorWhenAlreadyStarted == b.workflowExecutionErrorWhenAlreadyStarted
    ensures a.enableEagerStart == b.enableEagerStart
  {
    assert Get(a, ExecutionTimeoutField) == Get(b, ExecutionTimeoutField);
    assert Get(a, RunTimeoutField) == Get(b, RunTimeoutField);
    assert Get(a, TaskTimeoutField) == Get(b, TaskTimeoutField);
    assert Get(a, StartDelayField) == Get(b, StartDelayField);
    assert Get(a, ReusePolicyField) == Get(b, ReusePolicyField);
    assert Get(a, ConflictPolicyField) == Get(b, ConflictPolicyField);
    assert Get(a, ErrorWhenStartedField) == Get(b, ErrorWhenStartedField);
    assert Get(a, EagerStartField) == Get(b, EagerStartField);
  }

  lemma FieldwiseEqualReferences(a: StartWorkflowOptions, b: StartWorkflowOptions)
    requires forall f :: Get(a, f) == Get(b, f)
    ensures a.retryPolicy == b.retryPolicy && a.memo == b.memo
    ensures a.searchAttributes == b.searchAttributes
    ensures a.typedSearchAttributes == b.typedSearchAttributes
    ensures a.versioningOverride == b.versioningOverride && a.priority == b.priority
  {
    assert Get(a, RetryPolicyField) == Get(b, RetryPolicyField);
    assert Get(a, MemoField) == Get(b, MemoField);
    assert Get(a, SearchAttributesField) == Get(b, SearchAttributesField);
    assert Get(a, TypedSearchAttributesField) == Get(b, TypedSearchAttributesField);
    assert Get(a, VersioningOverrideField) == Get(b, VersioningOverrideField);
    assert Get(a, PriorityField) == Get(b, PriorityField);
  }

  /** Two records are equal if they agree on every field. */
  lemma FieldwiseEqual(a: StartWorkflowOptions, b: StartWorkflowOptions)
    requires forall f :: Get(a, f) == Get(b, f)
    ensures a == b
  {
    FieldwiseEqualStrings(a, b);
    FieldwiseEqualScalars(a, b);
    FieldwiseEqualReferences(a, b);
  }

  /** The record the struct literal `{TaskQueue: taskQueue}` denotes. */
  function Initial(taskQueue: string): (r: StartWorkflowOptions)
    ensures forall f :: Get(r, f) == (if f == TaskQueueField then Str(taskQueue) else ZeroValue(f))
  {
    StartWorkflowOptions(
      id := "",
      taskQueue := taskQueue,
      workflowExecutionTimeout := 0,
      workflowRunTimeout := 0,
      workflowTaskTimeout := 0,
      workflowIdReusePolicy := 0,
      workflowIdConflictPolicy := 0,
      workflowExecutionErrorWhenAlreadyStarted := false,
      retryPolicy := Temporal.Nil,
      cronSchedule := "",
      memo := Temporal.NilMap,
      searchAttributes := Temporal.NilMap,
      typedSearchAttributes := Temporal.Nil,
      enableEagerStart := false,
      startDelay := 0,
      staticSummary := "",
      staticDetails := "",
      versioningOverride := Temporal.Nil,
      priority := Temporal.Nil)
  }

  /** What running the option's closure on a record gives: the record with
      the option's own field set to its argument and nothing else changed. */
  function Set(r: StartWorkflowOptions, opt: Option): (s: StartWorkflowOptions)
    ensures Get(s, Target(opt)) == Payload(opt)
  {
    match opt
    case ID(x) => r.(id := x)
    case TaskQueue(x) => r.(taskQueue := x)
    case WorkflowExecutionTimeout(x) => r.(workflowExecutionTimeout := x)
    case WorkflowRunTimeout(x) => r.(workflowRunTimeout := x)
    case WorkflowTaskTimeout(x) => r.(workflowTaskTimeout := x)
    case WorkflowIDReusePolicy(x) => r.(workflowIdReusePolicy := x)
    case WorkflowIDConflictPolicy(x) => r.(workflowIdConflictPolicy := x)
    case WorkflowExecutionErrorWhenAlreadyStarted(x) => r.(workflowExecutionErrorWhenAlreadyStarted := x)
    case RetryPolicy(x) => r.(retryPolicy := x)
    case CronSchedule(x) => r.(cronSchedule := x)
    case Memo(x) => r.(memo := x)
    case SearchAttributes(x) => r.(searchAttributes := x)
    case TypedSearchAttributes(x) => r.(typedSearchAttributes := x)
    case EnableEagerStart(x) => r.(enableEagerStart := x)
    case StartDelay(x) => r.(startDelay := x)
    case StaticSummary(x) => r.(staticSummary := x)
    case StaticDetails(x) => r.(staticDetails := x)
    case VersioningOverride(x) => r.(versioningOverride := x)
    case Priority(x) => r.(priority := x)
  }

  // GetSet, split by the kind of the option's argument: one proof over all
  // nineteen options and fields at once comes close to the resource limit.

  lemma GetSetString(r: StartWorkflowOptions, opt: Option, f: Field)
    requires Payload(opt).Str?
    ensures Get(Set(r, opt), f) == if f == Target(opt) then Payload(opt) else Get(r, f)
  {
  }

  lemma GetSetDuration(r: StartWorkflowOptions, opt: Option, f: Field)
    requires Payload(opt).Dur?
    ensures Get(Set(r, opt), f) == if f == Target(opt) then Payload(opt) else Get(r, f)
  {
  }

  lemma GetSetEnum(r: StartWorkflowOptions, opt: Option, f: Field)
    requires Payload(opt).Enum?
    ensures Get(Set(r, opt), f) == if f == Target(opt) then Payload(opt) else Get(r, f)
  {
  }

  lemma GetSetFlag(r: StartWorkflowOptions, opt: Option, f: Field)
    requires Payload(opt).Flag?
    ensures Get(Set(r, opt), f) == if f == Target(opt) then Payload(opt) else Get(r, f)
  {
  }

  lemma GetSetHandle(r: StartWorkflowOptions, opt: Option, f: Field)
    requires Payload(opt).Handle?
    ensures Get(Set(r, opt), f) == if f == Target(opt) then Payload(opt) else Get(r, f)
  {
  }

  lemma GetSetMap(r: StartWorkflowOptions, opt: Option, f: Field)
    requires Payload(opt).Dict?
    ensures Get(Set(r, opt), f) == if f == Target(opt) then Payload(opt) else Get(r, f)
  {
  }

  /** Reading field `f` after applying `opt`: the option's argument if `f`
      is the option's own field, the old content otherwise. */
  lemma GetSet(r: StartWorkflowOptions, opt: Option, f: Field)
    ensures Get(Set(r, opt), f) == if f == Target(opt) then Payload(opt) else Get(r, f)
  {
    match Payload(opt)
    case Str(_) => GetSetString(r, opt, f);
    case Dur(_) => GetSetDuration(r, opt, f);
    case Enum(_) => GetSetEnum(r, opt, f);
    case Flag(_) => GetSetFlag(r, opt, f);
    case Handle(_) => GetSetHandle(r, opt, f);
    case Dict(_) => GetSetMap(r, opt, f);
  }

  /** An option writes its argument into its own field and leaves every
      other field as it was. */
  lemma SetWritesOnlyTarget(r: StartWorkflowOptions, opt: Option)
    ensures Get(Set(r, opt), Target(opt)) == Payload(opt)
    ensures forall f :: f != Target(opt) ==> Get(Set(r, opt), f) == Get(r, f)
  {
    GetSet(r, opt, Target(opt));
    forall f | f != Target(opt)
      ensures Get(Set(r, opt), f) == Get(r, f)
    {
      GetSet(r, opt, f);
    }
  }

  /** Of two options on the same field, the later one wins. */
  lemma LastWriteWins(r: StartWorkflowOptions, a: Option, b: Option)
    requires Target(a) == Target(b)
    ensures Set(Set(r, a), b) == Set(r, b)
  {
    forall f
      ensures Get(Set(Set(r, a), b), f) == Get(Set(r, b), f)
    {
      GetSet(Set(r, a), b, f);
      GetSet(r, a, f);
      GetSet(r, b, f);
    }
    FieldwiseEqual(Set(Set(r, a), b), Set(r, b));
  }

  /** Applying the same option twice is the same as applying it once. */
  lemma SetIdempotent(r: StartWorkflowOptions, opt: Option)
    ensures Set(Set(r, opt), opt) == Set(r, opt)
  {
    LastWriteWins(r, opt, opt);
  }

  /** Field `f` read after applying `a` then `b` equals field `f` read
      after applying `b` then `a`, when `a` and `b` write different fields. */
  lemma SetsCommuteAt(r: StartWorkflowOptions, a: Option, b: Option, f: Field)
    requires Target(a) != Target(b)
    ensures Get(Set(Set(r, a), b), f) == Get(Set(Set(r, b), a), f)
  {
    GetSet(Set(r, a), b, f);
    GetSet(r, a, f);
    GetSet(Set(r, b), a, f);
    GetSet(r, b, f);
  }

  /** Options on two different fields can be applied in either order. */
  lemma SetsCommute(r: StartWorkflowOptions, a: Option, b: Option)
    requires Target(a) != Target(b)
    ensures Set(Set(r, a), b) == Set(Set(r, b), a)
  {
    forall f
      ensures Get(Set(Set(r, a), b), f) == Get(Set(Set(r, b), a), f)
    {
      SetsCommuteAt(r, a, b, f);
    }
    FieldwiseEqual(Set(Set(r, a), b), Set(Set(r, b), a));
  }

  /** Applying a list of options from left to right. */
  function Fold(r: StartWorkflowOptions, opts: seq<Option>): (s: StartWorkflowOptions)
    ensures opts == [] ==> s == r
    ensures opts != [] ==> Get(s, Target(opts[|opts| - 1])) == Payload(opts[|opts| - 1])
    decreases |opts|
  {
    if opts == [] then r else Fold(Set(r, opts[0]), opts[1..])
  }

  /** Applying `s1 + s2` is applying `s2` to the result of applying `s1`. */
  lemma {:induction false} FoldAppend(r: StartWorkflowOptions, s1: seq<Option>, s2: seq<Option>)
    ensures Fold(r, s1 + s2) == Fold(Fold(r, s1), s2)
    decreases |s1|
  {
    if s1 == [] {
      assert s1 + s2 == s2;
    } else {
      assert (s1 + s2)[1..] == s1[1..] + s2;
      FoldAppend(Set(r, s1[0]), s1[1..], s2);
    }
  }

  /** Applying one more option at the end is one more `Set`. */
  lemma FoldSnoc(r: StartWorkflowOptions, s: seq<Option>, opt: Option)
    ensures Fold(r, s + [opt]) == Set(Fold(r, s), opt)
  {
    FoldAppend(r, s, [opt]);
    assert [opt][1..] == [];
  }

  /** A field no option writes keeps its value through the fold. */
  lemma {:induction false} FoldUntouched(r: StartWorkflowOptions, opts: seq<Option>, f: Field)
    requires forall i :: 0 <= i < |opts| ==> Target(opts[i]) != f
    ensures Get(Fold(r, opts), f) == Get(r, f)
    decreases |opts|
  {
    if opts != [] {
      assert Target(opts[0]) != f;
      GetSet(r, opts[0], f);
      FoldUntouched(Set(r, opts[0]), opts[1..], f);
    }
  }

  /** A field holds the argument of the last option that writes it. */
  lemma FoldLastWriter(r: StartWorkflowOptions, opts: seq<Option>, f: Field, i: nat)
    requires i < |opts| && Target(opts[i]) == f
    requires forall j :: i < j < |opts| ==> Target(opts[j]) != f
    ensures Get(Fold(r, opts), f) == Payload(opts[i])
  {
    var before, after := opts[..i], opts[i + 1..];
    assert opts == (before + [opts[i]]) + after;
    FoldAppend(r, before + [opts[i]], after);
    FoldSnoc(r, before, opts[i]);
    var mid := Set(Fold(r, before), opts[i]);
    GetSet(Fold(r, before), opts[i], f);
    forall j | 0 <= j < |after|
      ensures Target(after[j]) != f
    {
      assert after[j] == opts[i + 1 + j];
    }
    FoldUntouched(mid, after, f);
  }

  /** The record `NewOptions(taskQueue, opts...)` returns. */
  function Build(taskQueue: string, opts: seq<Option>): (r: StartWorkflowOptions)
    ensures opts == [] ==> r.taskQueue == taskQueue
    ensures opts != [] ==> Get(r, Target(opts[|opts| - 1])) == Payload(opts[|opts| - 1])
  {
    Fold(Initial(taskQueue), opts)
  }

  /** With no options every field but the task queue is at its zero value. */
  lemma BuildWithoutOptions(taskQueue: string)
    ensures forall f :: Get(Build(taskQueue, []), f) == (if f == TaskQueueField then Str(taskQueue) else ZeroValue(f))
  {
  }

  /** The task queue argument is the result's task queue unless some
      `TaskQueue` option overrides it; then the last such option wins. */
  lemma BuildTaskQueue(taskQueue: string, opts: seq<Option>)
    ensures (forall i :: 0 <= i < |opts| ==> !opts[i].TaskQueue?) ==>
      Build(taskQueue, opts).taskQueue == taskQueue
    ensures forall i ::
      && 0 <= i < |opts| && opts[i].TaskQueue?
      && (forall j :: i < j < |opts| ==> !opts[j].TaskQueue?)
      ==> Build(taskQueue, opts).taskQueue == opts[i].queue
  {
    if forall i :: 0 <= i < |opts| ==> !opts[i].TaskQueue? {
      FoldUntouched(Initial(taskQueue), opts, TaskQueueField);
    }
    forall i | 0 <= i < |opts| && opts[i].TaskQueue? &&
      (forall j :: i < j < |opts| ==> !opts[j].TaskQueue?)
      ensures Build(taskQueue, opts).taskQueue == opts[i].queue
    {
      FoldLastWriter(Initial(taskQueue), opts, TaskQueueField, i);
    }
  }

  /** A fold over a concatenation is a fold continued from the first fold's result. */
  lemma BuildAppend(taskQueue: string, opts1: seq<Option>, opts2: seq<Option>)
    ensures Build(taskQueue, opts1 + opts2) == Fold(Build(taskQueue, opts1), opts2)
  {
    FoldAppend(Initial(taskQueue), opts1, opts2);
  }

  /** The addressable struct variable that an option's closure writes
      through its `*client.StartWorkflowOptions` pointer. */
  class OptionsStruct {
    var id: string
    var taskQueue: string
    var workflowExecutionTimeout: Temporal.Duration
    var workflowRunTimeout: Temporal.Duration
    var workflowTaskTimeout: Temporal.Duration
    var workflowIdReusePolicy: Temporal.WorkflowIdReusePolicy
    var workflowIdConflictPolicy: Temporal.WorkflowIdConflictPolicy
    var workflowExecutionErrorWhenAlreadyStarted: bool
    var retryPolicy: Temporal.RetryPolicy
    var cronSchedule: string
    var memo: Temporal.StringMap
    var searchAttributes: Temporal.StringMap
    var typedSearchAttributes: Temporal.TypedSearchAttributes
    var enableEagerStart: bool
    var startDelay: Temporal.Duration
    var staticSummary: string
    var staticDetails: string
    var versioningOverride: Temporal.VersioningOverride
    var priority: Temporal.Priority

    /** The struct's current value. */
    function Value(): StartWorkflowOptions
      reads this
    {
      StartWorkflowOptions(
        id, taskQueue, workflowExecutionTimeout, workflowRunTimeout,
        workflowTaskTimeout, workflowIdReusePolicy, workflowIdConflictPolicy,
        workflowExecutionErrorWhenAlreadyStarted, retryPolicy, cronSchedule,
        memo, searchAttributes, typedSearchAttributes, enableEagerStart,
        startDelay, staticSummary, staticDetails, versioningOverride, priority)
    }

    /** The composite literal `client.StartWorkflowOptions{TaskQueue: taskQueue}`. */
    constructor (taskQueue: string)
      ensures Value() == Initial(taskQueue)
    {
      id := "";
      this.taskQueue := taskQueue;
      workflowExecutionTimeout := 0;
      workflowRunTimeout := 0;
      workflowTaskTimeout := 0;
      workflowIdReusePolicy := 0;
      workflowIdConflictPolicy := 0;
      workflowExecutionErrorWhenAlreadyStarted := false;
      retryPolicy := Temporal.Nil;
      cronSchedule := "";
      memo := Temporal.NilMap;
      searchAttributes := Temporal.NilMap;
      typedSearchAttributes := Temporal.Nil;
      enableEagerStart := false;
      startDelay := 0;
      staticSummary := "";
      staticDetails := "";
      versioningOverride := Temporal.Nil;
      priority := Temporal.Nil;
    }

    // The closure of each setter: one field assignment.

    method SetID(workflowId: string)
      modifies this
      ensures Value() == Set(old(Value()), ID(workflowId))
    {
      id := workflowId;
    }

    method SetTaskQueue(queue: string)
      modifies this
      ensures Value() == Set(old(Value()), TaskQueue(queue))
    {
      taskQueue := queue;
    }

    method SetWorkflowExecutionTimeout(executionTimeout: Temporal.Duration)
      modifies this
      ensures Value() == Set(old(Value()), WorkflowExecutionTimeout(executionTimeout))
    {
      workflowExecutionTimeout := executionTimeout;
    }

    method SetWorkflowRunTimeout(runTimeout: Temporal.Duration)
      modifies this
      ensures Value() == Set(old(Value()), WorkflowRunTimeout(runTimeout))
    {
      workflowRunTimeout := runTimeout;
    }

    method SetWorkflowTaskTimeout(taskTimeout: Temporal.Duration)
      modifies this
      ensures Value() == Set(old(Value()), WorkflowTaskTimeout(taskTimeout))
    {
      workflowTaskTimeout := taskTimeout;
    }

    method SetWorkflowIDReusePolicy(reusePolicy: Temporal.WorkflowIdReusePolicy)
      modifies this
      ensures Value() == Set(old(Value()), WorkflowIDReusePolicy(reusePolicy))
    {
      workflowIdReusePolicy := reusePolicy;
    }

    method SetWorkflowIDConflictPolicy(conflictPolicy: Temporal.WorkflowIdConflictPolicy)
      modifies this
      ensures Value() == Set(old(Value()), WorkflowIDConflictPolicy(conflictPolicy))
    {
      workflowIdConflictPolicy := conflictPolicy;
    }

    method SetWorkflowExecutionErrorWhenAlreadyStarted(errorWhenStarted: bool)
      modifies this
      ensures Value() == Set(old(Value()), WorkflowExecutionErrorWhenAlreadyStarted(errorWhenStarted))
    {
      workflowExecutionErrorWhenAlreadyStarted := errorWhenStarted;
    }

    method SetRetryPolicy(retry: Temporal.RetryPolicy)
      modifies this
      ensures Value() == Set(old(Value()), RetryPolicy(retry))
    {
      retryPolicy := retry;
    }

    method SetCronSchedule(schedule: string)
      modifies this
      ensures Value() == Set(old(Value()), CronSchedule(schedule))
    {
      cronSchedule := schedule;
    }

    method SetMemo(memoMap: Temporal.StringMap)
      modifies this
      ensures Value() == Set(old(Value()), Memo(memoMap))
    {
      memo := memoMap;
    }

    method SetSearchAttributes(attributes: Temporal.StringMap)
      modifies this
      ensures Value() == Set(old(Value()), SearchAttributes(attributes))
    {
      searchAttributes := attributes;
    }

    method SetTypedSearchAttributes(typedAttributes: Temporal.TypedSearchAttributes)
      modifies this
      ensures Value() == Set(old(Value()), TypedSearchAttributes(typedAttributes))
    {
      typedSearchAttributes := typedAttributes;
    }

    method SetEnableEagerStart(eager: bool)
      modifies this
      ensures Value() == Set(old(Value()), EnableEagerStart(eager))
    {
      enableEagerStart := eager;
    }

    method SetStartDelay(delay: Temporal.Duration)
      modifies this
      ensures Value() == Set(old(Value()), StartDelay(delay))
    {
      startDelay := delay;
    }

    method SetStaticSummary(summary: string)
      modifies this
      ensures Value() == Set(old(Value()), StaticSummary(summary))
    {
      staticSummary := summary;
    }

    method SetStaticDetails(details: string)
      modifies this
      ensures Value() == Set(old(Value()), StaticDetails(details))
    {
      staticDetails := details;
    }

    method SetVersioningOverride(override: Temporal.VersioningOverride)
      modifies this
      ensures Value() == Set(old(Value()), VersioningOverride(override))
    {
      versioningOverride := override;
    }

    method SetPriority(level: Temporal.Priority)
      modifies this
      ensures Value() == Set(old(Value()), Priority(level))
    {
      priority := level;
    }

    /** Runs the option's closure on this struct. */
    method Apply(opt: Option)
      modifies this
      ensures Value() == Set(old(Value()), opt)
    {
      match opt
      case ID(x) => SetID(x);
      case TaskQueue(x) => SetTaskQueue(x);
      case WorkflowExecutionTimeout(x) => SetWorkflowExecutionTimeout(x);
      case WorkflowRunTimeout(x) => SetWorkflowRunTimeout(x);
      case WorkflowTaskTimeout(x) => SetWorkflowTaskTimeout(x);
      case WorkflowIDReusePolicy(x) => SetWorkflowIDReusePolicy(x);
      case WorkflowIDConflictPolicy(x) => SetWorkflowIDConflictPolicy(x);
      case WorkflowExecutionErrorWhenAlreadyStarted(x) => SetWorkflowExecutionErrorWhenAlreadyStarted(x);
      case RetryPolicy(x) => SetRetryPolicy(x);
      case CronSchedule(x) => SetCronSchedule(x);
      case Memo(x) => SetMemo(x);
      case SearchAttributes(x) => SetSearchAttributes(x);
      case TypedSearchAttributes(x) => SetTypedSearchAttributes(x);
      case EnableEagerStart(x) => SetEnableEagerStart(x);
      case StartDelay(x) => SetStartDelay(x);
      case StaticSummary(x) => SetStaticSummary(x);
      case StaticDetails(x) => SetStaticDetails(x);
      case VersioningOverride(x) => SetVersioningOverride(x);
      case Priority(x) => SetPriority(x);
    }
  }

  /** `NewOptions(taskQueue, opts...)`: builds the struct literal, applies
      every option to it in order, and returns the struct's value. */
  method NewOptions(taskQueue: string, opts: seq<Option>) returns (r: StartWorkflowOptions)
    ensures r == Build(taskQueue, opts)
  {
    var options := new OptionsStruct(taskQueue);
    for i := 0 to |opts|
      invariant options.Value() == Fold(Initial(taskQueue), opts[..i])
    {
      FoldSnoc(Initial(taskQueue), opts[..i], opts[i]);
      assert opts[..i + 1] == opts[..i] + [opts[i]];
      options.Apply(opts[i]);
    }
    assert opts[..|opts|] == opts;
    r := options.Value();
  }
}
