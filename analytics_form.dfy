/**
 * The controller behind the data frame analytics job creation wizard
 * (the `useCreateAnalyticsForm` hook).
 *
 * The hook owns no logic of its own over the wizard state: every action is a
 * `dispatch` to a reducer, and the asynchronous actions call the ML HTTP API,
 * the data view cache and the job list refresh in a fixed order, branching on
 * what those collaborators return. The model therefore records everything the
 * hook does as one ordered log of effects: each dispatched action, each call
 * to a collaborator, each list refresh. Each asynchronous action is a method
 * that receives its collaborator's outcome as a parameter, and its effects are
 * specified by a pure trace function whose properties are proved here.
 */
module CreateAnalyticsForm {
  import opened Wrappers

  // ---------------------------------------------------------------------------
  // Data model
  // ---------------------------------------------------------------------------

  /** The form fields the hook does not read itself (they only pass through). */
  type FormFields(==)
  /** A partial form state, the payload of SET_FORM_STATE. */
  type FormPatch(==)
  /** The fields of a job configuration other than `model_memory_limit`. */
  type ConfigBody(==)
  /** An exception raised by a collaborator. */
  type RawError(==)
  /** The `error` member of one entry of `dataFrameAnalyticsJobsErrors`. */
  type ErrorBody(==)
  /** One entry of `dataFrameAnalyticsJobsCreated`. */
  type CreatedJob(==)

  /** The part of the reducer's form state that the hook reads. */
  datatype FormState = FormState(
    jobId: string,
    createDataView: bool,
    timeFieldName: Option<string>,
    fields: FormFields)

  /** A data frame analytics job configuration. */
  datatype JobConfig = JobConfig(modelMemoryLimit: Option<string>, body: ConfigBody)

  /** The translated message texts, as opaque tokens (with their interpolated values). */
  datatype MessageText =
    | CreateAcknowledged(jobId: string)    // "Request to create data frame analytics {jobId} acknowledged."
    | CreateFailed                         // "An error occurred creating the data frame analytics job:"
    | DataViewNamesFailed                  // "An error occurred getting the existing data view names:"
    | StartAcknowledged(jobId: string)     // "Request to start data frame analytics {jobId} acknowledged."
    | StartFailed                          // "An error occurred starting the data frame analytics job:"

  /** A request message: an optional error text and a message. */
  datatype FormMessage = FormMessage(error: Option<string>, message: MessageText)

  /** One entry of the data view title map: `{label, value}`. */
  datatype DataViewOption = DataViewOption(labelText: string, value: string)

  type DataViewsMap = map<string, DataViewOption>

  /** A cached data view saved object; `title` is `attributes.title`, absent when either is. */
  datatype SavedObject = SavedObject(id: Option<string>, title: Option<string>)

  /** The actions the hook dispatches to the reducer. */
  datatype Action =
    | AddRequestMessage(requestMessage: FormMessage)
    | CloseModal
    | ResetAdvancedEditorMessages
    | SetAdvancedEditorRawString(advancedEditorRawString: string)
    | SetDataViewTitles(dataViewsMap: DataViewsMap)
    | SetIsJobCreated(isJobCreated: bool)
    | SetIsJobStarted(isJobStarted: bool)
    | ResetRequestMessages
    | ResetForm
    | SetJobConfig(config: JobConfig)
    | SetFormState(patch: FormPatch)
    | SwitchToAdvancedEditor
    | SwitchToForm
    | SetEstimatedModelMemoryLimit(value: string)
    | SetJobClone(cloneJob: JobConfig)

  /** The arguments of `createDataFrameAnalytics`. */
  datatype CreateRequest = CreateRequest(
    jobId: string,
    config: JobConfig,
    createDataView: bool,
    timeFieldName: Option<string>)

  /** One thing the hook does, in the order it does it. */
  datatype Effect =
    | Dispatched(action: Action)
    | RequestCreate(request: CreateRequest)
    | RequestStart(jobId: string)
    | ClearDataViewCache
    | GetDataViewCache
    | Refresh

  /** The response of `startDataFrameAnalytics`; `acknowledged` may be missing. */
  datatype StartResponse = StartResponse(acknowledged: Option<bool>)

  /**
   * What ends up in a `catch` block: a raised exception, or the `Error` built
   * from an unacknowledged start. That `Error`'s message is the response object
   * turned into a string, which is the same for every response, so the fault
   * carries no payload.
   */
  datatype Fault = Raised(error: RawError) | NotAcknowledged

  /**
   * How an awaited collaborator call settled. Only `startAnalyticsJob` builds a
   * `NotAcknowledged` fault; the other calls reject with `Raised` faults only,
   * although the type does not rule the other kind out.
   */
  datatype Outcome<+T> = Resolved(value: T) | Rejected(fault: Fault)

  datatype JobError = JobError(error: ErrorBody)

  /** The response of `createDataFrameAnalytics`. */
  datatype CreationResponse = CreationResponse(created: seq<CreatedJob>, errors: seq<JobError>)

  /**
   * The imported helpers the hook calls, given from outside: their code is
   * not part of this model, so nothing is assumed about them.
   */
  datatype Helpers = Helpers(
    extractErrorMessage: Fault -> string,
    errorPropertiesMessage: ErrorBody -> string,   // extractErrorProperties(error).message
    jobConfigFromFormState: FormState -> JobConfig,
    formStateFromJobConfig: JobConfig -> FormPatch,
    extractCloningConfig: JobConfig -> JobConfig,
    isAdvancedConfig: JobConfig -> bool)

  /** The effects of one asynchronous action and the value it resolves to. */
  datatype Run = Run(effects: seq<Effect>, result: bool)

  // ---------------------------------------------------------------------------
  // Counting refreshes
  // ---------------------------------------------------------------------------

  /** How many list refreshes a log holds. */
  function RefreshCount(effects: seq<Effect>): nat {
    if effects == [] then 0
    else RefreshCount(effects[..|effects| - 1]) + (if effects[|effects| - 1] == Refresh then 1 else 0)
  }

  lemma {:induction false} RefreshCountAppend(a: seq<Effect>, b: seq<Effect>)
    ensures RefreshCount(a + b) == RefreshCount(a) + RefreshCount(b)
    decreases |b|
  {
    if b == [] {
      assert a + b == a;
    } else {
      var b' := b[..|b| - 1];
      assert (a + b)[..|a + b| - 1] == a + b';
      RefreshCountAppend(a, b');
    }
  }

  /** A log counts no refresh exactly when it holds none. */
  lemma {:induction false} RefreshCountZero(effects: seq<Effect>)
    ensures RefreshCount(effects) == 0 <==> Refresh !in effects
    decreases |effects|
  {
    if effects != [] {
      var front := effects[..|effects| - 1];
      RefreshCountZero(front);
      assert effects == front + [effects[|effects| - 1]];
    }
  }

  /** No effect in the log dispatches the given kind of action. */
  predicate NoDispatchOf(effects: seq<Effect>, kind: Action -> bool) {
    forall e :: e in effects && e.Dispatched? ==> !kind(e.action)
  }

  predicate IsSetIsJobCreated(a: Action) { a.SetIsJobCreated? }
  predicate IsSetIsJobStarted(a: Action) { a.SetIsJobStarted? }
  predicate IsSetDataViewTitles(a: Action) { a.SetDataViewTitles? }
  predicate IsSetEstimatedModelMemoryLimit(a: Action) { a.SetEstimatedModelMemoryLimit? }
  predicate IsSwitchToAdvancedEditor(a: Action) { a.SwitchToAdvancedEditor? }

  // ---------------------------------------------------------------------------
  // createAnalyticsJob
  // ---------------------------------------------------------------------------

  /** The configuration submitted: the raw editor config in advanced mode, else the one derived from the form. */
  function SubmittedConfig(form: FormState, jobConfig: JobConfig, isAdvancedEditorEnabled: bool, h: Helpers): JobConfig {
    if isAdvancedEditorEnabled then jobConfig else h.jobConfigFromFormState(form)
  }

  function CreateAcknowledgement(jobId: string): Effect {
    Dispatched(AddRequestMessage(FormMessage(None, CreateAcknowledged(jobId))))
  }

  /** The creation error message, with the given error text. */
  function CreateFailure(text: string): Effect {
    Dispatched(AddRequestMessage(FormMessage(Some(text), CreateFailed)))
  }

  /** What the `try`/`catch` of `createAnalyticsJob` does and resolves to, once the creation call settles. */
  function CreationSettledRun(jobId: string, h: Helpers, outcome: Outcome<CreationResponse>): (r: Run)
    ensures |r.effects| >= 1
    // success exactly when the job was created without errors
    ensures r.result <==> outcome.Resolved? && |outcome.value.created| > 0 && |outcome.value.errors| == 0
    // a settled call is acknowledged before its response is inspected
    ensures outcome.Resolved? ==> r.effects[0] == CreateAcknowledgement(jobId)
    ensures r.result ==> r.effects == [CreateAcknowledgement(jobId), Dispatched(SetIsJobCreated(true)), Refresh]
    // returned errors: one more message, built from the first error only
    ensures outcome.Resolved? && |outcome.value.errors| > 0 ==>
      r.effects == [CreateAcknowledgement(jobId), CreateFailure(h.errorPropertiesMessage(outcome.value.errors[0].error))]
    // neither created jobs nor errors: the acknowledgement alone
    ensures outcome.Resolved? && |outcome.value.created| == 0 && |outcome.value.errors| == 0 ==>
      r.effects == [CreateAcknowledgement(jobId)]
    // a raised fault: one error message
    ensures outcome.Rejected? ==> r.effects == [CreateFailure(h.extractErrorMessage(outcome.fault))]
  {
    match outcome
    case Rejected(fault) =>
      Run([CreateFailure(h.extractErrorMessage(fault))], false)
    case Resolved(response) =>
      var ack := CreateAcknowledgement(jobId);
      if |response.created| > 0 && |response.errors| == 0 then
        Run([ack, Dispatched(SetIsJobCreated(true)), Refresh], true)
      else if |response.errors| > 0 then
        Run([ack, CreateFailure(h.errorPropertiesMessage(response.errors[0].error))], false)
      else
        Run([ack], false)
  }

  /** What `createAnalyticsJob` does and resolves to, given how the creation call settles. */
  function CreateAnalyticsJobRun(
    form: FormState, jobConfig: JobConfig, isAdvancedEditorEnabled: bool, h: Helpers,
    outcome: Outcome<CreationResponse>): (r: Run)
    // request messages are reset first, then the job is submitted, then the outcome is handled
    ensures |r.effects| >= 3
    ensures r.effects[0] == Dispatched(ResetRequestMessages)
    ensures r.effects[1] == RequestCreate(CreateRequest(form.jobId,
      SubmittedConfig(form, jobConfig, isAdvancedEditorEnabled, h), form.createDataView, form.timeFieldName))
    ensures r.effects[2..] == CreationSettledRun(form.jobId, h, outcome).effects
    ensures r.result == CreationSettledRun(form.jobId, h, outcome).result
  {
    var head := [Dispatched(ResetRequestMessages),
                 RequestCreate(CreateRequest(form.jobId, SubmittedConfig(form, jobConfig, isAdvancedEditorEnabled, h),
                                             form.createDataView, form.timeFieldName))];
    var settled := CreationSettledRun(form.jobId, h, outcome);
    assert (head + settled.effects)[2..] == settled.effects;
    Run(head + settled.effects, settled.result)
  }

  /**
   * Only a successful creation dispatches SET_IS_JOB_CREATED (and then with
   * `true`), and only it refreshes the job list, exactly once.
   */
  lemma CreateAnalyticsJobFlags(
    form: FormState, jobConfig: JobConfig, isAdvancedEditorEnabled: bool, h: Helpers,
    outcome: Outcome<CreationResponse>)
    ensures var r := CreateAnalyticsJobRun(form, jobConfig, isAdvancedEditorEnabled, h, outcome);
      && (r.result <==> Dispatched(SetIsJobCreated(true)) in r.effects)
      && (!r.result ==> NoDispatchOf(r.effects, IsSetIsJobCreated))
      && (r.result <==> Refresh in r.effects)
      && RefreshCount(r.effects) == (if r.result then 1 else 0)
  {
    var r := CreateAnalyticsJobRun(form, jobConfig, isAdvancedEditorEnabled, h, outcome);
    var settled := CreationSettledRun(form.jobId, h, outcome);
    assert r.effects == r.effects[..2] + settled.effects;
    RefreshCountAppend(r.effects[..2], settled.effects);
    RefreshCountZero(r.effects[..2]);
    if r.result {
      assert settled.effects == [settled.effects[0]] + [settled.effects[1]] + [Refresh];
      RefreshCountAppend([settled.effects[0]] + [settled.effects[1]], [Refresh]);
      RefreshCountZero([settled.effects[0]] + [settled.effects[1]]);
    } else {
      RefreshCountZero(settled.effects);
    }
  }

  // ---------------------------------------------------------------------------
  // prepareFormValidation and initiateWizard
  // ---------------------------------------------------------------------------

  /** `obj?.attributes?.title` */
  function TitleOf(obj: Option<SavedObject>): Option<string> {
    if obj.Some? then obj.value.title else None
  }

  /** `obj?.id || ''` */
  function IdOf(obj: Option<SavedObject>): string {
    if obj.Some? && obj.value.id.Some? then obj.value.id.value else ""
  }

  /** One step of the `forEach`: record the object under its title, if it has one. */
  function AddDataView(m: DataViewsMap, obj: Option<SavedObject>): DataViewsMap {
    match TitleOf(obj)
    case None => m
    case Some(title) => m[title := DataViewOption(title, IdOf(obj))]
  }

  /** The map the `forEach` builds from the saved objects, in order. */
  function BuildDataViewsMap(objs: seq<Option<SavedObject>>): (m: DataViewsMap)
    ensures forall t :: t in m ==> m[t].labelText == t
    decreases |objs|
  {
    if objs == [] then map[]
    else AddDataView(BuildDataViewsMap(objs[..|objs| - 1]), objs[|objs| - 1])
  }

  /** The keys of the map are exactly the defined titles. */
  lemma {:induction false} DataViewsMapKeys(objs: seq<Option<SavedObject>>, t: string)
    ensures t in BuildDataViewsMap(objs) <==> exists i :: 0 <= i < |objs| && TitleOf(objs[i]) == Some(t)
    decreases |objs|
  {
    if objs != [] {
      var front := objs[..|objs| - 1];
      DataViewsMapKeys(front, t);
      if t in BuildDataViewsMap(front) {
        var i :| 0 <= i < |front| && TitleOf(front[i]) == Some(t);
        assert TitleOf(objs[i]) == Some(t);
      }
      if exists i :: 0 <= i < |objs| && TitleOf(objs[i]) == Some(t) {
        var i :| 0 <= i < |objs| && TitleOf(objs[i]) == Some(t);
        if i < |front| {
          assert TitleOf(front[i]) == Some(t);
        }
      }
    }
  }

  /** The entry under a title comes from the last object carrying that title. */
  lemma {:induction false} DataViewsMapLastWins(objs: seq<Option<SavedObject>>, i: nat, t: string)
    requires i < |objs| && TitleOf(objs[i]) == Some(t)
    requires forall j :: i < j < |objs| ==> TitleOf(objs[j]) != Some(t)
    ensures t in BuildDataViewsMap(objs)
    ensures BuildDataViewsMap(objs)[t] == DataViewOption(t, IdOf(objs[i]))
    decreases |objs|
  {
    if i < |objs| - 1 {
      var front := objs[..|objs| - 1];
      assert TitleOf(front[i]) == Some(t);
      DataViewsMapLastWins(front, i, t);
    }
  }

  /** The `forEach` loop of `prepareFormValidation`: fills the map object by object. */
  method CollectDataViewTitles(savedObjects: seq<Option<SavedObject>>) returns (dataViewsMap: DataViewsMap)
    ensures dataViewsMap == BuildDataViewsMap(savedObjects)
  {
    dataViewsMap := map[];
    var i := 0;
    while i < |savedObjects|
      invariant 0 <= i <= |savedObjects|
      invariant dataViewsMap == BuildDataViewsMap(savedObjects[..i])
    {
      var obj := savedObjects[i];
      var title := TitleOf(obj);
      if title.Some? {
        var id := IdOf(obj);
        dataViewsMap := dataViewsMap[title.value := DataViewOption(title.value, id)];
      }
      assert savedObjects[..i + 1][..i] == savedObjects[..i];
      i := i + 1;
    }
    assert savedObjects[..i] == savedObjects;
  }

  /** What `prepareFormValidation` does, given how `getCache()` settles (a null cache is an empty one). */
  function PrepareFormValidationEffects(h: Helpers, cache: Outcome<Option<seq<Option<SavedObject>>>>): (r: seq<Effect>)
    ensures |r| == 2 && r[0] == GetDataViewCache
    ensures cache.Resolved? ==>
      r[1] == Dispatched(SetDataViewTitles(BuildDataViewsMap(cache.value.GetOr([]))))
    ensures cache.Resolved? && cache.value.None? ==> r[1] == Dispatched(SetDataViewTitles(map[]))
    ensures cache.Rejected? ==>
      r[1] == Dispatched(AddRequestMessage(FormMessage(Some(h.extractErrorMessage(cache.fault)), DataViewNamesFailed)))
  {
    match cache
    case Resolved(savedObjects) =>
      [GetDataViewCache, Dispatched(SetDataViewTitles(BuildDataViewsMap(savedObjects.GetOr([]))))]
    case Rejected(fault) =>
      [GetDataViewCache,
       Dispatched(AddRequestMessage(FormMessage(Some(h.extractErrorMessage(fault)), DataViewNamesFailed)))]
  }

  /** The title map is replaced exactly when the cache was read without a fault; nothing is refreshed. */
  lemma PrepareFormValidationReplacesTitles(h: Helpers, cache: Outcome<Option<seq<Option<SavedObject>>>>)
    ensures cache.Rejected? <==> NoDispatchOf(PrepareFormValidationEffects(h, cache), IsSetDataViewTitles)
    ensures RefreshCount(PrepareFormValidationEffects(h, cache)) == 0
  {
    RefreshCountZero(PrepareFormValidationEffects(h, cache));
  }

  // ---------------------------------------------------------------------------
  // startAnalyticsJob
  // ---------------------------------------------------------------------------

  /** `response.acknowledged === true` for a call that did not throw. */
  predicate StartAcknowledgedBy(outcome: Outcome<StartResponse>) {
    outcome.Resolved? && outcome.value.acknowledged == Some(true)
  }

  /** The fault the `catch` block sees; an unacknowledged response is rethrown as an `Error`. */
  function StartFault(outcome: Outcome<StartResponse>): Fault
    requires !StartAcknowledgedBy(outcome)
  {
    if outcome.Rejected? then outcome.fault else NotAcknowledged
  }

  /** What `startAnalyticsJob` does, given how the start call settles. */
  function StartAnalyticsJobEffects(jobId: string, h: Helpers, outcome: Outcome<StartResponse>): (r: seq<Effect>)
    ensures |r| >= 2 && r[0] == RequestStart(jobId)
    ensures StartAcknowledgedBy(outcome) ==>
      r[1..] == [Dispatched(AddRequestMessage(FormMessage(None, StartAcknowledged(jobId)))),
                 Dispatched(SetIsJobStarted(true)), Refresh]
    ensures !StartAcknowledgedBy(outcome) ==>
      r[1..] == [Dispatched(AddRequestMessage(FormMessage(Some(h.extractErrorMessage(StartFault(outcome))), StartFailed)))]
    ensures outcome.Resolved? && outcome.value.acknowledged != Some(true) ==>
      r[1] == Dispatched(AddRequestMessage(FormMessage(Some(h.extractErrorMessage(NotAcknowledged)), StartFailed)))
  {
    if StartAcknowledgedBy(outcome) then
      [RequestStart(jobId),
       Dispatched(AddRequestMessage(FormMessage(None, StartAcknowledged(jobId)))),
       Dispatched(SetIsJobStarted(true)),
       Refresh]
    else
      [RequestStart(jobId),
       Dispatched(AddRequestMessage(FormMessage(Some(h.extractErrorMessage(StartFault(outcome))), StartFailed)))]
  }

  /** Only an acknowledged start dispatches SET_IS_JOB_STARTED, and only it refreshes the job list, once. */
  lemma StartAnalyticsJobFlags(jobId: string, h: Helpers, outcome: Outcome<StartResponse>)
    ensures var r := StartAnalyticsJobEffects(jobId, h, outcome);
      && (StartAcknowledgedBy(outcome) <==> Dispatched(SetIsJobStarted(true)) in r)
      && (!StartAcknowledgedBy(outcome) ==> NoDispatchOf(r, IsSetIsJobStarted))
      && (StartAcknowledgedBy(outcome) <==> Refresh in r)
      && RefreshCount(r) == (if StartAcknowledgedBy(outcome) then 1 else 0)
  {
    var r := StartAnalyticsJobEffects(jobId, h, outcome);
    if StartAcknowledgedBy(outcome) {
      assert r == r[..3] + [Refresh];
      RefreshCountAppend(r[..3], [Refresh]);
      RefreshCountZero(r[..3]);
    } else {
      RefreshCountZero(r);
    }
  }

  // ---------------------------------------------------------------------------
  // setJobClone
  // ---------------------------------------------------------------------------

  /** The actions `setJobClone` dispatches for a job to clone. */
  function SetJobCloneEffects(cloneJob: JobConfig, h: Helpers): (r: seq<Effect>)
    ensures |r| == 4
    ensures r[0] == Dispatched(ResetForm)
    ensures r[1] == Dispatched(SetFormState(h.formStateFromJobConfig(h.extractCloningConfig(cloneJob))))
    ensures r[3] == Dispatched(SetJobClone(cloneJob))
    // advanced configs switch the editor; the others set the cloned memory limit ('' when it is missing)
    ensures h.isAdvancedConfig(h.extractCloningConfig(cloneJob)) ==> r[2] == Dispatched(SwitchToAdvancedEditor)
    ensures !h.isAdvancedConfig(h.extractCloningConfig(cloneJob)) ==>
      r[2] == Dispatched(SetEstimatedModelMemoryLimit(h.extractCloningConfig(cloneJob).modelMemoryLimit.GetOr("")))
  {
    var config := h.extractCloningConfig(cloneJob);
    var middle := if h.isAdvancedConfig(config) then Dispatched(SwitchToAdvancedEditor)
                  else Dispatched(SetEstimatedModelMemoryLimit(config.modelMemoryLimit.GetOr("")));
    [Dispatched(ResetForm), Dispatched(SetFormState(h.formStateFromJobConfig(config))), middle,
     Dispatched(SetJobClone(cloneJob))]
  }

  /**
   * The editor switch and the memory limit exclude each other: an advanced
   * config switches the editor and sets no limit, any other sets the limit and
   * does not switch. Every effect is a dispatch, so nothing is refreshed.
   */
  lemma SetJobCloneBranches(cloneJob: JobConfig, h: Helpers)
    ensures var r := SetJobCloneEffects(cloneJob, h);
      var advanced := h.isAdvancedConfig(h.extractCloningConfig(cloneJob));
      && (advanced <==> Dispatched(SwitchToAdvancedEditor) in r)
      && (advanced ==> NoDispatchOf(r, IsSetEstimatedModelMemoryLimit))
      && (!advanced ==> NoDispatchOf(r, IsSwitchToAdvancedEditor))
      && (forall e :: e in r ==> e.Dispatched?)
      && RefreshCount(r) == 0
  {
    RefreshCountZero(SetJobCloneEffects(cloneJob, h));
  }

  // ---------------------------------------------------------------------------
  // The hook
  // ---------------------------------------------------------------------------

  /**
   * One rendering of the hook: the state snapshot its callbacks close over,
   * the helpers it calls, and the log of what its callbacks have done.
   */
  class AnalyticsFormController {
    const form: FormState
    const jobConfig: JobConfig
    const isAdvancedEditorEnabled: bool
    const helpers: Helpers

    var effects: seq<Effect>
    var refreshCount: nat

    /** The refresh counter agrees with the log. */
    ghost predicate Valid()
      reads this
    {
      refreshCount == RefreshCount(effects)
    }

    constructor (form: FormState, jobConfig: JobConfig, isAdvancedEditorEnabled: bool, helpers: Helpers)
      ensures Valid()
      ensures this.form == form && this.jobConfig == jobConfig
      ensures this.isAdvancedEditorEnabled == isAdvancedEditorEnabled && this.helpers == helpers
      ensures effects == [] && refreshCount == 0
    {
      this.form := form;
      this.jobConfig := jobConfig;
      this.isAdvancedEditorEnabled := isAdvancedEditorEnabled;
      this.helpers := helpers;
      effects := [];
      refreshCount := 0;
    }

    /** Record an effect that is not a refresh. */
    method Perform(e: Effect)
      requires Valid() && e != Refresh
      modifies this
      ensures Valid()
      ensures effects == old(effects) + [e] && refreshCount == old(refreshCount)
    {
      RefreshCountAppend(effects, [e]);
      RefreshCountZero([e]);
      assert RefreshCount([e]) == 0;
      assert RefreshCount(effects + [e]) == refreshCount;
      effects := effects + [e];
      assert Valid();
    }

    /** `dispatch` */
    method Dispatch(a: Action)
      requires Valid()
      modifies this
      ensures Valid()
      ensures effects == old(effects) + [Dispatched(a)] && refreshCount == old(refreshCount)
    {
      Perform(Dispatched(a));
    }

    /** `refresh` of the analytics job list */
    method RefreshList()
      requires Valid()
      modifies this
      ensures Valid()
      ensures effects == old(effects) + [Refresh] && refreshCount == old(refreshCount) + 1
    {
      RefreshCountAppend(effects, [Refresh]);
      assert [Refresh][..0] == [];
      effects := effects + [Refresh];
      refreshCount := refreshCount + 1;
    }

    method AddRequestMessage(requestMessage: FormMessage)
      requires Valid()
      modifies this
      ensures Valid()
      ensures effects == old(effects) + [Dispatched(Action.AddRequestMessage(requestMessage))]
      ensures refreshCount == old(refreshCount)
    {
      Dispatch(Action.AddRequestMessage(requestMessage));
    }

    method CloseModal()
      requires Valid()
      modifies this
      ensures Valid()
      ensures effects == old(effects) + [Dispatched(Action.CloseModal)] && refreshCount == old(refreshCount)
    {
      Dispatch(Action.CloseModal);
    }

    method ResetAdvancedEditorMessages()
      requires Valid()
      modifies this
      ensures Valid()
      ensures effects == old(effects) + [Dispatched(Action.ResetAdvancedEditorMessages)]
      ensures refreshCount == old(refreshCount)
    {
      Dispatch(Action.ResetAdvancedEditorMessages);
    }

    method SetAdvancedEditorRawString(advancedEditorRawString: string)
      requires Valid()
      modifies this
      ensures Valid()
      ensures effects == old(effects) + [Dispatched(Action.SetAdvancedEditorRawString(advancedEditorRawString))]
      ensures refreshCount == old(refreshCount)
    {
      Dispatch(Action.SetAdvancedEditorRawString(advancedEditorRawString));
    }

    method SetDataViewTitles(dataViewsMap: DataViewsMap)
      requires Valid()
      modifies this
      ensures Valid()
      ensures effects == old(effects) + [Dispatched(Action.SetDataViewTitles(dataViewsMap))]
      ensures refreshCount == old(refreshCount)
    {
      Dispatch(Action.SetDataViewTitles(dataViewsMap));
    }

    method SetIsJobCreated(isJobCreated: bool)
      requires Valid()
      modifies this
      ensures Valid()
      ensures effects == old(effects) + [Dispatched(Action.SetIsJobCreated(isJobCreated))]
      ensures refreshCount == old(refreshCount)
    {
      Dispatch(Action.SetIsJobCreated(isJobCreated));
    }

    method SetIsJobStarted(isJobStarted: bool)
      requires Valid()
      modifies this
      ensures Valid()
      ensures effects == old(effects) + [Dispatched(Action.SetIsJobStarted(isJobStarted))]
      ensures refreshCount == old(refreshCount)
    {
      Dispatch(Action.SetIsJobStarted(isJobStarted));
    }

    method ResetRequestMessages()
      requires Valid()
      modifies this
      ensures Valid()
      ensures effects == old(effects) + [Dispatched(Action.ResetRequestMessages)] && refreshCount == old(refreshCount)
    {
      Dispatch(Action.ResetRequestMessages);
    }

    method ResetForm()
      requires Valid()
      modifies this
      ensures Valid()
      ensures effects == old(effects) + [Dispatched(Action.ResetForm)] && refreshCount == old(refreshCount)
    {
      Dispatch(Action.ResetForm);
    }

    method SetJobConfig(payload: JobConfig)
      requires Valid()
      modifies this
      ensures Valid()
      ensures effects == old(effects) + [Dispatched(Action.SetJobConfig(payload))] && refreshCount == old(refreshCount)
    {
      Dispatch(Action.SetJobConfig(payload));
    }

    method SetFormState(payload: FormPatch)
      requires Valid()
      modifies this
      ensures Valid()
      ensures effects == old(effects) + [Dispatched(Action.SetFormState(payload))] && refreshCount == old(refreshCount)
    {
      Dispatch(Action.SetFormState(payload));
    }

    method SwitchToAdvancedEditor()
      requires Valid()
      modifies this
      ensures Valid()
      ensures effects == old(effects) + [Dispatched(Action.SwitchToAdvancedEditor)]
      ensures refreshCount == old(refreshCount)
    {
      Dispatch(Action.SwitchToAdvancedEditor);
    }

    method SwitchToForm()
      requires Valid()
      modifies this
      ensures Valid()
      ensures effects == old(effects) + [Dispatched(Action.SwitchToForm)] && refreshCount == old(refreshCount)
    {
      Dispatch(Action.SwitchToForm);
    }

    /** A missing value is dispatched as the empty string. */
    method SetEstimatedModelMemoryLimit(value: Option<string>)
      requires Valid()
      modifies this
      ensures Valid()
      ensures effects == old(effects) +
        [Dispatched(Action.SetEstimatedModelMemoryLimit(if value.Some? then value.value else ""))]
      ensures refreshCount == old(refreshCount)
    {
      Dispatch(Action.SetEstimatedModelMemoryLimit(value.GetOr("")));
    }

    /** The `try`/`catch` of `createAnalyticsJob`, once the creation call has settled. */
    method HandleCreationOutcome(outcome: Outcome<CreationResponse>) returns (created: bool)
      requires Valid()
      modifies this
      ensures Valid()
      ensures var run := CreationSettledRun(form.jobId, helpers, outcome);
        effects == old(effects) + run.effects && created == run.result
      ensures refreshCount == old(refreshCount) + (if created then 1 else 0)
    {
      match outcome {
        case Rejected(e) =>
          AddRequestMessage(FormMessage(Some(helpers.extractErrorMessage(e)), CreateFailed));
          return false;
        case Resolved(creationResp) =>
          AddRequestMessage(FormMessage(None, CreateAcknowledged(form.jobId)));
          if |creationResp.created| > 0 && |creationResp.errors| == 0 {
            SetIsJobCreated(true);
            RefreshList();
            return true;
          } else if |creationResp.errors| > 0 {
            AddRequestMessage(FormMessage(Some(helpers.errorPropertiesMessage(creationResp.errors[0].error)), CreateFailed));
            return false;
          }
      }
      return false;
    }

    /** `createAnalyticsJob`, given how the creation call settles; resolves to whether the job was created. */
    method CreateAnalyticsJob(outcome: Outcome<CreationResponse>) returns (created: bool)
      requires Valid()
      modifies this
      ensures Valid()
      ensures var run := CreateAnalyticsJobRun(form, jobConfig, isAdvancedEditorEnabled, helpers, outcome);
        effects == old(effects) + run.effects && created == run.result
      ensures created <==> outcome.Resolved? && |outcome.value.created| > 0 && |outcome.value.errors| == 0
      ensures refreshCount == old(refreshCount) + (if created then 1 else 0)
    {
      ResetRequestMessages();
      var analyticsJobConfig := SubmittedConfig(form, jobConfig, isAdvancedEditorEnabled, helpers);
      Perform(RequestCreate(CreateRequest(form.jobId, analyticsJobConfig, form.createDataView, form.timeFieldName)));
      created := HandleCreationOutcome(outcome);
    }

    /** `prepareFormValidation`, given how `getCache()` settles. */
    method PrepareFormValidation(cache: Outcome<Option<seq<Option<SavedObject>>>>)
      requires Valid()
      modifies this
      ensures Valid()
      ensures effects == old(effects) + PrepareFormValidationEffects(helpers, cache)
      ensures refreshCount == old(refreshCount)
    {
      Perform(GetDataViewCache);
      match cache {
        case Resolved(cached) =>
          var savedObjects := cached.GetOr([]);
          var dataViewsMap := CollectDataViewTitles(savedObjects);
          SetDataViewTitles(dataViewsMap);
        case Rejected(e) =>
          AddRequestMessage(FormMessage(Some(helpers.extractErrorMessage(e)), DataViewNamesFailed));
      }
    }

    /**
     * `initiateWizard`: the data view cache is cleared before it is read again.
     * Nothing catches a failed `clearCache()`, so its fault becomes the
     * rejection of `initiateWizard` (`rejection`) and the cache is not read.
     */
    method InitiateWizard(cleared: Outcome<()>, cache: Outcome<Option<seq<Option<SavedObject>>>>)
      returns (rejection: Option<Fault>)
      requires Valid()
      modifies this
      ensures Valid()
      ensures cleared.Rejected? ==> effects == old(effects) + [ClearDataViewCache] && rejection == Some(cleared.fault)
      ensures cleared.Resolved? ==>
        effects == old(effects) + [ClearDataViewCache] + PrepareFormValidationEffects(helpers, cache) && rejection == None
      ensures refreshCount == old(refreshCount)
    {
      Perform(ClearDataViewCache);
      if cleared.Rejected? {
        return Some(cleared.fault);
      }
      PrepareFormValidation(cache);
      return None;
    }

    /** `startAnalyticsJob`, given how the start call settles. */
    method StartAnalyticsJob(outcome: Outcome<StartResponse>)
      requires Valid()
      modifies this
      ensures Valid()
      ensures effects == old(effects) + StartAnalyticsJobEffects(form.jobId, helpers, outcome)
      ensures refreshCount == old(refreshCount) + (if StartAcknowledgedBy(outcome) then 1 else 0)
    {
      Perform(RequestStart(form.jobId));
      var fault: Fault;
      match outcome {
        case Rejected(e) =>
          fault := e;
        case Resolved(response) =>
          if response.acknowledged != Some(true) {
            fault := NotAcknowledged;
          } else {
            AddRequestMessage(FormMessage(None, StartAcknowledged(form.jobId)));
            SetIsJobStarted(true);
            RefreshList();
            return;
          }
      }
      AddRequestMessage(FormMessage(Some(helpers.extractErrorMessage(fault)), StartFailed));
    }

    /** `setJobClone` */
    method SetJobClone(cloneJob: JobConfig)
      requires Valid()
      modifies this
      ensures Valid()
      ensures effects == old(effects) + SetJobCloneEffects(cloneJob, helpers)
      ensures refreshCount == old(refreshCount)
    {
      ghost var before := effects;
      ResetForm();
      var config := helpers.extractCloningConfig(cloneJob);
      ghost var head := [Dispatched(Action.ResetForm), Dispatched(Action.SetFormState(helpers.formStateFromJobConfig(config)))];
      if helpers.isAdvancedConfig(config) {
        SetFormState(helpers.formStateFromJobConfig(config));
        SwitchToAdvancedEditor();
        assert effects == before + head + [Dispatched(Action.SwitchToAdvancedEditor)];
      } else {
        SetFormState(helpers.formStateFromJobConfig(config));
        SetEstimatedModelMemoryLimit(config.modelMemoryLimit);
        assert effects == before + head + [Dispatched(Action.SetEstimatedModelMemoryLimit(config.modelMemoryLimit.GetOr("")))];
      }
      Dispatch(Action.SetJobClone(cloneJob));
    }
  }
}
