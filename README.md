# Analytics job creation form controller and chat flyout sizing, in Dafny

This project models two small pieces of Kibana's browser code and proves what
they promise.

**The analytics job creation form controller** (`useCreateAnalyticsForm`,
module `CreateAnalyticsForm`, file `analytics_form.dfy`). The hook keeps the
wizard state in a reducer and exposes callbacks that `dispatch` actions to it.
Its asynchronous callbacks call the ML API (create a job, start a job) and the
data view cache, and they refresh the analytics job list. The reducer is not
part of this model. So the model records what the hook does as one ordered log
of effects in class `AnalyticsFormController`:

- every dispatched action (`Dispatched(a)`);
- every collaborator call (`RequestCreate`, `RequestStart`, `ClearDataViewCache`, `GetDataViewCache`);
- every job list refresh (`Refresh`).

A refresh counter sits beside the log. The class invariant `Valid()` says the
counter equals the number of `Refresh` entries in the log, and every method keeps
it. The class also holds the snapshot the callbacks close over: `form`,
`jobConfig` and `isAdvancedEditorEnabled`. Each asynchronous callback is a
method. It takes the collaborator's outcome as a parameter: a fault or a
response. Its new log is tied to a pure trace function
(`CreationSettledRun`, `CreateAnalyticsJobRun`, `PrepareFormValidationEffects`,
`StartAnalyticsJobEffects`, `SetJobCloneEffects`). The ordering, outcome and
error-path properties are proved about those functions, in lemmas beside them. The `forEach` loop that
builds the data view title map is the method `CollectDataViewTitles`. It is
proved equal to `BuildDataViewsMap`, and lemmas prove which keys that map has
and that a later object with the same title wins. The imported helpers
(`extractErrorMessage`, `extractErrorProperties`, `getJobConfigFromFormState`,
`getFormStateFromJobConfig`, `extractCloningConfig`, `isAdvancedConfig`) are
arrow-typed fields of a `Helpers` value given to the constructor. Nothing is
assumed about them. The i18n messages are opaque tokens (`MessageText`).

**The chat flyout** (module `ChatFlyout`, file `chat_flyout.dfy`).
`GetFlyoutWidth` is the width decision table. Its three `calc(` results are built
from the sidebar constants the way the template literals build them. A lemma
proves they render to exactly the source's strings, which lack a closing
parenthesis. The class `ChatFlyoutState` holds the component's `useState` cells
and models the handlers that set them.

Three details of `createAnalyticsJob` shape the model:

- The "Request to create … acknowledged" message is dispatched for every creation call that settles without throwing. It comes before the response is inspected, even when the response carries errors.
- A response with neither created jobs nor errors resolves to `false`, and its only effect is that acknowledgement.
- Success is decided by `dataFrameAnalyticsJobsCreated.length`.

## Model

| member | source | states |
|---|---|---|
| `CreateAnalyticsForm.RefreshCountZero` | x-pack/plugins/ml/public/application/data_frame_analytics/pages/analytics_management/hooks/use_create_analytics_form/use_create_analytics_form.ts:59 | a log counts no list refresh exactly when it holds none |
| `CreateAnalyticsForm.CreationSettledRun` | x-pack/plugins/ml/public/application/data_frame_analytics/pages/analytics_management/hooks/use_create_analytics_form/use_create_analytics_form.ts:102-141 | the result is true iff the call settles with created jobs and no errors, and then the log is the acknowledgement, SET_IS_JOB_CREATED(true) and one refresh. A settled call is acknowledged before its response is inspected. Errors add one message built from `errors[0]` only. No jobs and no errors give the acknowledgement alone. A fault gives one extracted error message |
| `CreateAnalyticsForm.CreateAnalyticsJobRun` | x-pack/plugins/ml/public/application/data_frame_analytics/pages/analytics_management/hooks/use_create_analytics_form/use_create_analytics_form.ts:89-142 | RESET_REQUEST_MESSAGES comes first. The submitted config is `jobConfig` in advanced mode, else the one derived from the form, with the form's job id, data view flag and time field. Then the settled call's effects and result follow unchanged |
| `CreateAnalyticsForm.CreateAnalyticsJobFlags` | x-pack/plugins/ml/public/application/data_frame_analytics/pages/analytics_management/hooks/use_create_analytics_form/use_create_analytics_form.ts:89-142 | SET_IS_JOB_CREATED(true) is dispatched iff the job was created, and a failed creation dispatches no SET_IS_JOB_CREATED at all. The list is refreshed iff the job was created, and then exactly once |
| `CreateAnalyticsForm.BuildDataViewsMap` | x-pack/plugins/ml/public/application/data_frame_analytics/pages/analytics_management/hooks/use_create_analytics_form/use_create_analytics_form.ts:147-155 | every entry's label is its own key (title) |
| `CreateAnalyticsForm.DataViewsMapKeys` | x-pack/plugins/ml/public/application/data_frame_analytics/pages/analytics_management/hooks/use_create_analytics_form/use_create_analytics_form.ts:149-154 | a title is a key of the built map iff some saved object (not null) carries it |
| `CreateAnalyticsForm.DataViewsMapLastWins` | x-pack/plugins/ml/public/application/data_frame_analytics/pages/analytics_management/hooks/use_create_analytics_form/use_create_analytics_form.ts:149-154 | the entry under a title is `{label: title, value: id or ''}` of the LAST object with that title |
| `CreateAnalyticsForm.CollectDataViewTitles` | x-pack/plugins/ml/public/application/data_frame_analytics/pages/analytics_management/hooks/use_create_analytics_form/use_create_analytics_form.ts:147-155 | the `forEach` loop fills exactly the map `BuildDataViewsMap` describes |
| `CreateAnalyticsForm.PrepareFormValidationEffects` | x-pack/plugins/ml/public/application/data_frame_analytics/pages/analytics_management/hooks/use_create_analytics_form/use_create_analytics_form.ts:144-167 | the cache is read first. Then SET_DATA_VIEW_TITLES carries the map built from the saved objects, and a null cache gives the empty map. A fault instead dispatches one extracted error message |
| `CreateAnalyticsForm.PrepareFormValidationReplacesTitles` | x-pack/plugins/ml/public/application/data_frame_analytics/pages/analytics_management/hooks/use_create_analytics_form/use_create_analytics_form.ts:144-167 | SET_DATA_VIEW_TITLES is dispatched iff reading the cache raised no fault, and the list is never refreshed |
| `CreateAnalyticsForm.StartAnalyticsJobEffects` | x-pack/plugins/ml/public/application/data_frame_analytics/pages/analytics_management/hooks/use_create_analytics_form/use_create_analytics_form.ts:174-202 | the start request comes first. `acknowledged === true` then gives the success message, SET_IS_JOB_STARTED(true) and a refresh. Anything else gives one error message, extracted from the fault, or from the one `Error` thrown for every unacknowledged response |
| `CreateAnalyticsForm.StartAnalyticsJobFlags` | x-pack/plugins/ml/public/application/data_frame_analytics/pages/analytics_management/hooks/use_create_analytics_form/use_create_analytics_form.ts:174-202 | SET_IS_JOB_STARTED(true) is dispatched iff the start was acknowledged, and an unacknowledged start dispatches no SET_IS_JOB_STARTED at all. The list is refreshed iff the start was acknowledged, and then exactly once |
| `CreateAnalyticsForm.SetJobCloneEffects` | x-pack/plugins/ml/public/application/data_frame_analytics/pages/analytics_management/hooks/use_create_analytics_form/use_create_analytics_form.ts:224-236 | four dispatches: RESET_FORM, SET_FORM_STATE of the cloned config, a third action, then SET_JOB_CLONE. The third is SWITCH_TO_ADVANCED_EDITOR when the config is advanced. Otherwise it is SET_ESTIMATED_MODEL_MEMORY_LIMIT of the config's limit ('' if missing) |
| `CreateAnalyticsForm.SetJobCloneBranches` | x-pack/plugins/ml/public/application/data_frame_analytics/pages/analytics_management/hooks/use_create_analytics_form/use_create_analytics_form.ts:224-236 | the editor is switched iff the config is advanced. An advanced config sets no memory limit, and any other config does not switch the editor. Every effect is a dispatch, and there is no refresh |
| `CreateAnalyticsForm.AnalyticsFormController.constructor` | x-pack/plugins/ml/public/application/data_frame_analytics/pages/analytics_management/hooks/use_create_analytics_form/use_create_analytics_form.ts:52-62 | a fresh hook: the given snapshot and helpers, an empty log, no refreshes |
| `CreateAnalyticsForm.AnalyticsFormController.Dispatch` | x-pack/plugins/ml/public/application/data_frame_analytics/pages/analytics_management/hooks/use_create_analytics_form/use_create_analytics_form.ts:58 | a dispatch appends its action to the log and nothing else |
| `CreateAnalyticsForm.AnalyticsFormController.RefreshList` | x-pack/plugins/ml/public/application/data_frame_analytics/pages/analytics_management/hooks/use_create_analytics_form/use_create_analytics_form.ts:59 | a refresh appends to the log and increments the counter by one |
| `CreateAnalyticsForm.AnalyticsFormController.AddRequestMessage` | x-pack/plugins/ml/public/application/data_frame_analytics/pages/analytics_management/hooks/use_create_analytics_form/use_create_analytics_form.ts:64-65 | dispatches exactly ADD_REQUEST_MESSAGE with the message |
| `CreateAnalyticsForm.AnalyticsFormController.CloseModal` | x-pack/plugins/ml/public/application/data_frame_analytics/pages/analytics_management/hooks/use_create_analytics_form/use_create_analytics_form.ts:67 | dispatches exactly CLOSE_MODAL |
| `CreateAnalyticsForm.AnalyticsFormController.ResetAdvancedEditorMessages` | x-pack/plugins/ml/public/application/data_frame_analytics/pages/analytics_management/hooks/use_create_analytics_form/use_create_analytics_form.ts:69-70 | dispatches exactly RESET_ADVANCED_EDITOR_MESSAGES |
| `CreateAnalyticsForm.AnalyticsFormController.SetAdvancedEditorRawString` | x-pack/plugins/ml/public/application/data_frame_analytics/pages/analytics_management/hooks/use_create_analytics_form/use_create_analytics_form.ts:72-73 | dispatches exactly SET_ADVANCED_EDITOR_RAW_STRING with the text |
| `CreateAnalyticsForm.AnalyticsFormController.SetDataViewTitles` | x-pack/plugins/ml/public/application/data_frame_analytics/pages/analytics_management/hooks/use_create_analytics_form/use_create_analytics_form.ts:75-76 | dispatches exactly SET_DATA_VIEW_TITLES with the map |
| `CreateAnalyticsForm.AnalyticsFormController.SetIsJobCreated` | x-pack/plugins/ml/public/application/data_frame_analytics/pages/analytics_management/hooks/use_create_analytics_form/use_create_analytics_form.ts:78-79 | dispatches exactly SET_IS_JOB_CREATED with the flag |
| `CreateAnalyticsForm.AnalyticsFormController.SetIsJobStarted` | x-pack/plugins/ml/public/application/data_frame_analytics/pages/analytics_management/hooks/use_create_analytics_form/use_create_analytics_form.ts:81-83 | dispatches exactly SET_IS_JOB_STARTED with the flag |
| `CreateAnalyticsForm.AnalyticsFormController.ResetRequestMessages` | x-pack/plugins/ml/public/application/data_frame_analytics/pages/analytics_management/hooks/use_create_analytics_form/use_create_analytics_form.ts:85 | dispatches exactly RESET_REQUEST_MESSAGES |
| `CreateAnalyticsForm.AnalyticsFormController.ResetForm` | x-pack/plugins/ml/public/application/data_frame_analytics/pages/analytics_management/hooks/use_create_analytics_form/use_create_analytics_form.ts:87 | dispatches exactly RESET_FORM |
| `CreateAnalyticsForm.AnalyticsFormController.SetJobConfig` | x-pack/plugins/ml/public/application/data_frame_analytics/pages/analytics_management/hooks/use_create_analytics_form/use_create_analytics_form.ts:204-206 | dispatches exactly SET_JOB_CONFIG with the payload |
| `CreateAnalyticsForm.AnalyticsFormController.SetFormState` | x-pack/plugins/ml/public/application/data_frame_analytics/pages/analytics_management/hooks/use_create_analytics_form/use_create_analytics_form.ts:208-210 | dispatches exactly SET_FORM_STATE with the partial form |
| `CreateAnalyticsForm.AnalyticsFormController.SwitchToAdvancedEditor` | x-pack/plugins/ml/public/application/data_frame_analytics/pages/analytics_management/hooks/use_create_analytics_form/use_create_analytics_form.ts:212-214 | dispatches exactly SWITCH_TO_ADVANCED_EDITOR |
| `CreateAnalyticsForm.AnalyticsFormController.SwitchToForm` | x-pack/plugins/ml/public/application/data_frame_analytics/pages/analytics_management/hooks/use_create_analytics_form/use_create_analytics_form.ts:216-218 | dispatches exactly SWITCH_TO_FORM |
| `CreateAnalyticsForm.AnalyticsFormController.SetEstimatedModelMemoryLimit` | x-pack/plugins/ml/public/application/data_frame_analytics/pages/analytics_management/hooks/use_create_analytics_form/use_create_analytics_form.ts:220-222 | a missing value is dispatched as ''. Any other value is dispatched unchanged |
| `CreateAnalyticsForm.AnalyticsFormController.HandleCreationOutcome` | x-pack/plugins/ml/public/application/data_frame_analytics/pages/analytics_management/hooks/use_create_analytics_form/use_create_analytics_form.ts:102-141 | the `try`/`catch` after the creation call: the log grows by exactly `CreationSettledRun`'s effects, the result is its result, and the refresh counter grows by one iff the job was created |
| `CreateAnalyticsForm.AnalyticsFormController.CreateAnalyticsJob` | x-pack/plugins/ml/public/application/data_frame_analytics/pages/analytics_management/hooks/use_create_analytics_form/use_create_analytics_form.ts:89-142 | the log grows by exactly `CreateAnalyticsJobRun`'s effects. The result is true iff jobs were created with no errors, and the refresh counter grows by one exactly then |
| `CreateAnalyticsForm.AnalyticsFormController.PrepareFormValidation` | x-pack/plugins/ml/public/application/data_frame_analytics/pages/analytics_management/hooks/use_create_analytics_form/use_create_analytics_form.ts:144-167 | the log grows by exactly `PrepareFormValidationEffects`, and there is no refresh |
| `CreateAnalyticsForm.AnalyticsFormController.InitiateWizard` | x-pack/plugins/ml/public/application/data_frame_analytics/pages/analytics_management/hooks/use_create_analytics_form/use_create_analytics_form.ts:169-172 | the cache is cleared first. If clearing fails, its fault is the rejection and nothing else happens. Otherwise `prepareFormValidation` runs and there is no rejection |
| `CreateAnalyticsForm.AnalyticsFormController.StartAnalyticsJob` | x-pack/plugins/ml/public/application/data_frame_analytics/pages/analytics_management/hooks/use_create_analytics_form/use_create_analytics_form.ts:174-202 | the log grows by exactly `StartAnalyticsJobEffects`. The counter grows by one iff the start was acknowledged |
| `CreateAnalyticsForm.AnalyticsFormController.SetJobClone` | x-pack/plugins/ml/public/application/data_frame_analytics/pages/analytics_management/hooks/use_create_analytics_form/use_create_analytics_form.ts:224-236 | the log grows by exactly `SetJobCloneEffects`, and there is no refresh |
| `ChatFlyout.RenderedCalcWidths` | x-pack/plugins/observability_ai_assistant/public/components/chat/chat_flyout.tsx:304-312 | the three template literals render, from 260 − 34 and 400, to `calc(40vw + 226px`, `calc(40vw + 400px` and `calc(40vw + 226px + 400px`, all without a closing parenthesis |
| `ChatFlyout.GetFlyoutWidth` | x-pack/plugins/observability_ai_assistant/public/components/chat/chat_flyout.tsx:283-313 | the function is total and returns one of the six widths. Full mode gives '100%' whatever else holds. Otherwise the xs breakpoint gives '90vw'. Otherwise the 226 px offset leads the result iff `expanded`, the 400 px slot ends it iff the second slot is visible, and '40vw' comes exactly when neither holds |
| `ChatFlyout.EveryFlyoutWidthIsProduced` | x-pack/plugins/observability_ai_assistant/public/components/chat/chat_flyout.tsx:283-313 | each of the six widths is the result for some inputs, so the six are exactly the range |
| `ChatFlyout.SidebarWidth` | x-pack/plugins/observability_ai_assistant/public/components/chat/chat_flyout.tsx:80-88 | the sidebar's min and max width is the collapsed 34 px, plus the 226 px offset when expanded |
| `ChatFlyout.ButtonMarginLeft` | x-pack/plugins/observability_ai_assistant/public/components/chat/chat_flyout.tsx:90-97 | when expanded, the button margin is the sidebar's growth (260 − 34). When collapsed it is 5 px |
| `ChatFlyout.ExpandingGrowsFlyoutBySidebar` | x-pack/plugins/observability_ai_assistant/public/components/chat/chat_flyout.tsx:300-312 | outside full mode and xs, expanding the list widens the flyout by exactly what the sidebar grows |
| `ChatFlyout.ChatFlyoutState.constructor` | x-pack/plugins/observability_ai_assistant/public/components/chat/chat_flyout.tsx:63-70 | initial cells: no conversation, side mode, list collapsed, second slot hidden |
| `ChatFlyout.ChatFlyoutState.Size` | x-pack/plugins/observability_ai_assistant/public/components/chat/chat_flyout.tsx:144-149 | the flyout `size` comes from the current cells. It is one of the six widths, and '100%' in full mode |
| `ChatFlyout.ChatFlyoutState.ToggleConversationsExpanded` | x-pack/plugins/observability_ai_assistant/public/components/chat/chat_flyout.tsx:188 | negates `conversationsExpanded` and changes nothing else |
| `ChatFlyout.ChatFlyoutState.ConversationDeleted` | x-pack/plugins/observability_ai_assistant/public/components/chat/chat_flyout.tsx:199-204 | deleting the selected conversation clears the selection. Deleting any other conversation leaves it unchanged |
| `ChatFlyout.ChatFlyoutState.SelectConversation` | x-pack/plugins/observability_ai_assistant/public/components/chat/chat_flyout.tsx:206-208 | selecting a conversation sets `conversationId` to its id |
| `ChatFlyout.ChatFlyoutState.NewChat` | x-pack/plugins/observability_ai_assistant/public/components/chat/chat_flyout.tsx:228-230 | the new-chat button sets `conversationId` to undefined |
| `ChatFlyout.ChatFlyoutState.ConversationUpdated` | x-pack/plugins/observability_ai_assistant/public/components/chat/chat_flyout.tsx:251-257 | selects the updated conversation and refreshes the list once. The body key is updated in place iff no id was selected, or the selected id was '' (falsy) |
| `ChatFlyout.ChatFlyoutState.ToggleFlyoutWidthMode` | x-pack/plugins/observability_ai_assistant/public/components/chat/chat_flyout.tsx:125-127 | sets the width mode and nothing else |
| `ChatFlyout.ChatFlyoutState.SetSecondSlotVisibility` | x-pack/plugins/observability_ai_assistant/public/components/chat/chat_flyout.tsx:130-134 | the provider's `setVisibility` sets the second slot's visibility and nothing else |
| `ChatFlyout.ChatFlyoutState.Close` | x-pack/plugins/observability_ai_assistant/public/components/chat/chat_flyout.tsx:151-157 | closing hides the second slot and nothing else changes |

## Left out

- The reducer, `getInitialState` and the effect of each action on the wizard state are not part of this model. Dispatch appends to a log, so the reducer-level behaviour is not stated: how partial forms are merged, the round trip between the form and the advanced editor, and what `resetForm` followed by `setJobClone` leaves behind.
- `async`/`await`: each awaited call settles before the method continues, with no interleaving. So edits made while a request is outstanding, and a component unmounting mid-call, are not modelled.
- The ML HTTP API, `dataViews.getCache`/`clearCache` and the job list refresh are collaborators. The outcomes of the creation, start, `getCache` and `clearCache` calls are method parameters, and each call is one entry of the log. The refresh has no outcome.
- The imported helpers are arrow-typed values with no properties. So is `extractErrorProperties(...).message`. An exception thrown by any helper is not modelled, whether inside a `try` block or outside one (`getJobConfigFromFormState` before the `try` of `createAnalyticsJob`, and the helpers `setJobClone` calls).
- i18n texts are opaque tokens. The interpolated job id is kept.
- CreateAnalyticsForm.BuildDataViewsMap: a saved object whose title is `null` (rather than undefined) would be stored under the key "null" in JavaScript. The model's titles are strings or absent. A saved object titled `"__proto__"` does not add a key in JavaScript. The assignment into the plain object literal calls the inherited `__proto__` setter and replaces the map's prototype with that entry, so the map's own keys omit that title. The model keys it like any other title, and `DataViewsMapKeys` counts it among the keys.
- CreateAnalyticsForm.AnalyticsFormController: every method can be called by any caller. The hook's returned `actions` object exposes only some callbacks. `addRequestMessage`, `setDataViewTitles`, `setIsJobCreated`, `setIsJobStarted`, `resetRequestMessages`, `resetForm` and `prepareFormValidation` are reached only through the other callbacks. The model allows more call sequences than the hook exposes, and no proved property depends on the excluded ones.
- ChatFlyout.ChatFlyoutState.ConversationDeleted: the handler compares the deleted id with the `conversationId` its closure captured when the click happened. The model compares with the selection at the moment the deletion completes, and the two agree because there is no interleaving. A rejected deletion runs no continuation and so is not a call.
- ChatFlyout.ChatFlyoutState: every handler can be called in any state. In the component, the conversation list (`SelectConversation`, `ConversationDeleted`) is rendered only while expanded. The new-chat button (`NewChat`) is rendered only while collapsed. The whole sidebar is hidden at the xs breakpoint. The model allows more call sequences than the component does, and no proved property depends on the excluded ones.
- Rendering of chat_flyout.tsx is not part of this model: JSX, emotion CSS (except the sidebar width and button margin values, which are modelled), EUI components, the portal container and `ReactDOM.unmountComponentAtNode`. The `onClose` callback of the flyout's props is a collaborator. Only the second-slot reset of the close handler is modelled.
- use_create_slo.ts, overview.tsx, resizable_layout.tsx, test_helper.tsx and rules_detection_rule_counter.tsx are not part of this model. They are view composition, a query-library mutation wrapper or test setup, with no logic of their own to state.
