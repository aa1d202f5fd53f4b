# Lifecycle and session gates of the API Manager portals

This project models, in Dafny, the decision logic of two React components of WSO2 API Manager.

- **Lifecycle gate** (publisher portal, `CustomizedStepper.jsx`, module `LifecycleGate`). The stepper of an API's overview derives three availability flags from the API: endpoint, business plan (tier) and prototype. It computes the stepper's active step from those flags and the lifecycle state fetched from the backend. It chooses the presentation of the last step and decides whether the Publish button is enabled. While a publish call is in flight it keeps an `isUpdating` busy flag.
- **Session gate** (developer portal, `ProtectedApp.jsx`, module `SessionGate`). The protected application resolves the user and the tenant list when it mounts. It then picks the screen to show: loading, the tenant listing, or the application shell with its authentication flags. `handleEnvironmentQueryParam` applies an `environment` query parameter.

The collaborators are not modelled. These are the backend API object, the tenant, configuration and authentication services, `Utils`, alerts and routing. Their answers are method parameters instead: one method per promise outcome, and the render-time `AuthManager.getUser()` and context tenant domain are arguments of `Render`. The stepper's calls and alerts are recorded in an `effects` log.

The session gate's state-changing methods are each proved equal to a pure transition function: `ComponentDidMount` to `Mount`, `SetUserResolved` to `ResolveUser`, and each completion method to `Complete`. `HandleEnvironmentQueryParam` changes no state; its contract states its result directly. `Run` folds a sequence of completions. The trace lemmas then hold for every order in which the independent promises settle:

- the scope is never found for an unresolved user;
- resolution is never undone;
- an unsettled token request or a failed tenant request keeps the loading screen up;
- once everything has settled, the loading screen is gone.

Three behaviours of the code are worth knowing:

- The active step is 1, 2 or 3, never 0. An API whose lifecycle state has not arrived yet (the initial `[]`) gets step 3, the same as a published one (`Stepper.Render`).
- Publish is not locked while a call is in flight: the `disabled` expression at CustomizedStepper.jsx:231-232 does not read `isUpdating`, so the button stays enabled with its spinner showing (`PublishEnabledWhileBusy`).
- The success alert goes out right after the refresh is *requested*, not after the refresh completes. A later refresh failure adds an error alert after it.

## Model

| member | source | states |
|---|---|---|
| LifecycleGate.Classify | features/apimgt/org.wso2.carbon.apimgt.publisher.feature/src/main/resources/publisher/source/src/app/components/Apis/Details/NewOverview/CustomizedStepper.jsx:110-117 | a fetched state string becomes a lifecycle state that is never the unset one, never an `Other` carrying a known name, and whose name is that string |
| LifecycleGate.ClassifyInvertsName | features/apimgt/org.wso2.carbon.apimgt.publisher.feature/src/main/resources/publisher/source/src/app/components/Apis/Details/NewOverview/CustomizedStepper.jsx:110-117 | reading back the name of any lifecycle state the backend can report gives that state again |
| LifecycleGate.AvailabilityOf | features/apimgt/org.wso2.carbon.apimgt.publisher.feature/src/main/resources/publisher/source/src/app/components/Apis/Details/NewOverview/CustomizedStepper.jsx:106-109 | endpoint available iff a configuration is present; tier available iff some policy is selected; prototyped iff the configuration is present and marked `prototyped`; prototyped implies endpoint available |
| LifecycleGate.PublishDisabled | features/apimgt/org.wso2.carbon.apimgt.publisher.feature/src/main/resources/publisher/source/src/app/components/Apis/Details/NewOverview/CustomizedStepper.jsx:231-232 | Publish is enabled iff endpoint and tier are both available and no publish request is pending (`workflowStatus` is not `CREATED`); an enabled button implies the final-step prerequisites hold |
| LifecycleGate.FinalStageWithPublishDisabled | features/apimgt/org.wso2.carbon.apimgt.publisher.feature/src/main/resources/publisher/source/src/app/components/Apis/Details/NewOverview/CustomizedStepper.jsx:255-256 | some API (prototyped, no policies) meets the final-step prerequisites while Publish is disabled, since the button does not consult prototyping |
| LifecycleGate.StoreLink | features/apimgt/org.wso2.carbon.apimgt.publisher.feature/src/main/resources/publisher/source/src/app/components/Apis/Details/NewOverview/CustomizedStepper.jsx:169-173 | the dev portal link is the origin and store context, then `/apis/`, the API id and `/overview`, so the id can be read back from it |
| LifecycleGate.FinalLifecycleState | features/apimgt/org.wso2.carbon.apimgt.publisher.feature/src/main/resources/publisher/source/src/app/components/Apis/Details/NewOverview/CustomizedStepper.jsx:152-250 | Published, Prototyped, Blocked, Deprecated and Retired each get their own view, Published with the dev portal link; every other state, Created and unset included, gets the Publish button, whose disabled flag is `PublishDisabled`, whose spinner is the busy flag and whose pending note shows iff the workflow status is `CREATED` |
| LifecycleGate.PublishEnabledWhileBusy | features/apimgt/org.wso2.carbon.apimgt.publisher.feature/src/main/resources/publisher/source/src/app/components/Apis/Details/NewOverview/CustomizedStepper.jsx:227-235 | the Publish button can be enabled while its spinner shows, so a second publish can be issued while one is in flight |
| LifecycleGate.Stepper.constructor | features/apimgt/org.wso2.carbon.apimgt.publisher.feature/src/main/resources/publisher/source/src/app/components/Apis/Details/NewOverview/CustomizedStepper.jsx:110-118 | on mount the lifecycle state is unset, the busy flag is down and the lifecycle state of the API is requested |
| LifecycleGate.Stepper.LcStateFetched | features/apimgt/org.wso2.carbon.apimgt.publisher.feature/src/main/resources/publisher/source/src/app/components/Apis/Details/NewOverview/CustomizedStepper.jsx:113-117 | the answer of the lifecycle request becomes the lifecycle state; busy flag and effects unchanged |
| LifecycleGate.Stepper.UpdateLCStateOfAPI | features/apimgt/org.wso2.carbon.apimgt.publisher.feature/src/main/resources/publisher/source/src/app/components/Apis/Details/NewOverview/CustomizedStepper.jsx:124-126 | pressing Publish raises the busy flag and issues the publish call |
| LifecycleGate.Stepper.PublishSucceeded | features/apimgt/org.wso2.carbon.apimgt.publisher.feature/src/main/resources/publisher/source/src/app/components/Apis/Details/NewOverview/CustomizedStepper.jsx:127-141 | on success the API refresh is requested, then the success alert is shown, then the busy flag goes down |
| LifecycleGate.Stepper.PublishFailed | features/apimgt/org.wso2.carbon.apimgt.publisher.feature/src/main/resources/publisher/source/src/app/components/Apis/Details/NewOverview/CustomizedStepper.jsx:141-145 | on failure the busy flag goes down and the serialised failure message is shown as an error |
| LifecycleGate.Stepper.RefreshFailed | features/apimgt/org.wso2.carbon.apimgt.publisher.feature/src/main/resources/publisher/source/src/app/components/Apis/Details/NewOverview/CustomizedStepper.jsx:129-138 | a failed refresh shows the backend's description when a response is present, the generic message otherwise, and changes nothing else |
| LifecycleGate.Stepper.Render | features/apimgt/org.wso2.carbon.apimgt.publisher.feature/src/main/resources/publisher/source/src/app/components/Apis/Details/NewOverview/CustomizedStepper.jsx:152-261 | the active step is in 1..3: 2 iff the state is Created and endpoint and tier, or prototyping, are available; 1 iff Created without them; 3 iff the state is anything but Created, the unset state included; the last step shows `FinalLifecycleState`, which is the Publish button iff the fetched state string, if any, is not one of the five settled names |
| SessionGate.ResolveUser | features/apimgt/org.wso2.carbon.apimgt.store.feature/src/main/resources/devportal/source/src/app/ProtectedApp.jsx:96-104 | a cached or token user, or none, leaves the user resolved; the scope is recorded iff the user holds `apim:subscribe` (or it was recorded before); the other fields are untouched |
| SessionGate.Mount | features/apimgt/org.wso2.carbon.apimgt.store.feature/src/main/resources/devportal/source/src/app/ProtectedApp.jsx:68-109 | a truthy tenant query parameter empties the tenant list and is handed to the settings context with no list request; otherwise the list is requested and left as is; a cached user is resolved at once, otherwise the token user is requested; the environments are always requested; consistency is kept |
| SessionGate.Complete | features/apimgt/org.wso2.carbon.apimgt.store.feature/src/main/resources/devportal/source/src/app/ProtectedApp.jsx:78-131 | every token outcome (user with or without scope, null, error) resolves the user; only a non-null user with `apim:subscribe` records the scope; a loaded tenant list or environment list replaces the old one; a failed request changes nothing |
| SessionGate.Render | features/apimgt/org.wso2.carbon.apimgt.store.feature/src/main/resources/devportal/source/src/app/ProtectedApp.jsx:184-220 | Loading iff the user or the tenant list is unresolved; the tenant listing iff both are resolved and the tenant domain is `INVALID`, or the list is non-empty, nobody is authenticated and no tenant domain is set; otherwise the shell, with authenticated meaning scope found and a user cached at render time |
| SessionGate.RunKeepsConsistent | features/apimgt/org.wso2.carbon.apimgt.store.feature/src/main/resources/devportal/source/src/app/ProtectedApp.jsx:96-131 | after any sequence of completions, in any order, a found scope implies a resolved user |
| SessionGate.RunIsMonotone | features/apimgt/org.wso2.carbon.apimgt.store.feature/src/main/resources/devportal/source/src/app/ProtectedApp.jsx:75-131 | no completion undoes a resolved user, a found scope or a loaded tenant list |
| SessionGate.RunResolvesUser | features/apimgt/org.wso2.carbon.apimgt.store.feature/src/main/resources/devportal/source/src/app/ProtectedApp.jsx:109-131 | once any outcome of the token request has arrived, the user is resolved for good |
| SessionGate.RunLoadsTenants | features/apimgt/org.wso2.carbon.apimgt.store.feature/src/main/resources/devportal/source/src/app/ProtectedApp.jsx:78-79 | once the tenant list has loaded, it stays loaded |
| SessionGate.LoadingUntilUserResolves | features/apimgt/org.wso2.carbon.apimgt.store.feature/src/main/resources/devportal/source/src/app/ProtectedApp.jsx:187-189 | while the token request is unsettled, render shows Loading whatever else arrives and whatever the context holds |
| SessionGate.LoadingWithoutTenantList | features/apimgt/org.wso2.carbon.apimgt.store.feature/src/main/resources/devportal/source/src/app/ProtectedApp.jsx:78-83 | when the tenant list request fails, render shows Loading for good |
| SessionGate.SettledMountIsNotLoading | features/apimgt/org.wso2.carbon.apimgt.store.feature/src/main/resources/devportal/source/src/app/ProtectedApp.jsx:68-133 | once the tenant list has loaded (when requested) and the token request has settled (when issued), render never shows Loading |
| SessionGate.ProtectedApp.constructor | features/apimgt/org.wso2.carbon.apimgt.store.feature/src/main/resources/devportal/source/src/app/ProtectedApp.jsx:52-60 | initially the user is unresolved, no scope is found, the tenant list is null and there are no environments |
| SessionGate.ProtectedApp.SetUserResolved | features/apimgt/org.wso2.carbon.apimgt.store.feature/src/main/resources/devportal/source/src/app/ProtectedApp.jsx:97-104 | the state afterwards is `ResolveUser` of the state before |
| SessionGate.ProtectedApp.ComponentDidMount | features/apimgt/org.wso2.carbon.apimgt.store.feature/src/main/resources/devportal/source/src/app/ProtectedApp.jsx:68-133 | the state and issued requests afterwards are `Mount` of the state before |
| SessionGate.ProtectedApp.TenantsLoaded | features/apimgt/org.wso2.carbon.apimgt.store.feature/src/main/resources/devportal/source/src/app/ProtectedApp.jsx:78-79 | the loaded tenant list becomes the state's list (`Complete`) |
| SessionGate.ProtectedApp.TenantsFailed | features/apimgt/org.wso2.carbon.apimgt.store.feature/src/main/resources/devportal/source/src/app/ProtectedApp.jsx:80-82 | a failed tenant request leaves the state unchanged (`Complete`) |
| SessionGate.ProtectedApp.EnvironmentsLoaded | features/apimgt/org.wso2.carbon.apimgt.store.feature/src/main/resources/devportal/source/src/app/ProtectedApp.jsx:85-89 | the loaded environments replace the instance's environment list (`Complete`) |
| SessionGate.ProtectedApp.EnvironmentsFailed | features/apimgt/org.wso2.carbon.apimgt.store.feature/src/main/resources/devportal/source/src/app/ProtectedApp.jsx:90-95 | a failed environment request leaves the state unchanged (`Complete`) |
| SessionGate.ProtectedApp.UserFromTokenResolved | features/apimgt/org.wso2.carbon.apimgt.store.feature/src/main/resources/devportal/source/src/app/ProtectedApp.jsx:110-126 | a user or null from the token resolves the user as `Complete` says |
| SessionGate.ProtectedApp.UserFromTokenFailed | features/apimgt/org.wso2.carbon.apimgt.store.feature/src/main/resources/devportal/source/src/app/ProtectedApp.jsx:128-131 | a failed token request resolves the user without a scope (`Complete`) |
| SessionGate.ProtectedApp.HandleEnvironmentQueryParam | features/apimgt/org.wso2.carbon.apimgt.store.feature/src/main/resources/devportal/source/src/app/ProtectedApp.jsx:154-178 | the `environment` parameter is always returned; the environment is changed iff the parameter is truthy, differs from the current one and the lookup does not answer -1, and then to the entry at the looked-up index |

## Left out

- All rendering: JSX, Material-UI styles, icons, tooltips, links other than the dev portal link, and react-intl messages. The model keeps only which view is chosen and with which flags.
- The collaborators' implementations: `getLcState`, `publish`, `updateAPI`, `getTenantsByState`, `ConfigManager.getConfigs`, `AuthManager.getUser` and `getUserFromToken`, `setTenantDomain`, and `Utils.getEnvironment`, `getEnvironmentID` and `setEnvironment`. Their results are parameters; their side effects are returned (`Requests`, `EnvironmentChange`) or logged (`effects`).
- A failed `getLcState` call has no handler in the stepper and only leaves the state unset; no method models it, since it changes nothing.
- Promise scheduling: completions are applied one at a time, in whatever order a caller chooses. React's batching of `setState` and writes after unmount are not modelled.
- `loadLocale` (fetch and dynamic require), the `messages` state field and the browser language detection: I/O and browser globals.
- Query-string parsing (`queryString.parse`, `qs.parse`): the parsed `tenant` and `environment` values are parameters. A parameter given several times, which parses to an array, is not modelled.
- LifecycleGate.Stepper.PublishFailed: the alert text is `JSON.stringify` of the failure message, taken as an already serialised string parameter.
- SessionGate.ProtectedApp.HandleEnvironmentQueryParam: `Utils.getEnvironment()` is taken as an optional name compared by strict equality with the parameter; what that utility really returns is not part of this model.
- `undefined` for `endpointConfig` and for the context's `tenantDomain`: both are compared strictly with `null`, so `undefined` would count as a configured endpoint (and the prototype test would then throw) and as a chosen tenant. The model's `None` is `null` there; `undefined` is not modelled.
- Console logging and the exact alert wording other than the two fixed alert texts.
