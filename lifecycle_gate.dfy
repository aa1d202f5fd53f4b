/** The lifecycle gate of the publisher's API overview: the three-step stepper
    (Created, Requirements, final lifecycle stage), the presentation of its
    last step, and the Publish button with its busy indicator. */
module LifecycleGate {
  import opened Wrappers

  /** The part of an API's `endpointConfig` that the gate reads. */
  datatype EndpointConfig = EndpointConfig(implementationStatus: Option<string>)

  /** The API descriptor as the stepper receives it from its context.
      `endpointConfig` is `None` exactly when it is `null`: the availability
      test is a strict comparison with `null`. */
  datatype Api = Api(
    id: string,
    endpointConfig: Option<EndpointConfig>,
    policies: seq<string>,
    workflowStatus: Option<string>)

  /** The lifecycle state held by the stepper: `Unset` is the initial `[]`
      before the backend answers, `Other` any state name the stepper does not
      know. */
  datatype LcState =
    | Unset
    | Created
    | Prototyped
    | Published
    | Blocked
    | Deprecated
    | Retired
    | Other(name: string)

  const KnownStates: set<string> :=
    {"Created", "Prototyped", "Published", "Blocked", "Deprecated", "Retired"}

  /** The state names the last step shows by name; any other name gets the Publish button. */
  const SettledStates: set<string> := {"Published", "Prototyped", "Blocked", "Deprecated", "Retired"}

  /** The workflow status that marks a publish request waiting for approval. */
  const PendingWorkflow := "CREATED"
  const PrototypedStatus := "prototyped"
  const PublishedMessage := "Lifecycle state updated successfully"
  const RefreshFailedMessage := "Something went wrong while updating the API"

  /** The string the backend sends for a state; `None` for the unset state. */
  function Name(lc: LcState): Option<string>
  {
    match lc
    case Unset => None
    case Created => Some("Created")
    case Prototyped => Some("Prototyped")
    case Published => Some("Published")
    case Blocked => Some("Blocked")
    case Deprecated => Some("Deprecated")
    case Retired => Some("Retired")
    case Other(n) => Some(n)
  }

  /** `Other` never carries the name of a state the stepper knows. */
  predicate WellFormed(lc: LcState)
  {
    lc.Other? ==> lc.name !in KnownStates
  }

  /** Reads the state string of a `getLcState` answer; the name comes back
      unchanged and the value is never the unset state. */
  function Classify(state: string): (lc: LcState)
    ensures lc != Unset && WellFormed(lc)
    ensures Name(lc) == Some(state)
  {
    if state == "Created" then Created
    else if state == "Prototyped" then Prototyped
    else if state == "Published" then Published
    else if state == "Blocked" then Blocked
    else if state == "Deprecated" then Deprecated
    else if state == "Retired" then Retired
    else Other(state)
  }

  /** Classify is the inverse of Name on every state the backend can report. */
  lemma ClassifyInvertsName(lc: LcState)
    requires WellFormed(lc) && lc != Unset
    ensures Name(lc).Some? && Classify(Name(lc).value) == lc
  {
  }

  /** The three derived booleans of the stepper. */
  datatype Availability = Availability(endpoint: bool, tier: bool, prototyped: bool)

  /** An endpoint is available when one is configured at all, a tier when at
      least one policy is selected, and prototyping when the configured
      endpoint is marked prototyped. */
  function AvailabilityOf(api: Api): (av: Availability)
    ensures av.endpoint <==> api.endpointConfig != None
    ensures av.tier <==> exists p :: p in api.policies
    ensures av.prototyped <==>
      exists c :: api.endpointConfig == Some(c) && c.implementationStatus == Some(PrototypedStatus)
    ensures av.prototyped ==> av.endpoint
  {
    var endpoint := api.endpointConfig.Some?;
    var tier := |api.policies| != 0;
    var prototyped := api.endpointConfig.Some?
      && api.endpointConfig.value.implementationStatus == Some(PrototypedStatus);
    assert tier ==> api.policies[0] in api.policies;
    Availability(endpoint, tier, prototyped)
  }

  /** What moves a Created API to the final step: endpoint and tier both, or prototyping. */
  predicate ReadyForFinalStage(av: Availability)
  {
    (av.endpoint && av.tier) || av.prototyped
  }

  /** A publish request is waiting for approval. */
  predicate PublishPending(api: Api)
  {
    api.workflowStatus == Some(PendingWorkflow)
  }

  /** The Publish button is disabled exactly when the endpoint or the tier is
      missing or a publish request is pending; prototyping is not consulted. */
  function PublishDisabled(api: Api): (disabled: bool)
    ensures !disabled <==>
      AvailabilityOf(api).endpoint && AvailabilityOf(api).tier && !PublishPending(api)
    ensures !disabled ==> ReadyForFinalStage(AvailabilityOf(api))
  {
    var av := AvailabilityOf(api);
    (!av.endpoint || !av.tier) || PublishPending(api)
  }

  /** The converse of PublishDisabled's last promise fails: a prototyped API
      without policies reaches the final step while Publish stays disabled. */
  lemma FinalStageWithPublishDisabled()
    ensures exists api: Api :: ReadyForFinalStage(AvailabilityOf(api)) && PublishDisabled(api)
  {
    var api := Api("api", Some(EndpointConfig(Some(PrototypedStatus))), [], None);
    assert ReadyForFinalStage(AvailabilityOf(api)) && PublishDisabled(api);
  }

  /** The dev portal link of a published API; it is made of the portal's
      origin and context, the API's id and the overview page, so the id can
      be read back from it. */
  function StoreLink(origin: string, storeContext: string, apiId: string): (link: string)
    ensures var prefix := origin + storeContext + "/apis/";
      && |link| == |prefix| + |apiId| + |"/overview"|
      && link[..|prefix|] == prefix
      && link[|prefix|..|prefix| + |apiId|] == apiId
      && link[|prefix| + |apiId|..] == "/overview"
  {
    var prefix := origin + storeContext + "/apis/";
    var link := prefix + apiId + "/overview";
    assert link[..|prefix|] == prefix;
    assert link[|prefix|..|prefix| + |apiId|] == apiId;
    assert link[|prefix| + |apiId|..] == "/overview";
    link
  }

  /** The presentations of the stepper's last step. */
  datatype FinalView =
    | PublishedView(storeLink: string)
    | PrototypedView
    | BlockedView
    | DeprecatedView
    | RetiredView
    | PublishButton(disabled: bool, busy: bool, pendingNote: bool)

  /** The last step shows the five settled states by name (Published with its
      dev portal link) and every other value, Created and Unset included, as
      the Publish button; the button's spinner follows `isUpdating` and the
      pending note follows the workflow status. */
  function FinalLifecycleState(
    lc: LcState, api: Api, isUpdating: bool, origin: string, storeContext: string): (v: FinalView)
    ensures v.PublishedView? <==> lc == Published
    ensures v.PublishedView? ==> v.storeLink == StoreLink(origin, storeContext, api.id)
    ensures v == PrototypedView <==> lc == Prototyped
    ensures v == BlockedView <==> lc == Blocked
    ensures v == DeprecatedView <==> lc == Deprecated
    ensures v == RetiredView <==> lc == Retired
    ensures v.PublishButton? <==> lc in {Unset, Created} || lc.Other?
    ensures v.PublishButton? ==>
      && v.disabled == PublishDisabled(api)
      && v.busy == isUpdating
      && v.pendingNote == PublishPending(api)
  {
    match lc
    case Published => PublishedView(StoreLink(origin, storeContext, api.id))
    case Prototyped => PrototypedView
    case Blocked => BlockedView
    case Deprecated => DeprecatedView
    case Retired => RetiredView
    case _ => PublishButton(PublishDisabled(api), isUpdating, PublishPending(api))
  }

  /** The button does not read the busy flag: while a publish call is in
      flight it can still be enabled, so Publish can be pressed again. */
  lemma PublishEnabledWhileBusy(origin: string, storeContext: string)
    ensures exists api: Api, lc: LcState ::
      FinalLifecycleState(lc, api, true, origin, storeContext) == PublishButton(false, true, false)
  {
    var api := Api("api", Some(EndpointConfig(None)), ["Unlimited"], None);
    assert FinalLifecycleState(Created, api, true, origin, storeContext)
      == PublishButton(false, true, false);
  }

  /** What the stepper asks of its collaborators and shows to the user, in order. */
  datatype Effect =
    | GetLcState(apiId: string)
    | Publish
    | RefreshApi
    | InfoAlert(message: string)
    | ErrorAlert(message: string)

  /** The stepper's hook state: the fetched lifecycle state and the busy flag,
      with the log of the calls and alerts it has issued. */
  class Stepper {
    var lifecycleState: LcState
    var isUpdating: bool
    var effects: seq<Effect>

    ghost predicate Valid()
      reads this
    {
      WellFormed(lifecycleState)
    }

    /** Mounting: the state starts unset, not busy, and the lifecycle state of the API is requested. */
    constructor (apiId: string)
      ensures Valid()
      ensures lifecycleState == Unset && !isUpdating
      ensures effects == [GetLcState(apiId)]
    {
      lifecycleState := Unset;
      isUpdating := false;
      effects := [GetLcState(apiId)];
    }

    /** The lifecycle state request answered with `state`. */
    method LcStateFetched(state: string)
      requires Valid()
      modifies this
      ensures Valid()
      ensures lifecycleState == Classify(state)
      ensures isUpdating == old(isUpdating) && effects == old(effects)
    {
      lifecycleState := Classify(state);
    }

    /** Publish pressed: the busy flag goes up before the publish call is issued. */
    method UpdateLCStateOfAPI()
      requires Valid()
      modifies this
      ensures Valid()
      ensures isUpdating
      ensures effects == old(effects) + [Publish]
      ensures lifecycleState == old(lifecycleState)
    {
      isUpdating := true;
      effects := effects + [Publish];
    }

    /** The publish call succeeded: the API is refreshed, the success alert is
        shown without waiting for the refresh, and the busy flag goes down. */
    method PublishSucceeded()
      requires Valid()
      modifies this
      ensures Valid()
      ensures !isUpdating
      ensures effects == old(effects) + [RefreshApi, InfoAlert(PublishedMessage)]
      ensures lifecycleState == old(lifecycleState)
    {
      effects := effects + [RefreshApi];
      effects := effects + [InfoAlert(PublishedMessage)];
      isUpdating := false;
    }

    /** The publish call failed: the busy flag goes down and the serialised
        failure message is shown. */
    method PublishFailed(serializedMessage: string)
      requires Valid()
      modifies this
      ensures Valid()
      ensures !isUpdating
      ensures effects == old(effects) + [ErrorAlert(serializedMessage)]
      ensures lifecycleState == old(lifecycleState)
    {
      isUpdating := false;
      effects := effects + [ErrorAlert(serializedMessage)];
    }

    /** The refresh after a successful publish failed: the backend's
        description is shown when the failure carries a response, a generic
        message otherwise; nothing else changes. */
    method RefreshFailed(responseDescription: Option<string>)
      requires Valid()
      modifies this
      ensures Valid()
      ensures effects == old(effects) + [ErrorAlert(
        if responseDescription.Some? then responseDescription.value else RefreshFailedMessage)]
      ensures isUpdating == old(isUpdating) && lifecycleState == old(lifecycleState)
    {
      if responseDescription.Some? {
        effects := effects + [ErrorAlert(responseDescription.value)];
      } else {
        effects := effects + [ErrorAlert(RefreshFailedMessage)];
      }
    }

    /** One render: the active step is never 0 — 2 or 1 for a Created API
        depending on its prerequisites, 3 for every other state including the
        unset one — and the last step shows the final lifecycle presentation,
        which is the Publish button exactly when the fetched state string, if
        any, is not one of the five settled names. */
    method Render(api: Api, origin: string, storeContext: string)
      returns (activeStep: nat, finalBox: FinalView)
      requires Valid()
      ensures 1 <= activeStep <= 3
      ensures activeStep == 2 <==> lifecycleState == Created && ReadyForFinalStage(AvailabilityOf(api))
      ensures activeStep == 1 <==> lifecycleState == Created && !ReadyForFinalStage(AvailabilityOf(api))
      ensures activeStep == 3 <==> lifecycleState != Created
      ensures finalBox == FinalLifecycleState(lifecycleState, api, isUpdating, origin, storeContext)
      ensures finalBox.PublishButton? <==>
        Name(lifecycleState).None? || Name(lifecycleState).value !in SettledStates
    {
      var av := AvailabilityOf(api);
      activeStep := 0;
      if lifecycleState == Created && ReadyForFinalStage(av) {
        activeStep := 2;
      } else if lifecycleState == Created {
        activeStep := 1;
      } else if lifecycleState != Created {
        activeStep := 3;
      }
      finalBox := FinalLifecycleState(lifecycleState, api, isUpdating, origin, storeContext);
    }
  }
}
