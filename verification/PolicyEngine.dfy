/** The policy engine of src/operations/policy-engine.ts, and the part of the Operations Gateway
  * (src/operations/operations-gateway.ts, `requestAction` and `grantApproval`) that keeps its approvals.
  * Instants compare as numbers.
  */
module PolicyEngine {
  import opened Contracts
  import opened Wrappers

  datatype Operation = Read | Monitor | Classify | Summarize | Draft | Write
  datatype Capability = MoneyMovement | BrokerageTrading
  datatype Reversibility = Reversible | Irreversible
  datatype RiskClass = LowRisk | MediumRisk | HighRisk
  datatype Scope =
    | CodePromotion | DatabaseMigration | ProductionDataChange | ExternalCommunication
    | DestructiveAction | PermissionChange | Purchase | FinancialRecordChange

  datatype Target = Target(kind: string, identity: string, version: string)

  datatype Action = Action(
    workItemId: string,
    executive: Executive,
    trustDomain: TrustDomain,
    operation: Operation,
    reversibility: Reversibility,
    riskClass: RiskClass,
    scope: Option<Scope>,
    capability: Option<Capability>,
    target: Option<Target>)

  datatype ApprovalState = Requested | Granted | Invalidated | Expired

  datatype Approval = Approval(
    id: string,
    workItemId: string,
    scope: Scope,
    target: Target,
    riskClass: RiskClass,
    expiresAt: Option<int>,
    state: ApprovalState)

  datatype StandingAuthority = StandingAuthority(
    id: string, executive: Executive, trustDomain: TrustDomain, targetType: string, expiresAt: int)

  datatype Reason = ApprovalRequired | ApprovalExpired | StandingRequired | StandingExpired | TargetChanged

  datatype Outcome =
    | AutomaticBaseline
    | NotGrantable(capability: Capability)
    | ByStandingAuthority(authority: StandingAuthority)
    | ByApproval(approval: Approval)
    | NeedsApproval(reason: Reason, invalidated: Option<Approval>)

  /** Every capability there is, is prohibited. */
  predicate IsProhibited(capability: Option<Capability>) {
    capability.Some?
  }

  predicate IsAutomaticBaseline(operation: Operation) {
    operation != Write
  }

  predicate RequiresStandingAuthority(action: Action) {
    action.reversibility == Reversible && action.riskClass == LowRisk
  }

  predicate MatchesStanding(action: Action, authority: StandingAuthority) {
    && authority.executive == action.executive
    && authority.trustDomain == action.trustDomain
    && action.target.Some? && authority.targetType == action.target.value.kind
  }

  predicate MatchesTarget(action: Action, approval: Approval) {
    && action.scope == Some(approval.scope)
    && action.target.Some?
    && approval.target.kind == action.target.value.kind
    && approval.target.identity == action.target.value.identity
  }

  predicate Unexpired(approval: Approval, now: int) {
    approval.expiresAt.Some? ==> approval.expiresAt.value > now
  }

  /** The first granted approval for the action's target, whatever its version. */
  function FirstGranted(action: Action, approvals: seq<Approval>): (first: Option<Approval>)
    ensures first.Some? ==> MatchesTarget(action, first.value)
  {
    if approvals == [] then None
    else if approvals[0].state == Granted && MatchesTarget(action, approvals[0]) then Some(approvals[0])
    else FirstGranted(action, approvals[1..])
  }

  /** The first unexpired standing authority that matches. */
  function FirstStanding(action: Action, authorities: seq<StandingAuthority>, now: int): Option<StandingAuthority> {
    if authorities == [] then None
    else if MatchesStanding(action, authorities[0]) && authorities[0].expiresAt > now then Some(authorities[0])
    else FirstStanding(action, authorities[1..], now)
  }

  function EvaluateAction(action: Action, authorities: seq<StandingAuthority>, approvals: seq<Approval>, now: int): Outcome {
    if IsProhibited(action.capability) then NotGrantable(action.capability.value)
    else if IsAutomaticBaseline(action.operation) then AutomaticBaseline
    else match FirstGranted(action, approvals)
      case Some(granted) =>
        if granted.target.version != action.target.value.version then NeedsApproval(TargetChanged, Some(granted))
        else if !Unexpired(granted, now) then NeedsApproval(ApprovalExpired, Some(granted))
        else ByApproval(granted)
      case None =>
        if RequiresStandingAuthority(action) then
          match FirstStanding(action, authorities, now)
          case Some(authority) => ByStandingAuthority(authority)
          case None =>
            if exists authority :: authority in authorities && MatchesStanding(action, authority)
            then NeedsApproval(StandingExpired, None)
            else NeedsApproval(StandingRequired, None)
        else NeedsApproval(ApprovalRequired, None)
  }

  predicate Permits(outcome: Outcome) {
    outcome.AutomaticBaseline? || outcome.ByStandingAuthority? || outcome.ByApproval?
  }

  /** An approval that covers exactly this action at this time: granted, unexpired, and of the same
    * scope, type, identity and version. */
  predicate Covers(approval: Approval, action: Action, now: int) {
    && approval.state == Granted && Unexpired(approval, now)
    && action.scope == Some(approval.scope) && action.target == Some(approval.target)
  }

  lemma {:induction false} FirstGrantedIsFirst(action: Action, approvals: seq<Approval>)
    ensures match FirstGranted(action, approvals)
            case Some(granted) =>
              exists i :: 0 <= i < |approvals| && approvals[i] == granted &&
                granted.state == Granted && MatchesTarget(action, granted) &&
                forall j :: 0 <= j < i ==> !(approvals[j].state == Granted && MatchesTarget(action, approvals[j]))
            case None => forall a <- approvals :: !(a.state == Granted && MatchesTarget(action, a))
  {
    if approvals != [] && !(approvals[0].state == Granted && MatchesTarget(action, approvals[0])) {
      FirstGrantedIsFirst(action, approvals[1..]);
      if FirstGranted(action, approvals).Some? {
        var i :| 0 <= i < |approvals| - 1 && approvals[1..][i] == FirstGranted(action, approvals).value &&
          forall j :: 0 <= j < i ==> !(approvals[1..][j].state == Granted && MatchesTarget(action, approvals[1..][j]));
        assert approvals[i + 1] == FirstGranted(action, approvals).value;
        forall j | 0 <= j < i + 1
          ensures !(approvals[j].state == Granted && MatchesTarget(action, approvals[j]))
        {
          if j > 0 {
            assert approvals[j] == approvals[1..][j - 1];
          }
        }
      } else {
        assert approvals == [approvals[0]] + approvals[1..];
      }
    }
  }

  /** A write that is not low-risk is permitted exactly through an approval that covers it and that no
    * earlier granted approval of the same target shadows. */
  lemma OnlyACoveringApprovalPermits(action: Action, authorities: seq<StandingAuthority>, approvals: seq<Approval>, now: int)
    requires action.operation == Write && action.capability == None && !RequiresStandingAuthority(action)
    ensures Permits(EvaluateAction(action, authorities, approvals, now)) <==>
            exists i :: 0 <= i < |approvals| && Covers(approvals[i], action, now) &&
              EvaluateAction(action, authorities, approvals, now) == ByApproval(approvals[i]) &&
              forall j :: 0 <= j < i ==> !(approvals[j].state == Granted && MatchesTarget(action, approvals[j]))
  {
    FirstGrantedIsFirst(action, approvals);
    if Permits(EvaluateAction(action, authorities, approvals, now)) {
      var granted := FirstGranted(action, approvals).value;
      var i :| 0 <= i < |approvals| && approvals[i] == granted &&
        forall j :: 0 <= j < i ==> !(approvals[j].state == Granted && MatchesTarget(action, approvals[j]));
      assert Covers(approvals[i], action, now);
    }
  }

  /** An approval invalidated by the outcome is one that was granted for another version, or expired. */
  lemma InvalidatedApprovalNoLongerCovers(action: Action, authorities: seq<StandingAuthority>, approvals: seq<Approval>, now: int)
    ensures var outcome := EvaluateAction(action, authorities, approvals, now);
            outcome.NeedsApproval? && outcome.invalidated.Some? ==>
              outcome.invalidated.value in approvals && !Covers(outcome.invalidated.value, action, now)
  {
    FirstGrantedIsFirst(action, approvals);
  }

  // ---------------------------------------------------------------- the gateway's approvals

  datatype Decision =
    | Permitted(basis: Outcome)
    | AwaitApproval(approvalId: string)
    | Denied

  /** The approval with an id is moved to another state. */
  function SetState(approvals: seq<Approval>, id: string, state: ApprovalState): (after: seq<Approval>)
    ensures |after| == |approvals|
  {
    seq(|approvals|, i requires 0 <= i < |approvals| =>
      if approvals[i].id == id then approvals[i].(state := state) else approvals[i])
  }

  /** The approvals of an action's Work Item after it was requested. */
  function ApprovalsAfter(action: Action, authorities: seq<StandingAuthority>, approvals: seq<Approval>, now: int, freshId: string): seq<Approval> {
    match EvaluateAction(action, authorities, approvals, now)
    case NeedsApproval(reason, invalidated) =>
      if action.target.None? || action.scope.None? then approvals
      else
        var kept := match invalidated
          case Some(granted) => SetState(approvals, granted.id, if reason == ApprovalExpired then Expired else Invalidated)
          case None => approvals;
        kept + [Approval(freshId, action.workItemId, action.scope.value, action.target.value, action.riskClass, None, Requested)]
    case _ => approvals
  }

  class Gateway {
    var authorities: seq<StandingAuthority>
    var approvals: map<string, seq<Approval>>

    constructor ()
      ensures authorities == [] && approvals == map[]
    {
      authorities, approvals := [], map[];
    }

    function ApprovalsOf(workItemId: string): seq<Approval>
      reads this
    {
      if workItemId in approvals then approvals[workItemId] else []
    }

    method RequestAction(action: Action, now: int, freshId: string) returns (decision: Decision)
      modifies this`approvals
      ensures var outcome := EvaluateAction(action, authorities, old(ApprovalsOf(action.workItemId)), now);
              decision == if Permits(outcome) then Permitted(outcome)
                          else if outcome.NeedsApproval? && action.target.Some? && action.scope.Some? then AwaitApproval(freshId)
                          else Denied
      ensures ApprovalsOf(action.workItemId)
              == ApprovalsAfter(action, authorities, old(ApprovalsOf(action.workItemId)), now, freshId)
      ensures forall other :: other != action.workItemId ==> ApprovalsOf(other) == old(ApprovalsOf(other))
    {
      var current := ApprovalsOf(action.workItemId);
      var outcome := EvaluateAction(action, authorities, current, now);
      if Permits(outcome) {
        return Permitted(outcome);
      }
      if outcome.NotGrantable? || action.target.None? || action.scope.None? {
        return Denied;
      }
      if outcome.invalidated.Some? {
        current := SetState(current, outcome.invalidated.value.id,
                            if outcome.reason == ApprovalExpired then Expired else Invalidated);
      }
      var requested := Approval(freshId, action.workItemId, action.scope.value, action.target.value, action.riskClass, None, Requested);
      approvals := approvals[action.workItemId := current + [requested]];
      decision := AwaitApproval(freshId);
    }

    /** The CEO grants a requested approval; any other is left alone. */
    method GrantApproval(workItemId: string, index: nat, expiresAt: int) returns (granted: bool)
      modifies this`approvals
      ensures granted <==> index < |old(ApprovalsOf(workItemId))| && old(ApprovalsOf(workItemId))[index].state == Requested
      ensures granted ==>
                ApprovalsOf(workItemId) ==
                old(ApprovalsOf(workItemId))[index := old(ApprovalsOf(workItemId))[index].(expiresAt := Some(expiresAt), state := Granted)]
      ensures !granted ==> approvals == old(approvals)
      ensures forall other :: other != workItemId ==> ApprovalsOf(other) == old(ApprovalsOf(other))
    {
      var current := ApprovalsOf(workItemId);
      if index >= |current| || current[index].state != Requested {
        return false;
      }
      var approval := current[index].(expiresAt := Some(expiresAt), state := Granted);
      approvals := approvals[workItemId := current[index := approval]];
      granted := true;
    }
  }
}
