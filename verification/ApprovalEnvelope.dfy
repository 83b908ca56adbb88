/** The approval envelope across the two processes: what the runtime builds for a live grant, the
    broker of the same session accepts, while the grant lives and for that action only. */
module ApprovalEnvelope {

  import opened ActionBroker

  datatype Grant = Grant(actionId: string, category: string, target: string, expiresAt: real)
  datatype Request = Request(actionId: string, category: string, target: string)

  datatype Built = Built(approval: Approval) | ForeignGrant | GrantExpired

  function Least(a: real, b: real): real {
    if a <= b then a else b
  }

  /** `wall` and `monotonic` are the two clocks when the envelope is built. */
  function BuildApproval(kind: string, params: Params, request: Request, grant: Grant, key: nat, nonce: string,
                         wall: real, monotonic: real): Built
  {
    if (grant.actionId, grant.category, grant.target) != (request.actionId, request.category, request.target) then
      ForeignGrant
    else
      var remaining := grant.expiresAt - monotonic;
      if remaining <= 0.0 then GrantExpired
      else
        var body := Body(request.actionId, request.category, request.target, DigestOf(kind, params), wall,
                         wall + Least(remaining, MAX_APPROVAL_SECONDS), nonce);
        Built(Approval(body, MacOf(key, body)))
  }

  /** What must hold on the broker's side for the action itself: this build knows it, and its category
      and target are the granted ones. */
  ghost predicate Performable(kind: string, params: Params, request: Request, setting: Setting) {
    && kind in setting.registry
    && var spec := setting.registry[kind];
    && ParamsFit(params, spec.fields, setting.scan) && spec.validate(params).Pass?
    && request.category == spec.category && request.target == spec.target(params)
    && SecretAccepted(setting) && setting.validRequest(request.category, request.target, request.actionId)
    && !setting.gateRefuses(request.category, request.target, request.actionId)
  }

  /** The grant is for this request: the same action, category and target. */
  predicate GrantFor(grant: Grant, request: Request) {
    grant.actionId == request.actionId && grant.category == request.category && grant.target == request.target
  }

  /** An envelope is built exactly for a live grant of the very request. */
  lemma BuiltExactly(kind: string, params: Params, request: Request, grant: Grant, key: nat, nonce: string,
                     wall: real, monotonic: real)
    ensures var built := BuildApproval(kind, params, request, grant, key, nonce, wall, monotonic);
            && (built.Built? <==> GrantFor(grant, request) && monotonic < grant.expiresAt)
            && (built.ForeignGrant? <==> !GrantFor(grant, request))
  {}

  /** From the grant to the action: an envelope is built and passes every check before the claim exactly when
      the grant is for the request and lives, the envelope is shown to the broker of the same session, for the
      very action it was built for, no earlier than the permitted skew and before both the grant and the
      longest lifetime run out, and the action is one the broker may perform. */
  lemma BuiltApprovalPassesExactly(kind: string, params: Params, request: Request, grant: Grant, key: nat,
                                   nonce: string, wall: real, monotonic: real, action: Action, setting: Setting,
                                   now: real)
    requires WellFormedNonce(nonce)
    ensures var built := BuildApproval(kind, params, request, grant, key, nonce, wall, monotonic);
            built.Built? && CheckRequest(action, built.approval, setting, now).Pass? <==>
              && GrantFor(grant, request) && monotonic < grant.expiresAt
              && action == Action(kind, params) && setting.key == key
              && wall - CLOCK_SKEW_SECONDS <= now <= wall + Least(grant.expiresAt - monotonic, MAX_APPROVAL_SECONDS)
              && Performable(kind, params, request, setting)
  {
    hide ParamsFit, CheckRequest;
    var built := BuildApproval(kind, params, request, grant, key, nonce, wall, monotonic);
    if built.Built? {
      PassIffExactlyApproved(action, built.approval, setting, now);
    }
  }

  /** So whatever the broker accepts is what was granted: the envelope carries the grant's action id, and
      the registered category and the target of the action performed are the grant's. */
  lemma AcceptedIsGranted(kind: string, params: Params, request: Request, grant: Grant, key: nat, nonce: string,
                          wall: real, monotonic: real, action: Action, setting: Setting, now: real)
    requires WellFormedNonce(nonce)
    requires BuildApproval(kind, params, request, grant, key, nonce, wall, monotonic).Built?
    requires var approval := BuildApproval(kind, params, request, grant, key, nonce, wall, monotonic).approval;
             CheckRequest(action, approval, setting, now).Pass?
    ensures var body := BuildApproval(kind, params, request, grant, key, nonce, wall, monotonic).approval.body;
            body.actionId == grant.actionId && body.category == grant.category && body.target == grant.target
    ensures action.Action? && action.kind in setting.registry
    ensures var spec := setting.registry[action.kind];
            spec.category == grant.category && spec.target(action.params) == grant.target
  {
    hide ParamsFit, CheckRequest;
    BuiltApprovalPassesExactly(kind, params, request, grant, key, nonce, wall, monotonic, action, setting, now);
  }

  /** With clocks that advance together, no envelope is accepted after its grant has expired. */
  lemma DiesWithItsGrant(kind: string, params: Params, request: Request, grant: Grant, key: nat, nonce: string,
                         wall: real, monotonic: real, action: Action, setting: Setting, elapsed: real)
    requires WellFormedNonce(nonce)
    requires BuildApproval(kind, params, request, grant, key, nonce, wall, monotonic).Built?
    requires var approval := BuildApproval(kind, params, request, grant, key, nonce, wall, monotonic).approval;
             CheckRequest(action, approval, setting, wall + elapsed).Pass?
    ensures monotonic + elapsed <= grant.expiresAt
  {
    hide CheckRequest;
    BuiltApprovalPassesExactly(kind, params, request, grant, key, nonce, wall, monotonic, action, setting,
                               wall + elapsed);
  }
}
