/** How the answers to approval requests are spelt for the two agents (agent/opencode_server.py,
    agent/codex_app_server.py), and which of them a reset uses (core/run_controller.py). */
module AgentDecisions {
  import opened Wrappers

  /** `_permission_decision` of OpenCode; None where it raises. */
  function PermissionDecision(decision: string): Option<string> {
    if decision in {"accept", "approve", "allow"} then Some("once")
    else if decision in {"reject", "deny", "abort"} then Some("reject")
    else None
  }

  /** `_approval_decision` of Codex; None where it raises. */
  function ApprovalDecision(decision: string): Option<string> {
    if decision in {"approve", "accept", "allow"} then Some("accept")
    else if decision in {"reject", "deny", "abort", "decline", "cancel"} then Some("decline")
    else None
  }

  /** The decision that declines a pending approval before a reset. */
  const RESET_DECISION := "cancel"

  /** Codex answers whatever OpenCode answers, to the same effect, and two decisions more. */
  lemma CodexAnswersMore(decision: string)
    ensures PermissionDecision(decision).Some? ==> ApprovalDecision(decision).Some?
    ensures PermissionDecision(decision).Some? ==>
              (PermissionDecision(decision) == Some("once") <==> ApprovalDecision(decision) == Some("accept"))
    ensures ApprovalDecision(decision).Some? && PermissionDecision(decision).None? <==>
              decision in {"decline", "cancel"}
  {
  }

  /** A reset's decision declines the request for Codex, and raises for OpenCode. */
  lemma ResetsFailOnOpenCode()
    ensures ApprovalDecision(RESET_DECISION) == Some("decline") && PermissionDecision(RESET_DECISION).None?
  {
  }
}
