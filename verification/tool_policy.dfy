/**
 The verdict on a completion that the streaming and the JSON path share
 (internal/server/structured_output.go and the call check of internal/server/responses.go).

 JSON syntax and compiled schemas enter as predicates on text.
 */
module ToolPolicy {
  import opened Wrappers
  import opened Text

  datatype Invocation = Invocation(name: string, arguments: string)

  datatype Mode = Auto | Never | Required

  /** allowed None means no restriction; schemas holds the strict tools. */
  datatype Policy = Policy(mode: Mode, exact: bool, allowed: Option<set<string>>, schemas: map<string, string -> bool>)

  /** What a request asks of its completion. */
  datatype Contract = Contract(
    forbidParallel: bool,
    customTools: set<string>,
    policy: Policy,
    validJson: string -> bool,
    outputAccepts: string -> bool)

  predicate CallAllowed(policy: Policy, call: Invocation) {
    && (policy.allowed.Some? ==> call.name in policy.allowed.value)
    && (call.name in policy.schemas ==> policy.schemas[call.name](call.arguments))
  }

  predicate PolicyAccepts(policy: Policy, calls: seq<Invocation>, refusal: bool) {
    if refusal && calls == [] then true
    else
      && !(policy.mode == Never && calls != [])
      && !(policy.mode == Required && calls == [])
      && !(policy.exact && |calls| != 1)
      && forall i :: 0 <= i < |calls| ==> CallAllowed(policy, calls[i])
  }

  /** A call needs a name, and arguments that came as a string and are blank or JSON. */
  predicate CallValid(contract: Contract, name: string, arguments: string, argumentsSeen: bool) {
    && !Blank(name)
    && argumentsSeen
    && (Blank(arguments) || contract.validJson(arguments))
  }

  predicate CutShort(finishReason: string) {
    finishReason == "length" || finishReason == "content_filter"
  }

  predicate ToolFinish(finishReason: string) {
    finishReason == "tool_calls" || finishReason == "function_call"
  }
}
