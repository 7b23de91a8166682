# tekton-agentrun in Dafny

A verified model of the core of tekton-agentrun. This is a Kubernetes controller that runs an LLM agent inside a
hardened pod for each `AgentRun` resource. The model covers these parts:

- **The agent loop** (`agent_loop.dfy`, `agent_loop_properties.dfy`). This is the plan-act-reflect loop of
  `pkg/agent/loop.go`.
  - It runs as a class over a scripted provider object, which records every conversation it is sent.
  - The tool map and the policy gate are functions.
  - `Loop.Run` is proved equal to the pure `RunSpec`. The lemmas beside it cover these properties:
    - how the run ends and its iteration bounds;
    - the token totals;
    - the append-only conversation;
    - the order of policy check, lookup and execution in a batch of tool calls;
    - complete worked scenarios.
- **The OPA policy gate** (`opa.dfy`). `OpaPolicy.Initialize` and `OpaPolicy.Allow` cover the fail-closed verdict
  and the input document the policy is given. The Rego compiler and evaluator are parameters.
- **The API types** (`v1alpha1.dfy`). This covers the validators and defaulters of `AgentRun` and `AgentConfig`,
  and the run phases.
- **The RBAC and pod builders** (`security.dfy`, `pod_builder.dfy`, `kube.dfy`):
  - the read-only Role and its binding;
  - the hardened single-container agent pod.
- **The reconciler** (`reconciler.dfy`, `reconciler_properties.dfy`, `cluster.dfy`).
  - `Reconciler.Reconcile` mutates the `AgentRun` status and an in-memory API server (`ApiServer`, maps keyed by
    namespace and name).
  - It is proved equal to `ReconcileSpec`.
  - The lemmas cover these properties:
    - the phase machine;
    - the start and completion times;
    - objects are only ever added;
    - the full lifecycle.
- **The Claude provider client** (`claude_client.dfy`, `fmt.dfy`). This covers the message and response
  conversions and the error paths of one call. The HTTP exchange is a parameter.
- **The three agent tools** (`get_resources.dfy`, `get_logs.dfy`, `create_pipelinerun.dfy`), with the JSON input
  maps they parse (`values.dfy`). The cluster calls they make are parameters.

Go's `%d` is modelled by `Fmt.Itoa`, which is proved injective and inverted by `Fmt.ParseInt`. Go's `int32`
restart counter is modelled by the explicit wrap-around `GetResourcesTool.Wrap32`.

## Model

| member | source | states |
|---|---|---|
| AgentLoop.InitialMessages | pkg/agent/loop.go:59-73 | The conversation starts with the system prompt, but only when it is non-empty, followed by the goal message. |
| AgentLoop.Execute | pkg/agent/loop.go:124-147 | The audit record and the fed-back result carry the call's id, name and input. A tool error fills `error` and is flagged as an error; an output fills `output` and is not. |
| AgentLoop.Loop.ProcessToolCalls | pkg/agent/loop.go:107-150 | The per-call loop computes the batch function `RunBatch`: policy first, then lookup, then execution, stopping at the first denial or missing tool. |
| AgentLoop.Loop.FormatToolResults | pkg/agent/loop.go:154-161 | The loop builds the "Tool call … result/failed" text, one line per result. |
| AgentLoop.Loop.Iterate | pkg/agent/loop.go:76-191 | One iteration of the method equals the pure step `Iteration`, and the provider's record of sent conversations grows by exactly what the step sent. |
| AgentLoop.Loop.Run | pkg/agent/loop.go:53-197 | The run's result and error equal `RunSpec`'s, and the provider was sent exactly the conversations `RunSpec` sends. |
| AgentLoop.ScriptedProvider.Call | pkg/agent/loop_test.go:15-22 | The k-th call answers with the k-th scripted response, or fails with "no more responses" past the end, and the conversation sent is recorded. |
| AgentLoop.RunFromStop | pkg/agent/loop.go:75-191 | An iteration that stops ends the run with that iteration's state. |
| AgentLoop.RunFromNext | pkg/agent/loop.go:75-192 | An iteration that does not stop continues the run from the next iteration. |
| AgentLoopProperties.BatchPrefix | pkg/agent/loop.go:108-150 | A prefix of permitted, registered calls is executed in order. Its records and results are appended before the rest of the batch runs. |
| AgentLoopProperties.BatchCompletes | pkg/agent/loop.go:108-150 | When every call is permitted and registered, the batch completes with one record and one result per call, in order. |
| AgentLoopProperties.BatchStopsAtDenial | pkg/agent/loop.go:110-114 | The first denied call stops the batch. The calls before it have been executed and recorded; it and the rest have not. |
| AgentLoopProperties.BatchStopsAtMissingTool | pkg/agent/loop.go:117-122 | The first permitted call naming an unregistered tool stops the batch in the same way. |
| AgentLoopProperties.BatchAppendsRecords | pkg/agent/loop.go:149 | The audit list only grows. |
| AgentLoopProperties.IterationOutcome | pkg/agent/loop.go:76-191 | An iteration keeps the iteration count and only appends audit records. It either continues with the status unchanged or stops as failed with an error or as succeeded without one. |
| AgentLoopProperties.RunFromOutcome | pkg/agent/loop.go:75-196 | From any iteration the run ends failed with an error, succeeded, or at the iteration limit. |
| AgentLoopProperties.RunOutcome | pkg/agent/loop.go:53-196 | The status is one of succeeded, failed and max_iterations, and an error is returned exactly when it is failed. The iteration count never exceeds `MaxIterations` (0 when it is negative); a run at max_iterations used all of them, and any other run used at least one. |
| AgentLoopProperties.ConsumedSnoc | pkg/agent/loop.go:86-87 | Consuming one more provider reply adds its token counts, and only an answer's counts. |
| AgentLoopProperties.ReflectTokens | pkg/agent/loop.go:169-177 | The reflection call keeps the totals equal to the sums over the replies consumed so far. |
| AgentLoopProperties.IterationTokens | pkg/agent/loop.go:79-177 | An iteration keeps the totals equal to the sums over the replies consumed so far. |
| AgentLoopProperties.RunFromTokens | pkg/agent/loop.go:75-192 | The remaining iterations keep that accounting. |
| AgentLoopProperties.RunTokens | pkg/agent/loop.go:86-87 | The reported totals are exactly the sums of the tokens of every reply the run consumed, including the reflections (lines 176-177). |
| AgentLoopProperties.SendThenAppend | pkg/agent/loop.go:79-93 | Sending the conversation and then appending to it keeps the conversation append-only, and every sent conversation is a prefix of the final one. |
| AgentLoopProperties.AppendOnly | pkg/agent/loop.go:99-102 | Appending without sending keeps that invariant. |
| AgentLoopProperties.ReflectGrows | pkg/agent/loop.go:163-183 | The reflection step keeps the conversation append-only. |
| AgentLoopProperties.ActGrows | pkg/agent/loop.go:106-183 | The tool-call step keeps the conversation append-only. |
| AgentLoopProperties.IterationGrows | pkg/agent/loop.go:76-191 | One iteration keeps the conversation append-only. |
| AgentLoopProperties.RunFromGrows | pkg/agent/loop.go:75-192 | The remaining iterations keep the conversation append-only. |
| AgentLoopProperties.RunConversation | pkg/agent/loop.go:59-192 | Every conversation sent to the provider extends the initial messages, and each one extends the one before it. |
| AgentLoopProperties.FirstIterationActs | pkg/agent/loop.go:96-122 | A first answer with tool calls whose batch stops ends the run there. |
| AgentLoopProperties.ActCompletes | pkg/agent/loop.go:106-169 | A batch of permitted, registered calls appends one record per call and feeds back their results as one user message, then makes the reflection call. |
| AgentLoopProperties.ReflectSucceeds | pkg/agent/loop.go:168-191 | A reflection answer with no tool calls and stop reason end_turn ends the run as succeeded. It adds the answer's tokens and makes the answer the final response. |
| AgentLoopProperties.ToolCallsThenAnswerRun | pkg/agent/loop.go:76-191 | With permitted tool calls and then an end_turn reflection, the run ends after its first iteration, in exactly the state those two replies give. |
| AgentLoopProperties.ToolCallsThenAnswer | pkg/agent/loop.go:106-191 | Given permitted tool calls followed by a final end_turn answer, the run succeeds in one iteration. It records every call, reports the answer, adds both replies' tokens and sends two conversations. |
| AgentLoopProperties.DeniedToolCallFailsRun | pkg/agent/loop.go:110-114 | A denied call fails the run with "Policy violation for tool …" and returns "policy violation: …". It keeps the records of the calls before it. |
| AgentLoopProperties.MissingToolFailsRun | pkg/agent/loop.go:117-122 | An unregistered tool fails the run with "Tool not found: …" and returns "tool not found: …". |
| AgentLoopProperties.ProviderFailureFailsRun | pkg/agent/loop.go:79-84 | A provider failure in the first call fails the run with "LLM call failed: …" and returns the error. No tokens are counted, no calls are recorded, and only the initial conversation was sent. |
| AgentLoopProperties.RunFromChatsOnly | pkg/agent/loop.go:95-104 | Answers without tool calls never end the run before the iteration limit. |
| AgentLoopProperties.RunWithoutToolCalls | pkg/agent/loop.go:95-104 | If the model never calls a tool, the run ends at max_iterations after using every iteration, with no error. |
| AgentLoopProperties.SingleToolCallExample | pkg/agent/loop_test.go:54-111 | The source's single-tool-call run succeeds after one iteration. It has 300 input and 80 output tokens, one audit record carrying the stub tool's pods listing, and the final answer as its response. |
| Opa.PolicyInput | pkg/agent/opa.go:48-55 | The input document has the key "tool" plus every input key. Input fields win, and "tool" is the tool name unless the input has a "tool" field. |
| Opa.Decide | pkg/agent/opa.go:58-79 | The verdict permits exactly when the first result is the boolean true. Otherwise it denies with the source's message for an evaluation error, no result, a non-boolean result or false. |
| Opa.OpaPolicy.Initialize | pkg/agent/opa.go:19-43 | Compiles the `data.agent.tools.allow` query over module `agent.rego` and the optional data. A compile error gives "failed to compile policy: …" and keeps the old query; success stores the prepared query. |
| Opa.OpaPolicy.Allow | pkg/agent/opa.go:46-80 | The method gives the verdict of the prepared query on the call's input document. |
| Opa.VerdictIgnoresCallId | pkg/agent/opa.go:48-55 | Two calls with the same name and input get the same verdict. |
| Opa.InputFieldToolReplacesName | pkg/agent/opa.go:53-55 | An input field called "tool" overrides the tool name the policy sees. |
| Opa.NeverTrueDeniesAll | pkg/agent/opa.go:58-79 | The gate fails closed: a policy that never yields true denies every call. |
| V1alpha1.DonePhases | pkg/apis/agent/v1alpha1/agentrun_types.go:107-121 | Exactly Succeeded and Failed are done; the eight phases are distinct; the empty phase is not done. |
| V1alpha1.AgentRun.IsDone | pkg/apis/agent/v1alpha1/agentrun_types.go:118-121 | A run is done exactly when its phase is one of the last two phases, Succeeded and Failed. |
| V1alpha1.AgentRun.HasStarted | pkg/apis/agent/v1alpha1/agentrun_types.go:123-126 | A run has not started exactly when its status has no start time. |
| V1alpha1.ValidateObjectMeta | pkg/apis/agent/v1alpha1/agentconfig_validation.go:45-53 | Valid exactly when the name is non-empty and at most 253 long, with the source's messages. |
| V1alpha1.ValidateRunSpec | pkg/apis/agent/v1alpha1/agentrun_validation.go:22-32 | Valid exactly when configRef.name and goal are set, checked in that order. |
| V1alpha1.AgentRun.Validate | pkg/apis/agent/v1alpha1/agentrun_validation.go:9-19 | Valid exactly when the name is valid, the namespace is set and the spec is valid. Metadata errors are prefixed with "metadata: ". |
| V1alpha1.AgentRun.SetDefaults | pkg/apis/agent/v1alpha1/agentrun_defaults.go:8-22 | An empty phase becomes Pending, and nothing else in the status changes. |
| V1alpha1.ValidateConfigSpec | pkg/apis/agent/v1alpha1/agentconfig_validation.go:19-42 | Valid exactly when configPVC is set, maxIterations is in 0..10, and provider, networkPolicy and policy.opa are each unset or one of their two values. The first failing check's message is returned. |
| V1alpha1.Defaulted | pkg/apis/agent/v1alpha1/agentconfig_defaults.go:10-49 | Each unset field gets its default: "default", 3, 8 minutes, "claude", "strict" and "strict". Set fields, configPVC and the hooks are kept. |
| V1alpha1.DefaultedComplete | pkg/apis/agent/v1alpha1/agentconfig_defaults.go:25-49 | After defaulting no defaulted field is unset, and defaulting again changes nothing. |
| V1alpha1.DefaultsKeepValid | pkg/apis/agent/v1alpha1/agentconfig_defaults.go:25-49 | Defaulting a valid spec gives a valid spec with maxIterations in 1..10 and every enumerated field set. |
| V1alpha1.DefaultsKeepVerdict | pkg/apis/agent/v1alpha1/agentconfig_validation.go:19-42 | Defaulting never changes the validation result. |
| V1alpha1.AgentConfig.Validate | pkg/apis/agent/v1alpha1/agentconfig_validation.go:11-16 | Valid exactly when the metadata and the spec are. Metadata errors are prefixed with "metadata: ". |
| V1alpha1.AgentConfig.SetDefaults | pkg/apis/agent/v1alpha1/agentconfig_defaults.go:20-22 | The spec is replaced by its defaulted form. |
| Kube.ControllerRef | pkg/security/rbac.go:19-21 | The owner reference names the AgentRun's group/version, kind, name and UID, with controller and blockOwnerDeletion set. |
| Security.RoleName | pkg/security/rbac.go:87-90 | The Role name is "agentrun-" followed by the run's name; the namespace plays no part. |
| Security.RoleBindingName | pkg/security/rbac.go:92-95 | The RoleBinding's name is the Role's name. |
| Security.RoleNameInjective | pkg/security/rbac.go:88-95 | The Role name determines the run's name (not its namespace). |
| Security.GenerateRole | pkg/security/rbac.go:12-51 | The Role is named after the run, lives in its namespace, carries the agent labels and the controller reference, and grants only get/list/watch. |
| Security.RoleGrantsExactly | pkg/security/rbac.go:28-48 | The Role grants a verb on a resource exactly for get/list/watch on core pods, services, endpoints and events and apps deployments, replicasets, statefulsets and daemonsets. |
| Security.GenerateRoleBinding | pkg/security/rbac.go:54-85 | The binding is named after the run and binds the given Role to the config's service account in the run's namespace. |
| Security.BindingMatchesRole | pkg/security/rbac.go:54-85 | The generated binding refers to the generated Role, in the same namespace, for exactly one subject. |
| PodBuilder.PodName | pkg/pod/builder.go:18 | The pod name is the run's name followed by "-agent". |
| PodBuilder.Lookup | pkg/pod/builder.go:45-70 | A variable is found exactly when the environment defines it. |
| PodBuilder.LookupFirst | pkg/pod/builder.go:45-70 | The first definition of a name is the one found. |
| PodBuilder.Builder.PodSecurity | pkg/pod/builder.go:80-93 | The pod runs as non-root UID/GID 65532 with the runtime-default seccomp profile. |
| PodBuilder.Builder.ContainerSecurity | pkg/pod/builder.go:95-111 | No privilege escalation, a read-only root filesystem, non-root, all capabilities dropped, and runtime-default seccomp. |
| PodBuilder.Builder.VolumeMounts | pkg/pod/builder.go:113-131 | Three mounts: config and secrets read-only, data writable, and data is the only writable one. |
| PodBuilder.Builder.Volumes | pkg/pod/builder.go:133-174 | The prompts ConfigMap with its three keys, the scratch emptyDir, and the API-key Secret. |
| PodBuilder.Builder.Env | pkg/pod/builder.go:45-70 | Six variables (the run's name, UID, namespace and goal, the config's name, and the provider), no two with the same name. |
| PodBuilder.Builder.Build | pkg/pod/builder.go:17-78 | The pod is named `<run>-agent` in the run's namespace, labelled and owned by the run, runs under the config's service account, and never restarts. It has one hardened container of the builder's image. Its volumes and mounts are exactly `Volumes` and `VolumeMounts`, no two volumes share a name, and every mount resolves to one of them. |
| PodBuilder.EnvIdentifiesRun | pkg/pod/builder.go:45-70 | The container finds the run's name, UID, namespace and goal, the config's name, and the provider in its environment. |
| PodBuilder.OnlyScratchIsWritable | pkg/pod/builder.go:113-174 | The only writable mount of the built pod is the data emptyDir. |
| Cluster.Insert | pkg/reconciler/agentrun/agentrun.go:112-114 | A create succeeds exactly when there is no fault and the key is new. It then adds the object; otherwise nothing changes and the error is the fault or AlreadyExists. |
| Cluster.Fetch | pkg/reconciler/agentrun/agentrun.go:75-83 | A get finds exactly the stored object. A missing key is NotFound; a fault is reported as such. |
| Cluster.InsertKeeps | pkg/reconciler/agentrun/agentrun.go:112-114 | A create never changes or removes another object. |
| Cluster.ApiServer.CreateRole | pkg/reconciler/agentrun/agentrun.go:112 | Creating a Role updates only the Roles, as `Insert` says. |
| Cluster.ApiServer.CreateRoleBinding | pkg/reconciler/agentrun/agentrun.go:121 | Creating a RoleBinding updates only the bindings, as `Insert` says. |
| Cluster.ApiServer.CreatePod | pkg/reconciler/agentrun/agentrun.go:141 | Creating a pod updates only the pods, as `Insert` says. |
| Cluster.ApiServer.GetPod | pkg/reconciler/agentrun/agentrun.go:75 | Reading a pod answers as `Fetch` says and changes nothing. |
| Reconcile.ReconcileSpec | pkg/reconciler/agentrun/agentrun.go:24-53 | A done run and the cluster are left as they are, without error. Otherwise a missing config is an error and changes no cluster object. |
| Reconcile.Reconciler.Reconcile | pkg/reconciler/agentrun/agentrun.go:24-53 | The new status, the new cluster contents and the error equal `ReconcileSpec`'s. |
| Reconcile.Reconciler.GetAgentConfig | pkg/reconciler/agentrun/agentrun.go:149-157 | Finds the config named by configRef, or none. |
| Reconcile.Reconciler.HandlePending | pkg/reconciler/agentrun/agentrun.go:55-70 | Equals `PendingSpec`. |
| Reconcile.Reconciler.HandleActing | pkg/reconciler/agentrun/agentrun.go:72-105 | Equals `ActingSpec`, and only the run changes. |
| Reconcile.Reconciler.CreateRbac | pkg/reconciler/agentrun/agentrun.go:107-127 | Equals `CreateRbacSpec`. |
| Reconcile.Reconciler.CreateAgentPod | pkg/reconciler/agentrun/agentrun.go:129-147 | Equals `CreatePodSpec`. |
| ReconcileProperties.DoneRunIsLeftAlone | pkg/reconciler/agentrun/agentrun.go:26-28 | A finished run is returned unchanged, with the cluster untouched and no error. |
| ReconcileProperties.MissingConfigChangesNothing | pkg/reconciler/agentrun/agentrun.go:31-34 | A missing config gives "failed to get AgentConfig: AgentConfig "<name>" not found" and changes nothing. |
| ReconcileProperties.RunKeysInjective | pkg/security/rbac.go:88-95 | Two runs whose Roles, or whose agent pods, would have the same namespace and name are the same run (same name and namespace). |
| ReconcileProperties.InsertGrows | pkg/reconciler/agentrun/agentrun.go:112-114 | A create adds at most the given key. |
| ReconcileProperties.CreateRbacOnlyAdds | pkg/reconciler/agentrun/agentrun.go:107-127 | RBAC creation only adds the run's Role and RoleBinding. |
| ReconcileProperties.CreatePodOnlyAdds | pkg/reconciler/agentrun/agentrun.go:129-147 | Pod creation only adds the run's pod. |
| ReconcileProperties.OnlyAddsTrans | pkg/reconciler/agentrun/agentrun.go:55-70 | Steps that only add the run's objects compose. |
| ReconcileProperties.PendingOnlyAdds | pkg/reconciler/agentrun/agentrun.go:55-70 | The Pending handler only adds the run's objects. |
| ReconcileProperties.ReconcileOnlyAdds | pkg/reconciler/agentrun/agentrun.go:24-147 | Reconcile never deletes or modifies an existing object, and adds only the run's Role, RoleBinding and pod. |
| ReconcileProperties.PendingStatus | pkg/reconciler/agentrun/agentrun.go:55-70 | The Pending handler either fails with the status unchanged or moves to Acting. |
| ReconcileProperties.RbacFailureStopsPending | pkg/reconciler/agentrun/agentrun.go:55-64 | A Role create failure leaves the cluster unchanged. A RoleBinding create failure leaves bindings and pods unchanged. Either way the status is unchanged and the error is "failed to create RBAC: failed to create role/rolebinding: <cause>". |
| ReconcileProperties.RbacFailureCreatesNoPod | pkg/reconciler/agentrun/agentrun.go:43-64 | A Pending run whose Role or RoleBinding create fails gets no pod, an error, and stays Pending. |
| ReconcileProperties.ActingStatus | pkg/reconciler/agentrun/agentrun.go:72-105 | The Acting handler never touches the cluster. It keeps the status, goes back to Pending, or completes as Succeeded or Failed stamped with the current time. |
| ReconcileProperties.ActingGetFault | pkg/reconciler/agentrun/agentrun.go:73-83 | A pod read that fails with anything but NotFound gives "failed to get agent pod: <cause>", with the status and the cluster unchanged. |
| ReconcileProperties.ActingGetFaultKeepsActing | pkg/reconciler/agentrun/agentrun.go:43-83 | A reconcile pass over an Acting run whose pod cannot be read leaves the run Acting and the cluster unchanged, with that error. |
| ReconcileProperties.ReconcileStatus | pkg/reconciler/agentrun/agentrun.go:24-105 | Several facts about each reconcile: see below. |
| ReconcileProperties.CreateRbacWithoutFaults | pkg/reconciler/agentrun/agentrun.go:107-127 | Without API faults the run's Role and RoleBinding exist afterwards; new ones are exactly the generated objects. |
| ReconcileProperties.CreatePodWithoutFaults | pkg/reconciler/agentrun/agentrun.go:129-147 | Without API faults the run's pod exists afterwards; a new one is exactly the built pod. |
| ReconcileProperties.PendingWithoutFaultsActs | pkg/reconciler/agentrun/agentrun.go:44-45 | Without faults a Pending run moves to Acting with its Role, binding and pod in place. |
| ReconcileProperties.ActingFollowsPod | pkg/reconciler/agentrun/agentrun.go:72-105 | An Acting run follows its pod: missing means back to Pending, succeeded or failed means the matching completion stamped now, and anything else means unchanged. |
| ReconcileProperties.Lifecycle | pkg/reconciler/agentrun/agentrun.go:24-105 | From an empty cluster the run goes Pending → Acting, stays Acting while the pod runs, becomes Succeeded when the pod succeeds, and is then left alone. |
| Claude.Client.ConvertMessages | pkg/providers/claude/client.go:157-180 | The loop drops system messages, which leaves the last one as the system prompt, and wraps every other message as one text block. |
| Claude.Client.ConvertResponse | pkg/providers/claude/client.go:183-206 | The loop concatenates the text blocks, turns each tool_use block into a tool call in order, and copies the stop reason and the token counts. |
| Claude.Client.Request | pkg/providers/claude/client.go:88-102 | The request uses the client's model, max tokens and tools, and the system prompt. No wire message has the system role. |
| Claude.Client.Call | pkg/providers/claude/client.go:86-154 | A transport failure gives "request failed: …", a read failure "failed to read response: …", a non-200 status "API error (status N): body", and a decode failure "failed to parse response: …". Otherwise the result is the converted response. |
| Claude.NewClient | pkg/providers/claude/client.go:209-218 | The default model and 4096 max tokens, with no tools. |
| Claude.WireHasNoSystem | pkg/providers/claude/client.go:161-166 | No system message ever reaches the message list. |
| Claude.WireRoundTrip | pkg/providers/claude/client.go:161-177 | Unwrapping the wire messages gives back exactly the non-system messages, in order. |
| Claude.SystemPromptIsLast | pkg/providers/claude/client.go:162-165 | The system prompt sent is the last system message's content. |
| Claude.NoSystemPrompt | pkg/providers/claude/client.go:159 | Without system messages the system prompt is empty. |
| Claude.TextOfAppend | pkg/providers/claude/client.go:194-195 | The text of a response is the concatenation of its parts' texts. |
| Claude.ToolUsesAppend | pkg/providers/claude/client.go:196-201 | The tool calls of a response are the concatenation of its parts' calls. |
| Claude.ToolUsesExactly | pkg/providers/claude/client.go:192-203 | A tool call is returned exactly when some tool_use block carries it. |
| Claude.NoToolUseNoCalls | pkg/providers/claude/client.go:188-203 | A response without tool_use blocks yields no tool calls. |
| Claude.TextThenToolUse | pkg/providers/claude/client.go:192-203 | A text block followed by a tool_use block gives that text and that one call. |
| Fmt.Itoa | pkg/providers/claude/client.go:143 | Go's `%d`: a leading minus sign exactly for negative numbers, then only digits, so never a slash. |
| Fmt.ItoaRoundTrip | pkg/providers/claude/client.go:143 | The decimal rendering of `%d` is inverted by parsing, for every integer. |
| Fmt.ItoaInjective | pkg/providers/claude/client.go:143 | Distinct integers render differently. |
| Fmt.RatioInjective | pkg/tools/k8s/get_resources.go:117 | An "a/b" ratio determines both numbers. |
| Values.Capped | pkg/tools/k8s/get_logs.go:40-64 | A numeric option is its default when absent, its value when at most the cap, and the cap otherwise. |
| GetLogsTool.Request | pkg/tools/k8s/get_logs.go:25-71 | "namespace is required" is checked first, then "pod is required", and the request is made exactly when both are non-empty strings. The container defaults to empty; tail lines and look-back default to and are capped at 500 and 900. |
| GetLogsTool.GetLogs.Execute | pkg/tools/k8s/get_logs.go:23-88 | Input errors are returned as is, stream and read failures are prefixed, and otherwise the logs are returned. |
| GetLogsTool.RequestRoundTrip | pkg/tools/k8s/get_logs.go:25-71 | Every request within the caps comes from some input and is sent unchanged. |
| GetLogsTool.DefaultWindow | pkg/tools/k8s/get_logs.go:35-64 | Naming only the namespace and pod asks for 500 lines over 15 minutes from the default container. |
| GetResourcesTool.Wrap32 | pkg/tools/k8s/get_resources.go:98-105 | Go int32 arithmetic: the result is in range, the identity on values in range, and congruent mod 2^32. |
| GetResourcesTool.ReadyCount | pkg/tools/k8s/get_resources.go:96-105 | Never more ready containers than containers. |
| GetResourcesTool.Summarize | pkg/tools/k8s/get_resources.go:96-105 | The container loop yields the ready count and the int32 restart total. |
| GetResourcesTool.PortTexts | pkg/tools/k8s/get_resources.go:214-217 | One "port/protocol" text per port, in order. |
| GetResourcesTool.TruncateAsWritten | pkg/tools/k8s/get_resources.go:89-91 | The source's truncation fails exactly for a negative limit. Otherwise it keeps a prefix of min(limit, n) items. |
| GetResourcesTool.Truncate | pkg/tools/k8s/get_resources.go:87-91 | The corrected truncation: a prefix of min(limit, n) items, and none for a negative limit. |
| GetResourcesTool.Query | pkg/tools/k8s/get_resources.go:25-49 | "namespace is required" is checked first, then "resourceType is required"; the label selector defaults to empty; the limit defaults to and is capped at 100. |
| GetResourcesTool.GetResources.Execute | pkg/tools/k8s/get_resources.go:23-295 | The method, with its per-item loops, computes `ExecuteSpec`: the listing of the requested kind, truncated and summarised, or the list error, or the invalid-type error. |
| GetResourcesTool.GetResources.PodRows | pkg/tools/k8s/get_resources.go:93-121 | One summary row per pod, in order. |
| GetResourcesTool.GetResources.WorkloadRows | pkg/tools/k8s/get_resources.go:156-175 | One summary row per deployment or replica set, in order. |
| GetResourcesTool.GetResources.ServiceRows | pkg/tools/k8s/get_resources.go:212-233 | One summary row per service, with its port texts. |
| GetResourcesTool.WrapAdd | pkg/tools/k8s/get_resources.go:103 | Wrapping after each addition equals wrapping once at the end. |
| GetResourcesTool.RestartsWrapAround | pkg/tools/k8s/get_resources.go:98-105 | The reported restarts are the true total wrapped to int32, and exact when the total fits. |
| GetResourcesTool.ReadyReadsBack | pkg/tools/k8s/get_resources.go:117 | The "ready/total" text determines both counts. |
| GetResourcesTool.ReplicasReadBack | pkg/tools/k8s/get_resources.go:158-161 | The "ready/desired" text determines both counts when replicas are set. An unset count reads like "0/0". |
| GetResourcesTool.PortTextReadsBack | pkg/tools/k8s/get_resources.go:216 | The "port/protocol" text determines the port. |
| GetResourcesTool.ListingIsBoundedPrefix | pkg/tools/k8s/get_resources.go:66-295 | A listing has at most 100 rows. For pods, deployments, services and replica sets alike it has exactly min(limit, listed) rows (none for a negative limit), and row i summarises the i-th object listed. |
| GetResourcesTool.UnknownTypeRejected | pkg/tools/k8s/get_resources.go:61-62 | An unknown resource type is rejected with the invalid-type message whatever the cluster holds. |
| GetResourcesTool.DeploymentReplicasExample | pkg/tools/k8s/get_resources_test.go:119-157 | A deployment with 3 desired and 2 ready replicas reads "2/3". |
| GetResourcesTool.NegativeLimitPanics | pkg/tools/k8s/get_resources.go:40-49 | The as-written finding: the input `limit: -1` passes parsing, and the source's `items[:limit]` is then out of range. |
| GetResourcesTool.TruncateAgreesOtherwise | pkg/tools/k8s/get_resources.go:88-91 | For non-negative limits the corrected truncation is the source's. |
| CreatePipelineRunTool.ParamOf | pkg/tools/tekton/create_pipelinerun.go:78-100 | A param must be an object, then have a string name, then a string value. Each failure has the source's message; success copies both. |
| CreatePipelineRunTool.WorkspaceOf | pkg/tools/tekton/create_pipelinerun.go:111-138 | A workspace must be an object with a string name. A string pvcName becomes the claim, and emptyDir is set only by a true boolean. |
| CreatePipelineRunTool.DecodeErrorPersists | pkg/tools/tekton/create_pipelinerun.go:78-101 | Once an element fails, the whole list fails with that error. |
| CreatePipelineRunTool.DecodeAllMeaning | pkg/tools/tekton/create_pipelinerun.go:78-101 | A list decodes exactly when every element does, giving the elements in order; otherwise the error is the first failing element's. |
| CreatePipelineRunTool.DecodeField | pkg/tools/tekton/create_pipelinerun.go:72-76 | An absent field is empty, a non-array is rejected with the field's message, and an array is decoded element by element. |
| CreatePipelineRunTool.CreatePipelineRun.Owners | pkg/tools/tekton/create_pipelinerun.go:60-69 | One non-controller AgentRun owner reference when both name and UID are known, and none otherwise. |
| CreatePipelineRunTool.CreatePipelineRun.Planned | pkg/tools/tekton/create_pipelinerun.go:31-140 | The required fields are checked in order namespace, name, pipelineName, and the PipelineRun carries them, the owners, and the decoded params and workspaces. |
| CreatePipelineRunTool.CreatePipelineRun.DecodeEach | pkg/tools/tekton/create_pipelinerun.go:78-101 | The loop with its early return computes `DecodeAll`. |
| CreatePipelineRunTool.CreatePipelineRun.Execute | pkg/tools/tekton/create_pipelinerun.go:29-149 | Input errors are returned, a create failure is prefixed "failed to create PipelineRun: ", and success reports "PipelineRun ns/name created successfully" from the created object. |
| CreatePipelineRunTool.DecodeParamInputs | pkg/tools/tekton/create_pipelinerun.go:78-101 | Encoding params as input objects and decoding them gives them back. |
| CreatePipelineRunTool.DecodeWorkspaceInputs | pkg/tools/tekton/create_pipelinerun.go:111-138 | Encoding workspaces and decoding them gives them back. |
| CreatePipelineRunTool.PlannedRoundTrip | pkg/tools/tekton/create_pipelinerun.go:31-140 | Every PipelineRun with non-empty names and the tool's owners is what its own input plans. |
| CreatePipelineRunTool.ParamsAreTheInputs | pkg/tools/tekton/create_pipelinerun.go:72-101 | The planned params are exactly the input's param objects, one for one. |
| CreatePipelineRunTool.OwnedOnlyWhenKnown | pkg/tools/tekton/create_pipelinerun.go:60-69 | A planned run has one owner exactly when the AgentRun's name and UID are known, and it names that AgentRun. |

`ReconcileProperties.ReconcileStatus` states these facts about each reconcile:
- The phase moves only along the controller's transitions.
- A finished run is unchanged.
- An error keeps the phase.
- A set start time is kept, and it is set once a config is found.
- The completion time changes only when the run finishes, and then it is the current time.
- Iterations and results are kept.

## Left out

- **The Go runtime and the surrounding environment.**
  - Context cancellation, logging and the `cmd/` entry points are not part of this model. The same goes for the
    controller's event plumbing and status conditions, and the informer-backed listers.
  - The current time and the Kubernetes API server are parameters. The API server is the in-memory `ApiServer`
    with per-call faults, and the tools' list and create calls are functions.
- **The Claude client.**
  - HTTP is a parameter (`Transport`): request building, headers, the 60-second client timeout and the body read.
  - JSON marshalling and unmarshalling are also left to that parameter. So are the "failed to marshal request" and
    "failed to create request" errors, which a well-formed request never produces.
  - The floating-point `Temperature` and `TopP` fields are not modelled.
- **The Rego engine.** The OPA engine is a parameter: compilation (`Compiler`) and evaluation (`Evaluator`). The
  model does not interpret Rego.
- **JSON values and strings.**
  - Numbers are integers: `Int(n)` stands for the `int64` that `int64(float64)` yields for a JSON number
    (get_resources.go:41-42, get_logs.go:41-42 and 54-55). In range, that is the truncated value.
  - Outside int64's range, Go's conversion is implementation-dependent; on amd64, `1e19` becomes -2^63. The model
    cannot express such a number, so an input like `"limit": 1e19` is not modelled. In the source it passes the
    cap of 100 as a negative limit and reaches the same panic as `-1` (see Findings). Likewise `"tailLines": 1e19`
    is sent as a negative count rather than 500.
  - get_logs also accepts Go `int64`, while get_resources does not. That difference is not visible on integer
    values.
  - Name lengths count characters, not UTF-8 bytes.
- **Tool rendering and registration.**
  - The tools' JSON rendering (`json.MarshalIndent`) and its "failed to marshal output" error are left to a
    `render` parameter.
  - Tool names are constants only.
  - The age text is "unknown" without a creation timestamp and otherwise that timestamp's text, taken as given.
- **ListOptions.** The `ListOptions.Limit` and label-selector semantics of the real API server belong to the list
  parameter. The model only truncates the list as the tool does.
- **AgentConfig and AgentRun fields.**
  - `AgentRunSpec.SetDefaults` is a no-op in the source and needs no model.
  - Hints, context, results and iterations are carried but never computed.
  - `configPVC` is validated, but the pod builder does not use it; it mounts the `agent-prompts` ConfigMap. The model
    follows the builder.
- **Owner references.**
  - The tool's owner reference leaves `controller` and `blockOwnerDeletion` unset, which the model writes as false.
  - The `metav1.NewControllerRef` reference sets both to true.
- **Permissive decoding.**
  - A workspace may receive both a claim and an emptyDir, and param names may be empty. The model keeps both
    behaviours, as the code does.
  - The validator's comment calls maxIterations optional "in range 1-10", but the code accepts 0..10 and its
    message says "between 0 and 10". The model follows the code.
- **Printf quoting.** `%q` quoting of the config name is modelled as plain double quotes, which is exact for names
  without quotes or escapes.
- GetResourcesTool.GetResources.Execute uses the corrected `Truncate` rather than the panicking `items[:limit]`.
  For a negative `limit` it returns no rows instead of crashing (see Findings).

## Findings

| source | as written | input that shows it | evidently intended | confidence | as-written member | corrected member |
|---|---|---|---|---|---|---|
| pkg/tools/k8s/get_resources.go:88-91 (also 151-154, 207-210, 263-266) | `limit` is only capped from above (lines 47-49). A negative limit makes `int64(len(items)) > limit` true, and `items[:limit]` then slices with a negative bound, which panics. | `{"namespace": "default", "resourceType": "pods", "limit": -1}` with any listing (shown by `NegativeLimitPanics`); on amd64 also `"limit": 1e19`, which `int64` conversion turns negative | return at most max(limit, 0) items, or reject a negative limit (proved for `Truncate` by `ListingIsBoundedPrefix`; `TruncateAgreesOtherwise` shows nothing else changes) | medium, not executed | GetResourcesTool.TruncateAsWritten | GetResourcesTool.Truncate |
