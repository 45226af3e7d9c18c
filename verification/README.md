# cdktr core, modelled in Dafny

cdktr is a workflow scheduler. A principal process keeps the workflows
defined in YAML files, the agents that have registered with it, and a queue
of workflows staged to run. Agents ask the principal for work over
request/reply sockets. They run each workflow's task graph in dependency
order and publish log lines. A cron scheduler stages workflows when their
next run comes due. A terminal UI shows the workflows, their logs and an
admin view, driven by key presses through stores that change only in
response to actions.

This project models that core module by module:

- **Wire formats.** `EscapeCodec` is the escape-aware tokenizer and encoder for
  delimiter-separated commands. The delimiter is a parameter: the api crate
  uses the start-of-heading character and the core crate uses '|'.
  `ApiPrincipal` and `LegacyPrincipal` are the two request protocols.
  `Replies` holds the reply messages. `Tasks` is the task definition.
  `LogMessages` is the log line. `CoreModels` holds the argument queue,
  the run statuses and the per-agent record. `InstanceIds` handles
  `host-port` identifiers.
- **Principal.** `DataStructures` holds the FIFO queue and the agent
  priority queue. `LegacyHandlers` and `PrincipalHandlers` are the request
  handlers. `Principal` (in `PrincipalServer.dfy`) is the server that
  dispatches one client command at a time.
- **Workflows.** `Graphs` is reachability and the cycle check of the DAG
  library. `WorkflowModels` is the task graph and the `Workflow` record.
  `Workflows` derives workflow ids and store keys from file paths.
  `TaskTracker` is the agent's ready queue and dependency list.
  `Scheduler` is the cron scheduler over its heap of next run times.
- **Terminal UI.** `TuiActions` holds the actions and key events. `UiStore`,
  `LogsStore`, `AppLogsStore`, `WorkflowsStore` and `LogViewerStore` are the
  stores. `Keyboard` maps keys to actions. `InputBox`, `DataPane`,
  `ControlPanel`, `Logger`, `AdminPanel` and `LogViewerModal` are the
  widgets and what they draw.
- **Shared.** `RustInts` models Rust's integer parsing, `Display` and
  wrapping casts. `Strings` models `split` and `join`. `Errors` holds the
  error type. `Wrappers` holds `Option` and `Result`.

Modelling conventions:

- A Rust struct whose methods update it through `&mut self` is a class with
  `modifies` clauses. Each method is proved against a function on the
  class's state, and the properties are proved about that function.
- A call that holds a lock, or one `async` call, is one atomic step.
- A panic (`unwrap`, `expect`, an out-of-range index) is an explicit error
  or `None` outcome. The only exception is a requires where the source
  plainly demands it of its callers.
- Strings are sequences of characters. `usize` and `u16` values are
  unbounded naturals, except where the source's wrap-around is modelled
  explicitly.
- These are parameters of the operations that use them:
  - the cron library (validating an expression, finding the next fire time);
  - the clock (`Utc::now`);
  - the time formatter and parser;
  - JSON serialisation.

## Model

| member | source | states |
|---|---|---|
| EscapeCodec.Finish | crates/cdktr-core/src/utils/mod.rs:37-42 | after the loop the last token is always emitted, so one more token than those finished |
| EscapeCodec.Tokens | crates/cdktr-core/src/utils/mod.rs:8-43 | the tokenizer always yields at least one token |
| EscapeCodec.Tokenize | crates/cdktr-core/src/utils/mod.rs:8-43 | the escape-flag loop computes exactly the tokens of the character-by-character scanner, at least one |
| EscapeCodec.Encode | crates/cdktr-core/src/utils/mod.rs:48-62 | the encoder loop (escape, append a delimiter per argument, pop the last character) yields the framed arguments without the final delimiter |
| EscapeCodec.AppendEscaped | crates/cdktr-core/src/utils/mod.rs:51-57 | the inner loop appends the argument with every delimiter and backslash prefixed by a backslash |
| EscapeCodec.RunEscape | crates/cdktr-core/src/utils/mod.rs:13-22 | scanning an escaped argument appends exactly that argument to the current token and leaves no escape pending |
| EscapeCodec.RunFramed | crates/cdktr-core/src/utils/mod.rs:27-30 | scanning escaped, delimiter-terminated arguments emits each as one token, in order |
| EscapeCodec.TokensOfEncoded | crates/cdktr-core/src/utils/mod.rs:45-62 | round trip: tokenizing the encoding of any non-empty argument list gives the list back, whatever characters it holds |
| EscapeCodec.EmptyListRoundTrip | crates/cdktr-core/src/utils/mod.rs:41 | the empty list encodes to `""`, which tokenizes to `[""]`, so the round trip needs a non-empty list |
| EscapeCodec.EncodedJoins | crates/cdktr-core/src/utils/mod.rs:58-60 | the escaped arguments are joined by single delimiters with no trailing delimiter |
| EscapeCodec.TokensSplitAtDelimiter | crates/cdktr-core/src/utils/mod.rs:27-30 | an unescaped delimiter ends the current token |
| EscapeCodec.TokensOfEscape | crates/cdktr-core/src/utils/mod.rs:13-22 | a backslash before the delimiter yields the delimiter; before any other character it yields one backslash and drops that character |
| EscapeCodec.TokensOfTrailingBackslash | crates/cdktr-core/src/utils/mod.rs:37-40 | a trailing lone backslash is kept in the last token |
| EscapeCodec.EscapePlain | crates/cdktr-core/src/utils/mod.rs:51-57 | text with neither delimiter nor backslash is copied unescaped |
| EscapeCodec.EncodedPlain | crates/cdktr-core/src/utils/mod.rs:48-62 | for plain arguments the encoding is the plain join with the delimiter |
| EscapeCodec.TokensOfPlainJoin | crates/cdktr-core/src/utils/mod.rs:8-43 | joining plain arguments with the delimiter and tokenizing gives them back |
| EscapeCodec.RunBackslashFree | crates/cdktr-core/src/utils/mod.rs:23-35 | without backslashes the scanner is a plain split on the delimiter |
| EscapeCodec.EncodedTokensBackslashFree | crates/cdktr-core/src/utils/mod.rs:8-62 | a backslash-free string survives tokenizing then encoding unchanged |
| CoreModels.FlowResultText | crates/cdktr-core/src/models/mod.rs:18-27 | the message for a crash or failure, the empty string for success |
| CoreModels.ParseStatus | crates/cdktr-core/src/models/mod.rs:52-68 | exactly the six status names are accepted, each as the status whose name it is; anything else is a parse error quoting the text |
| CoreModels.StatusRoundTrip | crates/cdktr-core/src/models/mod.rs:52-80 | every status parses back from its name |
| CoreModels.StatusNamePlain | crates/cdktr-core/src/models/mod.rs:69-80 | status names hold neither delimiter nor backslash, so each travels as one token |
| CoreModels.ZmqArgs.FromTokens | crates/cdktr-core/src/models/mod.rs:133-145 | the queue holds the given tokens in order |
| CoreModels.ZmqArgs.FromString | crates/cdktr-core/src/models/mod.rs:117-124 | the queue holds the tokenizer's tokens of the text, at least one |
| CoreModels.ZmqArgs.Next | crates/cdktr-core/src/models/mod.rs:93-95 | FIFO: removes and returns the front token, `None` with nothing left |
| CoreModels.ZmqArgs.Put | crates/cdktr-core/src/models/mod.rs:96-98 | FIFO: appends at the back |
| CoreModels.ZmqArgs.ToString | crates/cdktr-core/src/models/mod.rs:102-115 | the encoder's text of the remaining tokens, which tokenizes back to them |
| CoreModels.ArgsTextRoundTrip | crates/cdktr-core/src/models/mod.rs:111-124 | backslash-free text read into a queue prints back unchanged |
| CoreModels.AgentMeta.IncRunningTasks | crates/cdktr-core/src/models/mod.rs:189-191 | one more running task, id and timestamp unchanged |
| CoreModels.AgentMeta.DecRunningTasks | crates/cdktr-core/src/models/mod.rs:192-196 | one fewer running task, a no-op at zero, id and timestamp unchanged |
| CoreModels.AgentMeta.UpdateTimestamp | crates/cdktr-core/src/models/mod.rs:179-181 | only the heartbeat timestamp changes |
| CoreModels.NewAgentMeta | crates/cdktr-core/src/models/mod.rs:168-174 | a new agent has the given id and timestamp and no running tasks |
| CoreModels.IncThenDec | crates/cdktr-core/src/models/mod.rs:189-196 | decrementing undoes incrementing |
| Tasks.TaskTokens | crates/cdktr-core/src/models/task.rs:19-26 | the tokens start with `PROCESS` and the command |
| Tasks.ToString | crates/cdktr-core/src/models/task.rs:17-31 | the token loop then a `|` join, no escaping |
| Tasks.ParseTask | crates/cdktr-core/src/models/task.rs:32-62 | succeeds iff there are at least two tokens and the first is `PROCESS`, and then the task's tokens are the input; no tokens, a wrong type tag and a missing command each give their own error; a parsed argument list is never empty |
| Tasks.TryFromArgs | crates/cdktr-core/src/models/task.rs:32-62 | popping from the queue gives the same result as the token-list parser |
| Tasks.TaskRoundTrip | crates/cdktr-core/src/models/task.rs:17-69 | a task with delimiter-free fields reads back as itself, except that an empty argument list comes back as none |
| InstanceIds.ArgStrToVec | cdktr/crates/cdktr-core/src/utils/mod.rs:5-7 | one more token than there are pipes, none holds a pipe, and joining them with pipes gives the text back |
| InstanceIds.GetInstanceId | cdktr/crates/cdktr-core/src/utils/mod.rs:9-16 | the host, a dash, then the port in decimal |
| InstanceIds.SplitInstanceId | cdktr/crates/cdktr-core/src/utils/mod.rs:18-28 | an id without a dash panics for want of a port segment; otherwise the host and port are the first two dash-separated segments, the second read as a `usize`, and the bad-port panic happens exactly when that segment does not parse; further segments are ignored |
| InstanceIds.InstanceIdRoundTrip | cdktr/crates/cdktr-core/src/utils/mod.rs:9-28 | splitting a built id gives back host and port exactly when the host has no dash |
| ApiPrincipal.CreateRunTaskPayload | crates/cdktr-api/src/principal.rs:333-349 | succeeds iff a token is present, and then yields it verbatim; otherwise "Request is missing task_id" |
| ApiPrincipal.OptionalTimestamp | crates/cdktr-api/src/principal.rs:147-153 | an empty field is absent, a non-empty one must read as a `u64`, and the parse fails exactly when it does not |
| ApiPrincipal.OptionalText | crates/cdktr-api/src/principal.rs:167-175 | an empty field is absent, anything else is kept verbatim |
| ApiPrincipal.ParseWorkflowStatus | crates/cdktr-api/src/principal.rs:85-109 | a parsed workflow status update carries the first three tokens verbatim and needs four; every failure is a parse error |
| ApiPrincipal.ParseTaskStatus | crates/cdktr-api/src/principal.rs:110-140 | a parsed task status update carries the first four tokens verbatim and needs five; every failure is a parse error |
| ApiPrincipal.ParseQueryLogs | crates/cdktr-api/src/principal.rs:145-205 | a parsed log query needs four tokens; every failure is a parse error |
| ApiPrincipal.ParseApi | crates/cdktr-api/src/principal.rs:69-214 | an empty list is "Empty message", an unknown keyword is named in the error; a parsed command has the first token as its keyword, at least its arity of further tokens, and its string fields taken verbatim from them |
| ApiPrincipal.ApiTokens | crates/cdktr-api/src/principal.rs:257-307 | a command is written as its keyword first |
| ApiPrincipal.ToText | crates/cdktr-api/src/principal.rs:257-307 | for a well-formed command the text tokenizes back into the written tokens |
| ApiPrincipal.KeywordPlain | crates/cdktr-api/src/principal.rs:257-307 | keywords hold neither delimiter nor backslash |
| ApiPrincipal.TokensPlain | crates/cdktr-api/src/principal.rs:257-307 | every written token of a well-formed command is plain text |
| ApiPrincipal.ApiRoundTrip | crates/cdktr-api/src/principal.rs:69-214 | writing any well-formed command and parsing the text gives the command back |
| ApiPrincipal.TokensRoundTrip | crates/cdktr-api/src/principal.rs:69-214 | parsing a well-formed command's tokens gives the command back |
| ApiPrincipal.StatusUpdateRoundTrip | crates/cdktr-api/src/principal.rs:85-140 | the status updates parse back from their tokens |
| ApiPrincipal.TimestampRoundTrip | crates/cdktr-api/src/principal.rs:147-153 | an absent or `u64` timestamp reads back from its written field |
| ApiPrincipal.QueryLogsRoundTrip | crates/cdktr-api/src/principal.rs:145-205 | a well-formed log query parses back from its tokens |
| ApiPrincipal.WorkflowStatusArguments | crates/cdktr-api/src/principal.rs:85-109 | with k < 4 argument tokens the error names argument k+1 ("Missing arg …", left to right); with all four the parse succeeds iff the status token is a status name |
| ApiPrincipal.WorkflowStatusMissing | crates/cdktr-api/src/principal.rs:98-108 | each missing argument is reported by its own name |
| ApiPrincipal.TaskStatusArguments | crates/cdktr-api/src/principal.rs:110-140 | with k < 5 argument tokens the error names argument k+1; with all five the parse succeeds iff the status token is a status name |
| ApiPrincipal.TaskStatusMissing | crates/cdktr-api/src/principal.rs:125-139 | each missing argument is reported by its own name |
| ApiPrincipal.QueryLogsFields | crates/cdktr-api/src/principal.rs:145-205 | with four fields present the parse succeeds iff each non-empty timestamp is a `u64`; empty fields become absent and verbose is set iff a fifth non-empty token follows |
| ApiPrincipal.RunTaskArgument | crates/cdktr-api/src/principal.rs:80 | RUNTASK fails only when the id is missing, and otherwise carries the next token verbatim |
| ApiPrincipal.GetMeta | crates/cdktr-api/src/principal.rs:220-256 | nine advertised actions; all but GETLATESTSTATUS are keywords the parser accepts |
| ApiPrincipal.MetaDisagreesWithParser | crates/cdktr-api/src/principal.rs:206 | one advertised action is rejected by the parser, and GETRECENTSTATUSES (accepted) and RUNTASK are not advertised |
| LegacyPrincipal.CreateNewTaskPayload | crates/cdktr-core/src/api/principal.rs:194-230 | six fields in order; with k < 6 tokens the error names field k+1 ("… is missing"); with six the parse succeeds iff the last is a 64-bit integer, and then the fields are the tokens |
| LegacyPrincipal.CreateRunTaskPayload | crates/cdktr-core/src/api/principal.rs:232-240 | succeeds exactly when the task parser does, with its task; its error text is wrapped as a parse error |
| LegacyPrincipal.DeleteTaskPayload | crates/cdktr-core/src/api/principal.rs:242-257 | succeeds iff the first token is a 32-bit integer, and yields it; with no token the error asks for TASK_ID |
| LegacyPrincipal.ParseLegacy | crates/cdktr-core/src/api/principal.rs:49-96 | an empty list is "Empty message", an unknown keyword is named in the error, a parsed command's keyword is the first token, and every failure is a parse error |
| LegacyPrincipal.LegacyTokens | crates/cdktr-core/src/api/principal.rs:135-164 | a command is written as its keyword first |
| LegacyPrincipal.ToText | crates/cdktr-core/src/api/principal.rs:135-164 | the written tokens joined by `|`, unescaped |
| LegacyPrincipal.KeywordPlain | crates/cdktr-core/src/api/principal.rs:135-164 | keywords hold neither `|` nor backslash |
| LegacyPrincipal.SignedDecimalPlain | crates/cdktr-core/src/api/principal.rs:145 | a written integer holds neither `|` nor backslash |
| LegacyPrincipal.TokensPlain | crates/cdktr-core/src/api/principal.rs:135-164 | every written token of a well-formed command is plain text |
| LegacyPrincipal.LegacyRoundTrip | crates/cdktr-core/src/api/principal.rs:49-96 | writing a well-formed command and parsing the text gives it back |
| LegacyPrincipal.ParseTokensRoundTrip | crates/cdktr-core/src/api/principal.rs:49-96 | parsing a well-formed command's tokens gives it back |
| LegacyPrincipal.AddTaskParses | crates/cdktr-core/src/api/principal.rs:147-150 | a task with a non-empty or absent argument list parses back from its tokens |
| LegacyPrincipal.CreateTaskMissingFields | crates/cdktr-core/src/api/principal.rs:202-230 | the first missing CREATETASK field is reported by name, so a one-token payload fails with "task_type is missing"; with all six the parse succeeds iff the timestamp is an integer |
| LegacyPrincipal.DeleteTaskArgument | crates/cdktr-core/src/api/principal.rs:62 | DELETETASK succeeds iff its argument is a 32-bit integer, and carries it |
| LegacyPrincipal.AddTaskArgument | crates/cdktr-core/src/api/principal.rs:63-66 | ADDTASK succeeds iff the rest parses as a task, carries that task, and otherwise wraps the task error |
| LegacyPrincipal.ExtraTokensIgnored | crates/cdktr-core/src/api/principal.rs:57-94 | tokens beyond those a command reads do not change the result (ADDTASK reads them all) |
| LegacyPrincipal.RegisterAgentExtraToken | crates/cdktr-core/src/api/principal.rs:67-70 | `REGISTERAGENT|8999|2` parses as a registration of agent `8999` |
| Replies.ErrorText | crates/cdktr-api/src/models.rs:124-132 | the kind's prefix followed by the message |
| Replies.ErrorTextInjective | crates/cdktr-api/src/models.rs:124-132 | different request errors print differently |
| Replies.ToText | crates/cdktr-api/src/models.rs:147-158 | PONG and OK stand alone; every other reply is its keyword, the delimiter and the payload, unescaped |
| Replies.Payload | crates/cdktr-api/src/models.rs:160-174 | empty for Pong and Success, the carried text otherwise |
| Replies.FromTokens | crates/cdktr-api/src/models.rs:177-195 | no tokens gives "Cannot work with an empty message"; a network error is never produced; a payload-carrying reply's payload is the re-encoded remaining tokens |
| Replies.KeywordPlain | crates/cdktr-api/src/models.rs:147-157 | reply keywords hold neither delimiter nor backslash |
| Replies.ReplyRoundTrip | crates/cdktr-api/src/models.rs:147-195 | every reply but a network error reads back as itself when its payload has no backslash, even if it holds delimiters; a network error reads back as an unrecognised-type client error |
| Replies.ReadKeyword | crates/cdktr-api/src/models.rs:185-193 | a reply's keyword followed by tokens re-encoding to its payload reads as that reply |
| Replies.ReadBareKeyword | crates/cdktr-api/src/models.rs:189-190 | PONG and OK read as themselves whatever follows; NETWORKERROR is not recognised |
| Replies.ReadPayloadKeyword | crates/cdktr-api/src/models.rs:186-188 | the payload replies carry the re-encoded remaining tokens |
| Replies.EmptyText | crates/cdktr-api/src/models.rs:180-184 | text always has a token, so the empty-message branch is unreachable and the empty text is an unrecognised type |
| LogMessages.Format | crates/cdktr-ipc/src/log_manager/model.rs:162-171 | the instance id first, then the time and level inside brackets, then the text, which therefore all appear in it |
| LogMessages.ParseLog | crates/cdktr-ipc/src/log_manager/model.rs:173-190 | fewer than four parts is the "at least 4 parts" parse error; otherwise it succeeds iff the second part is an unsigned integer, and then the fields are the first four parts |
| LogMessages.ToText | crates/cdktr-ipc/src/log_manager/model.rs:192-199 | id, timestamp, level and payload in that order, each of the first three followed by `|` |
| LogMessages.LogRoundTrip | crates/cdktr-ipc/src/log_manager/model.rs:173-199 | a message with delimiter- and backslash-free fields reads back as itself |
| LogMessages.PipeInPayloadTruncates | crates/cdktr-ipc/src/log_manager/model.rs:183-188 | a payload holding a pipe comes back cut at its first pipe |
| LogMessages.TokensAfterPlainFields | crates/cdktr-ipc/src/log_manager/model.rs:176-187 | plain fields written with a trailing delimiter each tokenize back as themselves |
| LogMessages.TrailingBackslashSurvives | crates/cdktr-ipc/src/log_manager/model.rs:173-199 | plain fields are not necessary: a message whose payload is plain text followed by one lone backslash also reads back as itself |
| DataStructures.AsyncQueue.constructor | cdktr/crates/cdktr-core/src/utils/data_structures.rs:23-27 | a new queue is empty |
| DataStructures.AsyncQueue.Get | cdktr/crates/cdktr-core/src/utils/data_structures.rs:28-32 | FIFO: the front item, removed; `None` on an empty queue, which stays empty |
| DataStructures.AsyncQueue.Put | cdktr/crates/cdktr-core/src/utils/data_structures.rs:34-38 | FIFO: the item goes to the back |
| DataStructures.AsyncQueue.IsEmpty | cdktr/crates/cdktr-core/src/utils/data_structures.rs:40-47 | empty iff the size is zero |
| DataStructures.FifoOrder | cdktr/crates/cdktr-core/src/utils/data_structures.rs:28-38 | two puts into an empty queue come out in order, then `None` |
| DataStructures.TopExists | cdktr/crates/cdktr-core/src/utils/data_structures.rs:141 | a non-empty heap has a greatest entry in `(utilisation, id)` order |
| DataStructures.PushKeeps | cdktr/crates/cdktr-core/src/utils/data_structures.rs:115-134 | pushing an absent agent keeps one live node per agent with `u_map` pointing at it, and makes exactly that agent live |
| DataStructures.DropStaleKeeps | cdktr/crates/cdktr-core/src/utils/data_structures.rs:141-149 | discarding a stale heap entry keeps the invariant and the live agents |
| DataStructures.TakeTopKeeps | cdktr/crates/cdktr-core/src/utils/data_structures.rs:141-164 | taking a live top entry keeps the invariant, removes exactly its agent, and that agent has the highest utilisation, the latest push among equals |
| DataStructures.TopIsHighest | cdktr/crates/cdktr-core/src/utils/data_structures.rs:82-83 | the heap top's agent is at or above every live agent in `(utilisation, id)` order |
| DataStructures.NoEntriesNoNodes | cdktr/crates/cdktr-core/src/utils/data_structures.rs:103-106 | with an empty heap there is no live agent |
| DataStructures.RemoveKeeps | cdktr/crates/cdktr-core/src/utils/data_structures.rs:198-213 | removing a live agent keeps the invariant and drops exactly that agent; its heap entry goes stale |
| DataStructures.RemoveThenPush | cdktr/crates/cdktr-core/src/utils/data_structures.rs:217-229 | removing an agent and pushing it back changed replaces its entry |
| DataStructures.UpdateTimestampKeeps | cdktr/crates/cdktr-core/src/utils/data_structures.rs:173-193 | a heartbeat for a live agent keeps the invariant and changes only that agent's timestamp |
| DataStructures.AgentPriorityQueue.constructor | cdktr/crates/cdktr-core/src/utils/data_structures.rs:93-102 | a new queue is empty and valid, with the id counter at 1 |
| DataStructures.AgentPriorityQueue.IsEmpty | cdktr/crates/cdktr-core/src/utils/data_structures.rs:103-106 | looks at the raw heap; an empty heap means no live agent |
| DataStructures.AgentPriorityQueue.Push | cdktr/crates/cdktr-core/src/utils/data_structures.rs:108-134 | a fresh id keys the node, goes on the heap with the utilisation and becomes the agent's `u_map` entry; the agent becomes live and the invariant holds |
| DataStructures.AgentPriorityQueue.Pop | cdktr/crates/cdktr-core/src/utils/data_structures.rs:136-169 | succeeds iff some agent is live; returns and removes the live agent with the highest utilisation, the most recent push among equals; otherwise `MissingAgents` with the maps unchanged |
| DataStructures.AgentPriorityQueue.TakeTop | cdktr/crates/cdktr-core/src/utils/data_structures.rs:143-164 | one live top entry leaves the heap and both maps, and its agent is the highest |
| DataStructures.AgentPriorityQueue.UpdateTimestamp | cdktr/crates/cdktr-core/src/utils/data_structures.rs:171-193 | succeeds iff the agent is live, and then changes only its timestamp, not the heap; otherwise `MissingAgents` and nothing changes |
| DataStructures.AgentPriorityQueue.Remove | cdktr/crates/cdktr-core/src/utils/data_structures.rs:194-213 | succeeds iff the agent is live, returning it and dropping it from both maps; its heap entry goes stale |
| DataStructures.AgentPriorityQueue.UpdateRunningTasks | cdktr/crates/cdktr-core/src/utils/data_structures.rs:214-229 | succeeds iff the agent is live; its count goes up by one or down by one but not below zero, and it is pushed back; the others are unchanged |
| DataStructures.StaleEntryOnly | cdktr/crates/cdktr-core/src/utils/data_structures.rs:103-106 | after the only agent is removed the queue reports itself non-empty, yet `pop` gives `MissingAgents` |
| LegacyHandlers.HandleAgentTaskStatusUpdate | cdktr/crates/cdktr-core/src/server/principal/helpers.rs:82-94 | always "TBD" as a payload with exit code 0 |
| LegacyHandlers.HandleAddTask | cdktr/crates/cdktr-core/src/server/principal/helpers.rs:96-107 | the task goes to the back of the queue, the size grows by one, and the reply is a success with exit code 0 |
| LegacyHandlers.HandleFetchTask | cdktr/crates/cdktr-core/src/server/principal/helpers.rs:109-130 | an empty queue answers a plain success and stays empty; otherwise the front task is removed and sent as its text, and the size drops by one; exit code 0 |
| LegacyHandlers.AddThenFetch | cdktr/crates/cdktr-core/src/server/principal/helpers.rs:96-130 | a task added to an empty queue is the one fetched, its text reads back as the task when its fields are plain, and the queue is empty again |
| PrincipalHandlers.HandleListWorkflows | crates/cdktr-ipc/src/server/principal/helpers.rs:12-17 | always a success carrying the store's serialisation, exit code 0 |
| PrincipalHandlers.HandleAgentTaskStatusUpdate | crates/cdktr-ipc/src/server/principal/helpers.rs:19-31 | always "TBD" as a payload with exit code 0 |
| PrincipalHandlers.HandleAgentWorkflowStatusUpdate | crates/cdktr-ipc/src/server/principal/helpers.rs:33-45 | always "TBD" as a payload with exit code 0 |
| PrincipalHandlers.HandleRunTask | crates/cdktr-ipc/src/server/principal/helpers.rs:47-67 | a known workflow goes to the back of the queue with a success; an unknown id leaves the queue unchanged and answers "No workflow exists with id …"; exit code 0 |
| PrincipalHandlers.HandleFetchTask | crates/cdktr-ipc/src/server/principal/helpers.rs:69-90 | an empty queue answers a plain success and stays empty; otherwise the front workflow is removed and sent serialised; exit code 0 |
| PrincipalHandlers.RunThenFetch | crates/cdktr-ipc/src/server/principal/helpers.rs:47-90 | a run request then a fetch on an empty queue hands out exactly the requested workflow, or nothing for an unknown id |
| PrincipalHandlers.RunRunFetchFetch | crates/cdktr-ipc/src/server/principal/helpers.rs:47-90 | two staged workflows reach agents in the order they were staged, then nothing |
| Principal.PrincipalServer.constructor | crates/cdktr-ipc/src/server/principal/mod.rs:22-30 | no live agents and nothing staged |
| Principal.PrincipalServer.RegisterAgent | crates/cdktr-ipc/src/server/principal/mod.rs:32-46 | a live agent gets the new timestamp and nothing else changes; an unknown one is added with that timestamp and no running tasks; always a success with exit code 0 |
| Principal.PrincipalServer.HandleClientMessage | crates/cdktr-ipc/src/server/principal/mod.rs:49-88 | Ping answers Pong; RunTask, FetchWorkflow and the listing delegate to the helpers on the server's own queue and store; registration leaves the agent live with the current time; status updates answer "TBD"; every branch has exit code 0 and touches only its own state |
| Principal.RegisterTwiceThenPop | crates/cdktr-ipc/src/server/principal/mod.rs:32-46 | registering one agent twice leaves a single entry with the later timestamp: one pop returns it, the next finds no agents |
| Principal.RegisterTwice | crates/cdktr-ipc/src/server/principal/mod.rs:32-46 | two registrations of one agent into an empty server leave exactly that agent, with the later timestamp and no running tasks |
| Principal.PopTwice | cdktr/crates/cdktr-core/src/utils/data_structures.rs:136-169 | popping a queue that holds one agent twice returns it, then `MissingAgents` |
| Graphs.AcceptedAppend | crates/cdktr-workflow/src/models.rs:181-192 | the graph accepts one more edge exactly when its target does not already reach its source |
| Graphs.AcceptedIffAcyclic | crates/cdktr-workflow/src/models.rs:173-193 | adding edges one at a time while refusing any that closes a cycle accepts them all exactly when they form no cycle |
| Graphs.ReachesIffWalk | crates/cdktr-workflow/src/models.rs:181-192 | the reachability used for the cycle check is reachability by a walk along edges |
| Graphs.FirstRefusal | crates/cdktr-workflow/src/models.rs:181-192 | when not every edge is accepted, some edge is the first one refused |
| WorkflowModels.Rejection | crates/cdktr-workflow/src/models.rs:181-192 | the edge the loop refuses is the first refused edge of the whole table, so the table has a cycle |
| WorkflowModels.LinkDependencies | crates/cdktr-workflow/src/models.rs:173-193 | the inner loop adds an edge from each dependency in order, or stops at the first edge the graph refuses, all earlier ones accepted |
| WorkflowModels.FromTasks | crates/cdktr-workflow/src/models.rs:158-207 | succeeds iff the dependency edges form no cycle, and then builds the nodes, edges, task map and entry tasks of the table; otherwise a workflow error names a refused edge |
| WorkflowModels.NodesMembers | crates/cdktr-workflow/src/models.rs:162-180 | the nodes are exactly the task ids and the names they depend on, declared or not |
| WorkflowModels.FirstMembers | crates/cdktr-workflow/src/models.rs:167-172 | the entry set holds exactly the tasks whose `depends` is absent or empty |
| WorkflowModels.TaskMapLookup | crates/cdktr-workflow/src/models.rs:200-206 | the task map holds each listed task under its id and nothing else |
| WorkflowModels.EdgesMembers | crates/cdktr-workflow/src/models.rs:173-192 | an edge `d -> t` is present exactly when task `t` lists `d` |
| WorkflowModels.FirstTasksExact | crates/cdktr-workflow/src/models.rs:209-214 | the entry tasks of a built DAG are exactly its tasks with absent or empty `depends` |
| WorkflowModels.GetTaskOfBuilt | crates/cdktr-workflow/src/models.rs:216-218 | looking up a listed task finds it; a name that is only a dependency finds nothing |
| WorkflowModels.ChildrenMembers | crates/cdktr-workflow/src/models.rs:229-237 | the children walked are exactly the targets of edges leaving the node |
| WorkflowModels.GetDependents | crates/cdktr-workflow/src/models.rs:220-239 | an id that is no node is "task id … does not exist"; otherwise the node's children |
| WorkflowModels.DependentsExact | crates/cdktr-workflow/src/models.rs:220-239 | the dependents of `t` are exactly the tasks listing `t`, and `t` is known exactly when it is a task or a dependency |
| WorkflowModels.Differ | crates/cdktr-workflow/src/models.rs:384-389 | the hand-written `ne` is exactly the negation of `eq` |
| WorkflowModels.SameIgnoresOtherFields | crates/cdktr-workflow/src/models.rs:377-383 | equality looks only at id, name, path and cron |
| WorkflowModels.ToHashmap | crates/cdktr-workflow/src/models.rs:352-369 | five entries; a missing description becomes "" and a missing cron or start time "NO SCHEDULE" |
| WorkflowModels.StartTimeUtc | crates/cdktr-workflow/src/models.rs:334-350 | no start time is a parse error, an unreadable one a workflow error; it succeeds exactly when the text reads as a date-time, with that instant |
| WorkflowModels.Validate | crates/cdktr-workflow/src/models.rs:371-374 | succeeds exactly when the start time can be read, and otherwise passes that error on |
| WorkflowModels.NewWorkflow | crates/cdktr-workflow/src/models.rs:283-303 | a deserialisation failure is "Failed to parse workflow yaml"; a cycle is a workflow error, reported before the id is derived; otherwise the record with the id derived from the path |
| WorkflowModels.FromYaml | crates/cdktr-workflow/src/models.rs:261-280 | succeeds exactly when the file parses, its tasks have no cycle, its path gives an id and its start time is readable |
| Workflows.LastDot | crates/cdktr-workflow/src/models.rs:407 | the position of the last dot, if any |
| Workflows.FileStem | crates/cdktr-workflow/src/models.rs:20-21 | a prefix of the name; when shorter it ends before the last dot, and a name is kept whole only when it has no dot after its first character |
| Workflows.KeyFromPath | crates/cdktr-workflow/src/models.rs:16-28 | panics (None) exactly when the path is not under the directory; the directory itself has the empty key |
| Workflows.KeyFromPathExample | crates/cdktr-workflow/src/lib.rs:148-153 | `/some/absolute/path/example.file` under `/some/absolute` has the key `path.example` |
| Workflows.RegexStemIff | crates/cdktr-workflow/src/models.rs:407-410 | the regular expression matches exactly the `stem.ext` shape and captures the stem |
| Workflows.RemoveAll | crates/cdktr-workflow/src/models.rs:411 | removing the directory never lengthens the text |
| Workflows.RemoveAllMissing | crates/cdktr-workflow/src/models.rs:411 | text lacking a character of the directory is left as it is |
| Workflows.LeadingTrimmedSplit | crates/cdktr-workflow/src/models.rs:412-414 | what is removed is a run of '/' and '.', and what is left starts with neither |
| Workflows.StripLeading | crates/cdktr-workflow/src/models.rs:412-414 | the `while` loop leaves exactly the text with its leading '/' and '.' removed |
| Workflows.DotSeparators | crates/cdktr-workflow/src/models.rs:415 | every '/' and '\\' becomes '.', every other character is kept |
| Workflows.PathToWorkflowId | crates/cdktr-workflow/src/models.rs:406-423 | the capture with the directory removed, leading '/' and '.' stripped and separators turned to dots, or the "Failed to create a workflow id" error |
| Workflows.WorkflowIdShape | crates/cdktr-workflow/src/models.rs:406-423 | an id exists exactly when the path has the `stem.ext` shape, and then holds no separator |
| Workflows.NoExtensionIsRejected | crates/cdktr-workflow/src/models.rs:418-421 | a path with no dot yields the parse error naming it |
| Workflows.WorkflowIdOfShape | crates/cdktr-workflow/src/models.rs:409-417 | for a path of the `stem.ext` shape the id is the stem with the directory removed, leading '/' and '.' stripped and separators turned to dots |
| Workflows.WorkflowIdDraftExample | crates/cdktr-workflow/src/models.rs:518 | `myworkflow.draft.yml` gives `myworkflow.draft` |
| Workflows.DotSeparatorsJoin | crates/cdktr-workflow/src/models.rs:415 | components joined by either separator come out joined by dots |
| Workflows.WorkflowIdOfComponents | crates/cdktr-workflow/src/models.rs:406-423 | a relative path of separator-free components gives those components joined by dots |
| Workflows.WorkflowIdOfAbsolutePath | crates/cdktr-workflow/src/models.rs:412-415 | a leading '/' is stripped before the components are joined |
| Workflows.BackslashRootKeepsDot | crates/cdktr-workflow/src/models.rs:412-415 | a root written as '\\' is not stripped, so the id starts with a dot |
| Workflows.WorkflowIdUnixExample | crates/cdktr-workflow/src/models.rs:521 | `/home/user/data_flow.yml` gives `home.user.data_flow` |
| Workflows.WorkflowIdWindowsExample | crates/cdktr-workflow/src/models.rs:522 | `C:\Users\me\notes.final.yml` gives `C:.Users.me.notes.final` |
| TaskTracker.Tracker.constructor | crates/cdktr-ipc/src/taskmanager/task_tracker.rs:35-38 | a tracker holds the dependency list and the ready queue it is given |
| TaskTracker.Tracker.GetNextTask | crates/cdktr-ipc/src/taskmanager/task_tracker.rs:62-64 | an empty ready queue gives nothing; otherwise its front task, which leaves the queue; the dependency list is untouched |
| TaskTracker.Tracker.MarkComplete | crates/cdktr-ipc/src/taskmanager/task_tracker.rs:66-80 | the dependency list becomes the entries still waiting, with the task taken out of their sets, and the entries it released join the back of the ready queue in list order |
| TaskTracker.Tracker.IsEmpty | crates/cdktr-ipc/src/taskmanager/task_tracker.rs:82-84 | the tracker is empty exactly when it holds no task, ready or waiting |
| TaskTracker.FromWorkflow | crates/cdktr-ipc/src/taskmanager/task_tracker.rs:40-60 | a workflow that fails validation gives that error; otherwise the ready queue holds the tasks without dependencies and the list the others, in table order |
| TaskTracker.SplitStep | crates/cdktr-ipc/src/taskmanager/task_tracker.rs:44-57 | each further task goes to exactly one of the two queues, ready exactly when it has no dependencies |
| TaskTracker.InitialSplit | crates/cdktr-ipc/src/taskmanager/task_tracker.rs:40-60 | every task of the workflow lands in exactly one of the two queues, none lost and none repeated |
| TaskTracker.ReadyAreEntries | crates/cdktr-ipc/src/taskmanager/task_tracker.rs:45-57 | a task starts ready exactly when it is an entry task of the workflow's DAG |
| TaskTracker.WaitingSets | crates/cdktr-ipc/src/taskmanager/task_tracker.rs:50-54 | each waiting entry waits for a non-empty set: exactly the names its task depends on |
| TaskTracker.MarkCompleteKeepsTasks | crates/cdktr-ipc/src/taskmanager/task_tracker.rs:66-80 | completing a task moves entries but keeps every task id: released plus remaining is the old list |
| TaskTracker.MarkCompleteRemovesTask | crates/cdktr-ipc/src/taskmanager/task_tracker.rs:70-77 | afterwards no entry waits for the completed task, and each entry that stays waits for what it did before less that task |
| TaskTracker.MarkCompleteUnknown | crates/cdktr-ipc/src/taskmanager/task_tracker.rs:71-76 | completing a task nobody waits for releases nothing and changes nothing |
| TaskTracker.CountAcrossSteps | crates/cdktr-ipc/src/taskmanager/task_tracker.rs:62-80 | `mark_complete` keeps the number of tasks held, and `get_next_task` on a non-empty ready queue lowers it by one |
| Scheduler.NextRunOutcomes | crates/cdktr-events/src/scheduler.rs:144-165 | an invalid cron is the "not a valid crontab" parse error, reported before a bad start time; no future fire is a runtime error; otherwise the first fire after the later of start time and clock |
| Scheduler.NextRunIsLater | crates/cdktr-events/src/scheduler.rs:155-158 | a next run lies after both the clock and the start time |
| Scheduler.StrBelowTotal | crates/cdktr-events/src/scheduler.rs:32 | the order on workflow ids breaking ties in the heap is total |
| Scheduler.StrBelowAntisym | crates/cdktr-events/src/scheduler.rs:32 | that order is antisymmetric |
| Scheduler.StrBelowTrans | crates/cdktr-events/src/scheduler.rs:32 | that order is transitive |
| Scheduler.BelowTotal | crates/cdktr-events/src/scheduler.rs:32 | the heap's order on (negated time, id) pairs is total |
| Scheduler.BelowTrans | crates/cdktr-events/src/scheduler.rs:32 | the heap's order is transitive |
| Scheduler.TopExists | crates/cdktr-events/src/scheduler.rs:89 | a non-empty heap has a greatest entry, so `peek().unwrap()` on it succeeds |
| Scheduler.TopUnique | crates/cdktr-events/src/scheduler.rs:62 | the greatest entry is unique, so `peek` and the next `pop` agree |
| Scheduler.TopIsEarliest | crates/cdktr-events/src/scheduler.rs:126-136 | the top of the heap holds the earliest next run |
| Scheduler.PeekTop | crates/cdktr-events/src/scheduler.rs:116 | `peek` returns the greatest entry of the heap |
| Scheduler.MapUpToLookup | crates/cdktr-events/src/scheduler.rs:31 | the store maps each workflow id to its workflow |
| Scheduler.ScheduledErrSticks | crates/cdktr-events/src/scheduler.rs:134 | once a workflow's next run fails, the build's result stays that error |
| Scheduler.ScheduledFails | crates/cdktr-events/src/scheduler.rs:127-142 | the build fails exactly when some workflow's next run cannot be computed, with the first such error |
| Scheduler.ScheduledCount | crates/cdktr-events/src/scheduler.rs:127-142 | a built heap has one entry per workflow with a cron expression |
| Scheduler.ScheduledEntries | crates/cdktr-events/src/scheduler.rs:131-139 | an entry is in the built heap exactly when it names a workflow with a cron expression and holds its negated next run |
| Scheduler.NextRunErrorKinds | crates/cdktr-events/src/scheduler.rs:144-165 | a next run fails only with a parse, workflow or runtime error |
| Scheduler.ScheduledErrorKinds | crates/cdktr-events/src/scheduler.rs:108-114 | a failed build never fails with the "no valid schedules" error |
| Scheduler.InvalidCronFails | crates/cdktr-events/src/scheduler.rs:134 | a single invalid cron expression makes the whole build fail |
| Scheduler.ScheduledKnown | crates/cdktr-events/src/scheduler.rs:131-137 | every built entry names a workflow of the store that has a cron expression |
| Scheduler.BuildScheduleQueue | crates/cdktr-events/src/scheduler.rs:127-142 | the loop's result is the build described by the lemmas above |
| Scheduler.ReinsertKeeps | crates/cdktr-events/src/scheduler.rs:60-63 | popping a workflow and pushing its next run keeps the heap's size and every entry scheduled |
| Scheduler.MergeKeeps | crates/cdktr-events/src/scheduler.rs:208-210 | merging the incoming store over the old one keeps every entry built from it scheduled |
| Scheduler.RerunIsLater | crates/cdktr-events/src/scheduler.rs:83 | a workflow put back runs again later than the clock |
| Scheduler.Scheduler.constructor | crates/cdktr-events/src/scheduler.rs:119-123 | the scheduler holds the store, the heap and the peek it is given |
| Scheduler.Scheduler.NextWorkflowReady | crates/cdktr-events/src/scheduler.rs:193-195 | the peeked workflow is ready exactly when its time has come |
| Scheduler.Scheduler.WaitStep | crates/cdktr-events/src/scheduler.rs:44-59 | a wait round reports readiness; when not ready it marks the peek logged and changes nothing else |
| Scheduler.Scheduler.Pop | crates/cdktr-events/src/scheduler.rs:60-63 | `pop` removes the greatest entry, which on a consistent scheduler is the peeked one |
| Scheduler.Scheduler.PushAndPeek | crates/cdktr-events/src/scheduler.rs:85-91 | the pushed entry joins the heap and the peek becomes its new top, not yet logged |
| Scheduler.Scheduler.Dispatch | crates/cdktr-events/src/scheduler.rs:60-95 | the popped id must be the peeked one, else the "Popped wrong workflow" error; a failed run is passed on; a cron workflow's next run goes back on the heap and the peek is the new top |
| Scheduler.Scheduler.Reschedule | crates/cdktr-events/src/scheduler.rs:74-95 | a failed run is reported and nothing is re-inserted; a workflow without cron is dropped; otherwise its next run is re-inserted |
| Scheduler.Scheduler.Requeue | crates/cdktr-events/src/scheduler.rs:81-92 | the re-insert succeeds exactly when the next run can be computed, and then restores the heap's size and consistency |
| Scheduler.Scheduler.UpdateSchedulePriorityQueue | crates/cdktr-events/src/scheduler.rs:202-214 | a failed rebuild changes nothing; otherwise the heap is rebuilt, the store merged (incoming wins), and the new top peeked, an empty heap panicking |
| Scheduler.Scheduler.Install | crates/cdktr-events/src/scheduler.rs:208-212 | the rebuilt heap and merged store are kept; a non-empty heap gives a consistent scheduler, an empty one the panic |
| Scheduler.New | crates/cdktr-events/src/scheduler.rs:100-124 | a failed build is passed on; a store without any schedule is the "No workflows have valid schedules" error; otherwise a consistent scheduler peeking the earliest run |
| AdminPanel.InnerHeight | crates/cdktr-tui/src/ui/admin_panel.rs:39 | the lines inside the box are its height less the two borders, never below zero |
| AdminPanel.WindowShape | crates/cdktr-tui/src/ui/admin_panel.rs:38-53 | the window lies within the log; a log that fits is shown whole; otherwise the box is always full, ending `offset` lines before the newest while that many lines are above |
| AdminPanel.NewestAtBottom | crates/cdktr-tui/src/ui/admin_panel.rs:42-51 | unscrolled, the window is the last screenful |
| AdminPanel.ScrollIndicator | crates/cdktr-tui/src/ui/admin_panel.rs:58-62 | the "[end/total]" indicator appears exactly when the log does not fit the box |
| AdminPanel.Title | crates/cdktr-tui/src/ui/admin_panel.rs:64-68 | the title is " Application Logs ", with the indicator appended when there is one |
| AdminPanel.VisibleLines | crates/cdktr-tui/src/ui/admin_panel.rs:30-56 | a log that fits is shown whole, a longer one fills the box, and unscrolled the newest line is the last shown |
| LogViewerModal.VisibleLines | crates/cdktr-tui/src/ui/log_viewer_modal.rs:283-299 | the slice is taken exactly when the window's start is not past its end, where Rust would panic otherwise |
| LogViewerModal.WindowShape | crates/cdktr-tui/src/ui/log_viewer_modal.rs:283-294 | the window lies within the lines and is at most a screenful; following live output shows the newest lines, otherwise it ends `offset` lines before the newest |
| LogViewerModal.VisibleLinesAreWindow | crates/cdktr-tui/src/ui/log_viewer_modal.rs:296-299 | without wrap-around the slice never panics, and shows the window's lines in order |
| LogViewerModal.FollowShowsAllThatFit | crates/cdktr-tui/src/ui/log_viewer_modal.rs:287-289 | following live output when every line fits shows them all |
| LogViewerModal.ScrollIndicator | crates/cdktr-tui/src/ui/log_viewer_modal.rs:301-306 | the indicator appears exactly when the lines do not fit the view |
| LogViewerModal.StatusText | crates/cdktr-tui/src/ui/log_viewer_modal.rs:149-156 | an error is shown after "⚠ "; without one, "✓ Success" once lines have arrived and "Ready" before |
| LogViewerModal.StatusShowsError | crates/cdktr-tui/src/ui/log_viewer_modal.rs:150-151 | an error's status line is the mark followed by exactly the error text |
| LogViewerModal.WithCursor | crates/cdktr-tui/src/ui/log_viewer_modal.rs:212-216 | the focused text is one character longer than the value |
| LogViewerModal.WithCursorSplits | crates/cdktr-tui/src/ui/log_viewer_modal.rs:212-216 | the mark sits at the clamped cursor and removing it gives the value back |
| LogViewerModal.InputText | crates/cdktr-tui/src/ui/log_viewer_modal.rs:212-219 | an unfocused input shows its bare value; a focused one gains the cursor mark |
| ControlPanel.ChangedPanel | crates/cdktr-tui/src/control_panel/mod.rs:125-137 | Tab moves focus to the next panel, after the last back to the first |
| ControlPanel.HandleKeyKeepsValid | crates/cdktr-tui/src/control_panel/mod.rs:39-50 | every key keeps the panel consistent: a selection exactly while the Actions list is focused, within the list, and the pane open only over it |
| ControlPanel.ChangePanelCycles | crates/cdktr-tui/src/control_panel/mod.rs:125-137 | three Tabs return to the same panel; from the Actions panel the selection is back at the first action and the pane closed |
| ControlPanel.SelectClamps | crates/cdktr-tui/src/control_panel/mod.rs:88-109 | Up and Down move by one and stop at either end, the pane's action follows the selection, and away from the Actions panel nothing changes |
| ControlPanel.EnterOpensPane | crates/cdktr-tui/src/control_panel/mod.rs:44-45 | Enter opens the pane exactly over the Actions panel, a second Enter changes nothing, and 'c' always closes it |
| ControlPanel.UpDownDownUp | crates/cdktr-tui/src/control_panel/mod.rs:276-293 | from a fresh panel, Up keeps the first action, Down Down reaches the third, and the last Up selects the second |
| ControlPanel.ControlPanel.constructor | crates/cdktr-tui/src/control_panel/mod.rs:54-63 | a new panel has the Actions list focused with its first action selected and the pane closed |
| ControlPanel.ControlPanel.FocusPanel | crates/cdktr-tui/src/control_panel/mod.rs:110-115 | focusing the Actions list selects its first action; other panels are unchanged |
| ControlPanel.ControlPanel.UnfocusPanel | crates/cdktr-tui/src/control_panel/mod.rs:116-124 | leaving the Actions list drops the selection and closes the pane |
| ControlPanel.ControlPanel.ChangePanel | crates/cdktr-tui/src/control_panel/mod.rs:125-137 | the state becomes the next panel's, as `ChangedPanel` |
| ControlPanel.ControlPanel.SelectAction | crates/cdktr-tui/src/control_panel/mod.rs:88-109 | the state becomes the clamped selection step, as `SelectClamps` describes |
| ControlPanel.ControlPanel.ActionEnter | crates/cdktr-tui/src/control_panel/mod.rs:76-87 | the pane opens over the Actions panel; an open pane is left alone |
| ControlPanel.ControlPanel.HandleKeyEvent | crates/cdktr-tui/src/control_panel/mod.rs:39-50 | the state follows the key as `HandleKey`, and stays consistent |
| DataPane.NextRow | crates/cdktr-tui/src/common/data_pane.rs:108-121 | the row after the selected one, the last wrapping to the first; no selection gives the first row |
| DataPane.PreviousRow | crates/cdktr-tui/src/common/data_pane.rs:123-136 | the row before the selected one, the first wrapping to the last; no selection gives the first row |
| DataPane.RowMovesInverse | crates/cdktr-tui/src/common/data_pane.rs:108-136 | row moves stay within the table and undo each other |
| DataPane.NextColumn | crates/cdktr-tui/src/common/data_pane.rs:138-142 | the column moves right only while it is before the last, no selection counting as the first |
| DataPane.NextColumnBounded | crates/cdktr-tui/src/common/data_pane.rs:138-142 | moving right never leaves the selection past the last column, and with two or more columns always selects one |
| DataPane.NextColor | crates/cdktr-tui/src/common/data_pane.rs:148-150 | the next palette index is one of the four palettes |
| DataPane.PreviousColor | crates/cdktr-tui/src/common/data_pane.rs:152-155 | the previous palette index is one of the four palettes |
| DataPane.ColorMovesInverse | crates/cdktr-tui/src/common/data_pane.rs:148-155 | the palette moves undo each other, and four steps return to the start |
| DataPane.ColumnMaxIsMax | crates/cdktr-tui/src/common/data_pane.rs:270-282 | a column's width bounds its header and each padded cell, and equals one of them |
| DataPane.ColumnWidths | crates/cdktr-tui/src/common/data_pane.rs:266-285 | there is one width per column |
| DataPane.ConstraintLenCalculator | crates/cdktr-tui/src/common/data_pane.rs:266-285 | the array's widths are the column maxima, the one before the last reduced by one |
| DataPane.WidenByRow | crates/cdktr-tui/src/common/data_pane.rs:276-281 | one row's pass widens each column to cover that row's padded cell |
| DataPane.DataTable.constructor | crates/cdktr-tui/src/common/data_pane.rs:84-92 | a new table selects its first row and the first palette, with the scrollbar sized to the rows |
| DataPane.DataTable.NextRowMove | crates/cdktr-tui/src/common/data_pane.rs:108-121 | the selection moves to `NextRow`, the scrollbar follows it, and nothing else changes |
| DataPane.DataTable.PreviousRowMove | crates/cdktr-tui/src/common/data_pane.rs:123-136 | the selection moves to `PreviousRow`, the scrollbar follows it, and nothing else changes |
| DataPane.DataTable.NextColumnMove | crates/cdktr-tui/src/common/data_pane.rs:138-142 | the column moves as `NextColumn`; the rows and palette are untouched |
| DataPane.DataTable.PreviousColumnMove | crates/cdktr-tui/src/common/data_pane.rs:144-146 | the column moves left, stopping at the first; the rows and palette are untouched |
| DataPane.DataTable.NextColorMove | crates/cdktr-tui/src/common/data_pane.rs:148-150 | the palette index advances and stays a palette; selections are untouched |
| DataPane.DataTable.PreviousColorMove | crates/cdktr-tui/src/common/data_pane.rs:152-155 | the palette index steps back and stays a palette; selections are untouched |
| DataPane.DataTable.SetColors | crates/cdktr-tui/src/common/data_pane.rs:157-159 | the drawn colours follow the palette index |
| DataPane.HandleKeyEffect | crates/cdktr-tui/src/common/data_pane.rs:94-107 | each key group changes only its own fields. A row key moves the row within the table with the scrollbar on it. A shifted l/h cycles the palette. A plain l/h moves the column. Any other key changes nothing. |
| DataPane.DataTable.HandleKeyEvent | crates/cdktr-tui/src/common/data_pane.rs:94-107 | the whole new selection, scrollbar position and palette are those `HandleKeyEffect` describes, and the table stays consistent |
| InputBox.Clamp | crates/cdktr-tui/src/common/input.rs:97-99 | a cursor position brought within the text: kept when inside, the text's end when past it |
| InputBox.InsertAt | crates/cdktr-tui/src/common/input.rs:57-73 | the character lands at the cursor (or at the end past it), with the text before and after unchanged |
| InputBox.DeleteBefore | crates/cdktr-tui/src/common/input.rs:82-92 | exactly the character before the cursor is removed, the rest kept in order |
| InputBox.CursorPosition | crates/cdktr-tui/src/common/input.rs:126-137 | a position exists exactly while editing; it is on line 1, one column right of the cursor while that fits a `u16` |
| InputBox.EnteredCharEffect | crates/cdktr-tui/src/common/input.rs:57-61 | typing inserts the character at the cursor and moves the cursor past it |
| InputBox.DeletedCharEffect | crates/cdktr-tui/src/common/input.rs:75-95 | Backspace at the leftmost position changes nothing; otherwise it removes the character before the cursor and moves back over it |
| InputBox.EnterThenDelete | crates/cdktr-tui/src/common/input.rs:57-95 | typing a character and deleting it restores text and cursor |
| InputBox.HandleKeyKeepsCursorInText | crates/cdktr-tui/src/common/input.rs:110-124 | every key leaves the cursor within the text |
| InputBox.ModeGuards | crates/cdktr-tui/src/common/input.rs:105-124 | in Normal mode or for a non-press nothing changes; Esc returns to Normal keeping the text; Enter clears the text and the cursor |
| InputBox.InputBox.constructor | crates/cdktr-tui/src/common/input.rs:29-38 | a new box is empty, cursor at 0, in Normal mode |
| InputBox.InputBox.IsEditing | crates/cdktr-tui/src/common/input.rs:40-42 | true exactly in Editing mode |
| InputBox.InputBox.EnterEditMode | crates/cdktr-tui/src/common/input.rs:43-45 | switches to Editing and changes nothing else |
| InputBox.InputBox.HandleKeyEvent | crates/cdktr-tui/src/common/input.rs:110-124 | the state follows the key as `HandleKey` |
| InputBox.InputBox.MoveCursorLeft | crates/cdktr-tui/src/common/input.rs:47-50 | the cursor steps left, stopping at 0 |
| InputBox.InputBox.MoveCursorRight | crates/cdktr-tui/src/common/input.rs:52-55 | the cursor steps right, stopping at the text's end |
| InputBox.InputBox.GetCursorPosition | crates/cdktr-tui/src/common/input.rs:126-137 | the position described by `CursorPosition` |
| Logger.Format | crates/cdktr-tui/src/logger.rs:19-24 | the text is the timestamp in brackets, then level and target, then ": " and the message |
| Logger.FormatAll | crates/cdktr-tui/src/logger.rs:51-58 | one formatted line per entry, in order |
| Logger.AddedKeepsNewest | crates/cdktr-tui/src/logger.rs:40-49 | adding to a buffer within the bound keeps exactly the newest 50 000 entries |
| Logger.AddedAllKeepsNewest | crates/cdktr-tui/src/logger.rs:7 | however many entries are added, the buffer holds the newest 50 000 of everything, oldest first |
| Logger.LastConcat | crates/cdktr-tui/src/logger.rs:44-48 | dropping old entries early does not change which newest entries survive |
| Logger.Enabled | crates/cdktr-tui/src/logger.rs:82-84 | every level but trace is recorded |
| Logger.LogBuffer.constructor | crates/cdktr-tui/src/logger.rs:34-38 | a new buffer is empty |
| Logger.LogBuffer.AddLog | crates/cdktr-tui/src/logger.rs:40-49 | the oldest entry goes when the buffer is full, then the new one is appended; the bound holds |
| Logger.LogBuffer.GetLogs | crates/cdktr-tui/src/logger.rs:51-58 | every entry formatted, oldest first |
| Logger.LogBuffer.GetRecentLogs | crates/cdktr-tui/src/logger.rs:60-67 | the newest `count` entries (all when fewer) formatted, oldest first |
| Logger.Log | crates/cdktr-tui/src/logger.rs:86-99 | an enabled record is added as an entry with the given time, its level name, target and message; a trace record changes nothing |
| UiStore.StepEffect | crates/cdktr-tui/src/stores/ui_store.rs:55-86 | each action sets exactly its own field as named (help toggles, an error is set or cleared, Quit sets the exit flag); other stores' actions change nothing |
| UiStore.ToggleHelpTwice | crates/cdktr-tui/src/stores/ui_store.rs:66-68 | toggling help twice restores the state |
| UiStore.ExitSticks | crates/cdktr-tui/src/stores/ui_store.rs:55-86 | no action clears the exit flag |
| UiStore.QuitAnywhere | crates/cdktr-tui/src/stores/ui_store.rs:78-80 | a `Quit` anywhere in a run of actions leaves the UI exiting |
| UiStore.UIStore.constructor | crates/cdktr-tui/src/stores/ui_store.rs:24-47 | a new store shows the workflows tab with the sidebar focused, no help, no error, not exiting |
| UiStore.UIStore.Reduce | crates/cdktr-tui/src/stores/ui_store.rs:55-86 | the state takes the step `StepEffect` describes |
| UiStore.UIStore.ShouldExit | crates/cdktr-tui/src/stores/ui_store.rs:89-91 | reports the exit flag |
| LogsStore.AppendedLookup | crates/cdktr-tui/src/stores/logs_store.rs:38-52 | appending extends exactly the named step's lines, in order, creating missing entries, and no other step |
| LogsStore.AppendTwice | crates/cdktr-tui/src/stores/logs_store.rs:44-51 | two appends to one step keep both batches in order |
| LogsStore.LogsStore.constructor | crates/cdktr-tui/src/stores/logs_store.rs:21-25 | a new store keeps nothing |
| LogsStore.LogsStore.Reduce | crates/cdktr-tui/src/stores/logs_store.rs:34-58 | only a step-logs action changes the store, by appending its lines |
| LogsStore.LogsStore.GetLogs | crates/cdktr-tui/src/stores/logs_store.rs:62-70 | the step's lines, or none for an unknown workflow or step |
| AppLogsStore.SaturatingSub | crates/cdktr-tui/src/stores/app_logs_store.rs:59 | subtraction that stops at zero |
| AppLogsStore.SaturatingAdd | crates/cdktr-tui/src/stores/app_logs_store.rs:68 | addition that stops at the largest `usize` |
| AppLogsStore.UpThenDown | crates/cdktr-tui/src/stores/app_logs_store.rs:57-69 | scrolling back and forward by the same amount returns to the offset clamped to the number of lines |
| AppLogsStore.DownStopsAtNewest | crates/cdktr-tui/src/stores/app_logs_store.rs:57-60 | scrolling forward never increases the offset and stops at the newest line |
| AppLogsStore.AppLogsStore.constructor | crates/cdktr-tui/src/stores/app_logs_store.rs:23-31 | a new store has no lines and is scrolled to the newest |
| AppLogsStore.AppLogsStore.Dispatch | crates/cdktr-tui/src/stores/app_logs_store.rs:39-47 | any action refreshes the lines from the log buffer and keeps the offset |
| AppLogsStore.AppLogsStore.RefreshLogs | crates/cdktr-tui/src/stores/app_logs_store.rs:50-54 | the lines become the buffer's formatted entries; the offset is kept |
| AppLogsStore.AppLogsStore.ScrollDown | crates/cdktr-tui/src/stores/app_logs_store.rs:57-60 | the offset moves towards the newest line, stopping at it; the lines are kept |
| AppLogsStore.AppLogsStore.ScrollUp | crates/cdktr-tui/src/stores/app_logs_store.rs:63-69 | an offset past the oldest line is first brought back to it, then moved back by the amount |
| AppLogsStore.AppLogsStore.ScrollToBottom | crates/cdktr-tui/src/stores/app_logs_store.rs:72-75 | the offset returns to the newest line |
| WorkflowsStore.LexTotal | crates/cdktr-tui/src/stores/workflows_store.rs:89 | the id order used to sort is total |
| WorkflowsStore.InsertSorted | crates/cdktr-tui/src/stores/workflows_store.rs:89 | inserting into a sorted list keeps it sorted and adds exactly the one workflow |
| WorkflowsStore.SortSorted | crates/cdktr-tui/src/stores/workflows_store.rs:87-91 | the sorted list is in id order and is a permutation of the input |
| WorkflowsStore.IndexOf | crates/cdktr-tui/src/stores/workflows_store.rs:158 | the first position holding the id, or none when no workflow has it |
| WorkflowsStore.ScrollRunInfoMoves | crates/cdktr-tui/src/stores/workflows_store.rs:118-121 | within the `i32` range the run-info offset moves by `delta` and stops at zero, and never leaves that range |
| WorkflowsStore.ScrollMainPanelMoves | crates/cdktr-tui/src/stores/workflows_store.rs:132-135 | within the `i16` range the main-panel offset moves by `delta` and stops at zero, and never leaves that range |
| WorkflowsStore.ScrollMainPanelWraps | crates/cdktr-tui/src/stores/workflows_store.rs:133-134 | one step down from the largest `i16` wraps to a negative sum and so back to zero |
| WorkflowsStore.StepFrame | crates/cdktr-tui/src/stores/workflows_store.rs:77-141 | each action changes only its own fields, and other stores' actions change nothing |
| WorkflowsStore.StepKeepsOffsetsInRange | crates/cdktr-tui/src/stores/workflows_store.rs:118-135 | every action keeps the offsets in the ranges of the integer types they are cast through |
| WorkflowsStore.LoadedSorted | crates/cdktr-tui/src/stores/workflows_store.rs:86-94 | a loaded list is kept in id order, holds exactly the workflows loaded, and ends loading without an error |
| WorkflowsStore.LoadSelects | crates/cdktr-tui/src/stores/workflows_store.rs:96-98 | with nothing selected a non-empty load selects the first workflow as received, which is in the new list; a selection is kept |
| WorkflowsStore.RefreshThenFail | crates/cdktr-tui/src/stores/workflows_store.rs:81-84 | refreshing then failing leaves the error shown, loading over and the list unchanged |
| WorkflowsStore.WorkflowsStore.constructor | crates/cdktr-tui/src/stores/workflows_store.rs:41-69 | a new store holds the default state |
| WorkflowsStore.WorkflowsStore.GetState | crates/cdktr-tui/src/stores/workflows_store.rs:72-74 | a copy of the state |
| WorkflowsStore.WorkflowsStore.Reduce | crates/cdktr-tui/src/stores/workflows_store.rs:77-141 | the state takes the step the lemmas above describe |
| WorkflowsStore.WorkflowsStore.ScrollRunInfoBy | crates/cdktr-tui/src/stores/workflows_store.rs:118-121 | the run-info scroll arm, with its `i32` wrap |
| WorkflowsStore.WorkflowsStore.ScrollMainPanelBy | crates/cdktr-tui/src/stores/workflows_store.rs:132-135 | the main-panel scroll arm, with its `i16` wrap |
| WorkflowsStore.WorkflowsStore.GetSelectedIndex | crates/cdktr-tui/src/stores/workflows_store.rs:153-159 | nothing without a selection; otherwise the first position of the selected id, or none when it is not listed |
| WorkflowsStore.WorkflowsStore.GetSelectedWorkflow | crates/cdktr-tui/src/stores/workflows_store.rs:144-150 | some workflow exactly when one listed has the selected id, and then the first such one in list order |
| LogViewerStore.Default | crates/cdktr-tui/src/stores/log_viewer_store.rs:77-110 | the default range is the two days before now, with both inputs holding their formatted times; closed, query mode, no lines, auto-scroll on |
| LogViewerStore.WithFieldText | crates/cdktr-tui/src/stores/log_viewer_store.rs:259-263 | the chosen field gets the new text; focus and cursor are kept |
| LogViewerStore.WithFieldTextOthers | crates/cdktr-tui/src/stores/log_viewer_store.rs:259-263 | writing one field leaves the other two as they were |
| LogViewerStore.InsertThenDelete | crates/cdktr-tui/src/stores/log_viewer_store.rs:255-289 | inserting a character and deleting it restores the inputs |
| LogViewerStore.UpdatedInputEffect | crates/cdktr-tui/src/stores/log_viewer_store.rs:255-271 | the character is inserted at the cursor of the focused field only, and the cursor moves past it |
| LogViewerStore.DeletedInputEffect | crates/cdktr-tui/src/stores/log_viewer_store.rs:274-289 | with the cursor inside its field `delete_input` never panics and removes exactly the character before the cursor; unfocused or at 0 nothing changes |
| LogViewerStore.EditingKeepsCursorInField | crates/cdktr-tui/src/stores/log_viewer_store.rs:255-375 | inserting, deleting, moving the cursor and changing focus all keep the cursor inside the focused field |
| LogViewerStore.FocusCycles | crates/cdktr-tui/src/stores/log_viewer_store.rs:292-329 | Tab cycles through the three fields, and Shift+Tab undoes Tab |
| LogViewerStore.ScrolledDown | crates/cdktr-tui/src/stores/log_viewer_store.rs:235-242 | the offset grows, saturating at the largest `usize`; a manual scroll in live mode stops auto-scroll; nothing else changes |
| LogViewerStore.ScrolledUp | crates/cdktr-tui/src/stores/log_viewer_store.rs:245-252 | the offset shrinks, stopping at 0; a manual scroll in live mode stops auto-scroll; nothing else changes |
| LogViewerStore.ViewResets | crates/cdktr-tui/src/stores/log_viewer_store.rs:131-174 | opening, closing and switching mode all start from an empty view; opening is in query mode for that workflow |
| LogViewerStore.QueryOutcomes | crates/cdktr-tui/src/stores/log_viewer_store.rs:181-193 | a failed query shows exactly its error line under "Query Error"; a result replaces the lines and clears the error |
| LogViewerStore.ReceivedKeepsOnlyViewed | crates/cdktr-tui/src/stores/log_viewer_store.rs:195-210 | a streamed line is kept exactly when the viewer is open on its workflow in live mode, and then it is the newest line; with auto-scroll the view follows it |
| LogViewerStore.StepKeepsCursorInField | crates/cdktr-tui/src/stores/log_viewer_store.rs:127-214 | no action of the reducer takes the cursor out of the focused field |
| LogViewerStore.CalendarSelectStrandsCursor | crates/cdktr-tui/src/stores/log_viewer_store.rs:527-567 | as written, picking a date after typing in the start field leaves the cursor past the text's end, and the next Backspace panics |
| LogViewerStore.ClampCursor | crates/cdktr-tui/src/stores/log_viewer_store.rs:527-567 | the clamp the corrected date pick adds, absent from the code as written: the cursor is brought within the focused field, moving only left and only when outside |
| LogViewerStore.CalendarSelectedKeepsCursorInField | crates/cdktr-tui/src/stores/log_viewer_store.rs:527-567 | the corrected date pick keeps the cursor inside the focused field and differs from the code only in the cursor, and only where the code strands it |
| LogViewerStore.LogViewerStore.constructor | crates/cdktr-tui/src/stores/log_viewer_store.rs:117-121 | a new store holds the default state |
| LogViewerStore.LogViewerStore.GetState | crates/cdktr-tui/src/stores/log_viewer_store.rs:123-125 | a copy of the state |
| LogViewerStore.LogViewerStore.Reduce | crates/cdktr-tui/src/stores/log_viewer_store.rs:127-214 | the state takes the step the lemmas above describe |
| LogViewerStore.LogViewerStore.ToggleLogMode | crates/cdktr-tui/src/stores/log_viewer_store.rs:149-174 | the mode flips and the view clears; entering query mode resets the range to the two days before now and clears the filter |
| LogViewerStore.LogViewerStore.LogReceived | crates/cdktr-tui/src/stores/log_viewer_store.rs:195-210 | a line of the viewed workflow in live mode is appended; the view follows it or keeps its place |
| LogViewerStore.LogViewerStore.AddLog | crates/cdktr-tui/src/stores/log_viewer_store.rs:217-225 | the line is appended; with live mode and auto-scroll the view returns to the newest line; nothing else changes |
| LogViewerStore.LogViewerStore.SetLogs | crates/cdktr-tui/src/stores/log_viewer_store.rs:228-232 | the lines are replaced and the view returns to the start |
| LogViewerStore.LogViewerStore.ScrollDown | crates/cdktr-tui/src/stores/log_viewer_store.rs:235-242 | the state becomes `ScrolledDown` |
| LogViewerStore.LogViewerStore.ScrollUp | crates/cdktr-tui/src/stores/log_viewer_store.rs:245-252 | the state becomes `ScrolledUp` |
| LogViewerStore.LogViewerStore.UpdateInput | crates/cdktr-tui/src/stores/log_viewer_store.rs:255-271 | only the inputs change, as `UpdatedInputEffect` describes |
| LogViewerStore.LogViewerStore.DeleteInput | crates/cdktr-tui/src/stores/log_viewer_store.rs:274-289 | reports the panic of removing outside the text; otherwise only the inputs change, as `DeletedInputEffect` describes |
| LogViewerStore.LogViewerStore.FocusNextField | crates/cdktr-tui/src/stores/log_viewer_store.rs:292-309 | the next field is focused with the cursor at its end |
| LogViewerStore.LogViewerStore.FocusPrevField | crates/cdktr-tui/src/stores/log_viewer_store.rs:312-329 | the previous field is focused with the cursor at its end |
| LogViewerStore.LogViewerStore.ClearFocus | crates/cdktr-tui/src/stores/log_viewer_store.rs:332-336 | no field focused, cursor at 0 |
| LogViewerStore.LogViewerStore.EnterEditingMode | crates/cdktr-tui/src/stores/log_viewer_store.rs:338-344 | editing, with the start time focused and the cursor at its end |
| LogViewerStore.LogViewerStore.ExitEditingMode | crates/cdktr-tui/src/stores/log_viewer_store.rs:346-351 | not editing, no field focused, cursor at 0 |
| LogViewerStore.LogViewerStore.CursorLeft | crates/cdktr-tui/src/stores/log_viewer_store.rs:354-359 | the cursor steps left, stopping at 0 |
| LogViewerStore.LogViewerStore.CursorRight | crates/cdktr-tui/src/stores/log_viewer_store.rs:362-375 | the cursor steps right inside the focused field's text |
| LogViewerStore.LogViewerStore.SetError | crates/cdktr-tui/src/stores/log_viewer_store.rs:378-382 | the error is shown and the lines cleared |
| LogViewerStore.LogViewerStore.ClearError | crates/cdktr-tui/src/stores/log_viewer_store.rs:384-387 | the error is cleared and nothing else changes |
| LogViewerStore.LogViewerStore.ParseTimeInputs | crates/cdktr-tui/src/stores/log_viewer_store.rs:389-410 | an unreadable start time is "Invalid start time: …", checked before the end; the range changes only when both texts parse |
| LogViewerStore.LogViewerStore.ToggleAutoScroll | crates/cdktr-tui/src/stores/log_viewer_store.rs:414-417 | auto-scroll flips |
| LogViewerStore.LogViewerStore.OpenStartCalendar | crates/cdktr-tui/src/stores/log_viewer_store.rs:449-458 | only the start calendar is open |
| LogViewerStore.LogViewerStore.OpenEndCalendar | crates/cdktr-tui/src/stores/log_viewer_store.rs:461-469 | only the end calendar is open |
| LogViewerStore.LogViewerStore.CloseCalendar | crates/cdktr-tui/src/stores/log_viewer_store.rs:472-476 | both calendars are closed |
| LogViewerStore.LogViewerStore.CalendarSelectDate | crates/cdktr-tui/src/stores/log_viewer_store.rs:527-567 | the open calendar's field takes the picked time and the calendar closes; this is the corrected pick of "## Findings", which also clamps the cursor to the new text |
| Keyboard.NextPanelCycles | crates/cdktr-tui/src/keyboard.rs:172-179 | Tab visits every panel and returns after three presses |
| Keyboard.SelectedIndexOrFirst | crates/cdktr-tui/src/keyboard.rs:188 | the selected workflow's position, or the first when nothing listed is selected |
| Keyboard.NextWorkflow | crates/cdktr-tui/src/keyboard.rs:182-197 | nothing for an empty list; otherwise the workflow after the current one, after the last the first |
| Keyboard.PreviousWorkflow | crates/cdktr-tui/src/keyboard.rs:200-215 | nothing for an empty list; otherwise the workflow before the current one, before the first the last |
| Keyboard.NoSelectionCountsAsFirst | crates/cdktr-tui/src/keyboard.rs:188 | with nothing selected, Down selects the second workflow (the first when alone) and Up the last |
| Keyboard.WorkflowMovesWrap | crates/cdktr-tui/src/keyboard.rs:189-193 | Down from the last workflow selects the first, Up from the first the last |
| Keyboard.Popped | crates/cdktr-tui/src/keyboard.rs:84-85 | the filter without its last character, or empty when it is empty |
| Keyboard.EditedFilter | crates/cdktr-tui/src/keyboard.rs:83-96 | Backspace drops the last character, a printable character is appended, Esc clears; nothing else edits the filter |
| Keyboard.TypeThenBackspace | crates/cdktr-tui/src/keyboard.rs:83-92 | typing a printable character then Backspace gives the filter back |
| Keyboard.WorkflowsTabKeysStayInPanel | crates/cdktr-tui/src/keyboard.rs:55-142 | each panel's keys produce only that panel's actions, and Tab focuses the next panel |
| Keyboard.SidebarTyping | crates/cdktr-tui/src/keyboard.rs:88-103 | a printable character goes into the focused panel's filter, even one that navigates elsewhere; Enter in the sidebar opens the viewer on the selected workflow |
| Keyboard.RouteKey | crates/cdktr-tui/src/keyboard.rs:19-21 | an open log viewer takes the key exactly when it is open |
| Keyboard.GlobalKeysFirst | crates/cdktr-tui/src/keyboard.rs:23-52 | with the viewer closed, '?', '1' and '2' act whatever panel has focus, and 'q' quits exactly after ':' |
| Keyboard.QueryOnEnter | crates/cdktr-tui/src/keyboard.rs:314-323 | Enter runs the query exactly when both times parse, and otherwise reports the parser's error and leaves the store unchanged |
| Keyboard.EditedInputsKeepCursorInField | crates/cdktr-tui/src/keyboard.rs:261-313 | with the cursor inside its field, editing keys never panic and keep it inside |
| Keyboard.LetterCommand | crates/cdktr-tui/src/keyboard.rs:328-371 | no letter command touches the inputs, and only t, T, v and V produce an action |
| Keyboard.CalendarCapturesKeys | crates/cdktr-tui/src/keyboard.rs:225-260 | an open calendar swallows every key; only Esc and Enter change the store, and Esc closes it |
| Keyboard.FocusedFieldTakesLetters | crates/cdktr-tui/src/keyboard.rs:261-313 | while a field is focused, 't' is typed rather than switching modes, and Esc only drops the focus |
| Keyboard.FieldKeyKeepsCursorInField | crates/cdktr-tui/src/keyboard.rs:261-325 | a focused-field key never panics the store and keeps the cursor inside the text |
| Keyboard.NavigationKeyKeepsCursorInField | crates/cdktr-tui/src/keyboard.rs:326-374 | a navigation key never panics the store and keeps the cursor inside the text |
| Keyboard.LogViewerKeyKeepsCursorInField | crates/cdktr-tui/src/keyboard.rs:218-375 | under the corrected date pick of "## Findings", no key panics the log viewer store and the cursor stays in the text |
| Keyboard.HandleLogViewerKeys | crates/cdktr-tui/src/keyboard.rs:218-375 | the store and the action follow `LogViewerKey`, whose calendar Enter is the corrected date pick |
| Keyboard.HandleFieldKeys | crates/cdktr-tui/src/keyboard.rs:261-325 | the focused-field arm, as `FieldKey` |
| Keyboard.HandleNavigationKeys | crates/cdktr-tui/src/keyboard.rs:326-374 | the navigation arm, as `NavigationKey`, never panicking |
| Keyboard.HandleNavigationChar | crates/cdktr-tui/src/keyboard.rs:330-371 | the letter commands, as `LetterCommand` |
| Keyboard.RunQuery | crates/cdktr-tui/src/keyboard.rs:314-323 | Enter's query, as `QueryOnEnter` |
| Keyboard.HandleAdminTabKeys | crates/cdktr-tui/src/keyboard.rs:144-170 | j/Down and PageDown scroll towards the newest line by 1 and 10, k/Up and PageUp back, g to the newest; no action and the lines untouched |
| Keyboard.HandleKeyEvent | crates/cdktr-tui/src/keyboard.rs:8-53 | an open viewer takes the key; otherwise ':' starts and Esc cancels the command, global keys act, then the active tab's keys; only the routed store changes |
| RustInts.AsI32Wraps | crates/cdktr-tui/src/stores/workflows_store.rs:119-120 | the `as i32` cast and `i32` sum keep in-range values and otherwise agree with the exact value modulo 2^32 |
| RustInts.AsI16Wraps | crates/cdktr-tui/src/stores/workflows_store.rs:133-134 | the `as i16` cast and `i16` sum keep in-range values and otherwise agree with the exact value modulo 2^16 |
| RustInts.ParseInt | crates/cdktr-core/src/api/principal.rs:243-245 | `str::parse` into an integer type succeeds only with a value inside the type's range, on text that starts with a digit or an allowed sign |
| RustInts.ParseIntErrorText | crates/cdktr-core/src/api/principal.rs:246-250 | the parse error's text names the empty-string case exactly when the input is empty |
| RustInts.DecimalDigits | cdktr/crates/cdktr-core/src/utils/mod.rs:13 | `to_string` of a number gives a non-empty run of digits that reads back as the number |
| RustInts.ParseDecimal | crates/cdktr-ipc/src/log_manager/model.rs:185 | parsing a printed non-negative number gives it back, for any type whose range holds it |
| RustInts.ParseSignedDecimal | crates/cdktr-core/src/api/principal.rs:219-227 | parsing a printed signed number gives it back, negative numbers included |
| RustInts.SignedDecimalChars | crates/cdktr-core/src/api/principal.rs:219-227 | a printed number holds only digits and '-', so it never contains the message delimiter |
| Strings.JoinSplit | cdktr/crates/cdktr-core/src/utils/mod.rs:5-7 | joining the pieces `split` produces, with the split character, gives the text back |
| Strings.SplitJoin | cdktr/crates/cdktr-core/src/utils/mod.rs:5-7 | splitting a join of separator-free pieces gives the pieces back |
| Strings.SplitCount | cdktr/crates/cdktr-core/src/utils/mod.rs:5-7 | `split` yields one more piece than the text has separators |

## Left out

- Sockets, processes, the database and `async` scheduling are not modelled. One locked or awaited call is one atomic step, and concurrent interleavings are not modelled.
- The JSON, serde and YAML (de)serialisers are parameters or given inputs. `WorkflowModels.FromYaml` takes the parse result as an argument, so the read failure of `fs::read_to_string` (the "Error reading yaml file" workflow error at crates/cdktr-workflow/src/models.rs:265-273) is not modelled; and the principal's handlers take the JSON serialiser as a function.
- The cron library, the clock (`Utc::now`), chrono's time formatting and parsing, and the calendar date arithmetic are parameters. This includes the picked instant, the next and previous day and month, and `selected_date`. `LogViewerStore.ParseTimeInputs` is modelled with the parser passed in.
- The older core principal's `TaskStatus` type is not defined in the files modelled. Its status-update command is modelled over the `RunStatus` names.
- Principal.PrincipalServer.HandleClientMessage: requires that the command is not `GETRECENTSTATUSES` or `GETREGISTEREDAGENTS`. The server's own command enum has no such variants, and the dispatch is modelled over the api crate's command type.
- `get_filtered_logs` (the regex and lower-case filter of the log viewer) is not modelled. Regular expressions and Unicode case folding are outside the model.
- Text is a sequence of characters. Where the source indexes strings by byte (`String::insert`, `remove`), the model indexes by character. The two agree on the ASCII times and ids these fields hold. Display width (`unicode-width`) is the character count.
- `usize` and `u16` are unbounded naturals. Wrap-around, as a release build does it, is modelled only where it can change a result. These are the places:
  - the `i32`/`i16` scroll sums of the workflows store;
  - the `usize` sums in the two log windows;
  - the `usize` increment of the log viewer's scroll offset when a line arrives without auto-scroll (`LogViewerStore.Received`);
  - the `as u16` cast and `+ 1` of `InputBox.CursorPosition`;
  - the `as u16` cell widths and their `+ 1` padding (`DataPane.Width`, `DataPane.Padded`);
  - the `u16` decrement in `DataPane.ConstraintLenCalculator`.
- AdminPanel.VisibleLines, LogViewerModal.WindowShape, LogViewerModal.VisibleLinesAreWindow: require that the height plus the scroll offset fits in a `usize`. Beyond that the sum wraps, and `LogViewerModal.VisibleLines` then reports the panicking slice as `None`.
- DataPane.DataTable.constructor: requires a non-empty row list. On an empty list the source's `data_vec.len() - 1` underflows, which panics in a debug build and wraps in a release build. The model states neither outcome.
- DataPane.ColumnWidths: its contract states only one width per column. What the widths are is stated by `DataPane.ConstraintLenCalculator` and `DataPane.ColumnMaxIsMax`.
- The widgets' rendering (ratatui layout, styles, `ListState`/`TableState` internals) is left out. Only the index arithmetic the renderers compute is modelled. `TableColors` is modelled as a palette index.
- The control panel's action handlers (`execute`, `toggle`, `act`, `render` of the ping, list and create-task panes) are left out. These send requests over the network.
- LogViewerStore.LogViewerStore.CalendarSelectDate: models the corrected date pick (`LogViewerStore.CalendarSelected`), which clamps the cursor to the new text. The code at crates/cdktr-tui/src/stores/log_viewer_store.rs:527-567 leaves the cursor alone. That as-written pick is `LogViewerStore.CalendarSelectedAsWritten`; see "## Findings".
- LogViewerStore.ClampCursor: has no counterpart in the source. It is the cursor clamp of the corrected date pick.
- Keyboard.CalendarKey: Enter in an open calendar applies the corrected date pick, not the code as written.
- Keyboard.LogViewerKeyKeepsCursorInField: holds for the corrected date pick only. With the code as written, a date pick can strand the cursor, and the next Backspace panics (`LogViewerStore.CalendarSelectStrandsCursor`).
- Keyboard.HandleLogViewerKeys, Keyboard.HandleKeyEvent: route calendar keys through `Keyboard.CalendarKey`, so they too describe the corrected date pick.
- Principal.PrincipalServer.constructor: does not keep the server's `instance_id`, which nothing in crates/cdktr-ipc/src/server/principal/mod.rs reads.
- keyboard.rs reads and changes a command-input string through `set_command_input` and `clear_command_input`, which the UI store does not define. The model takes that string as a parameter and returns the new one.
- `sort_by_key` on workflow ids is modelled as an insertion sort. Ids in the store are distinct, so stability does not show.
- A `HashMap` whose iteration order the code depends on is given as a list in that order. This applies to the task table of a workflow and the workflow store.
- The source's comment on the width computation says "no padding on last", while the code removes the padding from column N−2. The model follows the code.
- The control panel's key test at crates/cdktr-tui/src/control_panel/mod.rs:291-293 expects the first action after Up, Down, Down, Up. The code selects the second, and `ControlPanel.UpDownDownUp` follows the code.
- The process-wide `UNIQUENESS_COUNTER` of the agent priority queue is a field of each queue. Ids are then unique within one queue, which is all the queue relies on, and sharing between queues is not modelled.
- Logging through the `log` facade's global logger is modelled by `Logger.Log` on an explicit buffer.

## Findings

| source | as written | input that shows it | evidently intended | confidence | as-written member | corrected member |
|---|---|---|---|---|---|---|
| crates/cdktr-tui/src/stores/log_viewer_store.rs:527-567 | picking a date from the calendar replaces the focused field's text but leaves the cursor where it was | focus the start time (cursor 23 at its end), type one character (cursor 24), open the calendar and pick a date (text back to 23 characters, cursor still 24), then press Backspace: `String::remove(23)` on a 23-character string panics | the cursor stays within the focused field's text | not executed | LogViewerStore.CalendarSelectStrandsCursor | LogViewerStore.CalendarSelectedKeepsCursorInField |
