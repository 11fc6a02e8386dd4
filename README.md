# Smart travel assistant: a verified model of its deterministic core

The travel assistant is a LangGraph workflow. It extracts trip details from a
conversation, asks a language model for an itinerary, gathers attractions, weather
and hotels through tool agents, checks the budget, and replans while the plan is
over budget (at most three tries). This project models the deterministic layer
around the model calls and proves what that layer promises. Every model call, MCP
session and tool body is a function parameter.

Modules, one per source file (helpers first):

- `Wrappers`: `Option`, `Result`, and `Key<T>` for a dict key that may be missing.
- `Text`: `sep.join` and `str.split()`.
- `PyValues`: the Python values the steps pass around (`None`, strings, lists,
  dicts), with truthiness, `str()` and `repr()`.
- `Messages`: the `add_messages` merge of the transcript, keyed by message id.
- `Schemas`: the pydantic trip records with their defaults.
- `Calculator`: `parse_cost` and `calculate_itinerary_cost`.
- `BackendState`, `LegacyState`: the two state records and their per-key merge policy.
- `BackendPrompts`, `LegacyPrompts`: the planner prompt builders.
  - Each is an imperative method that appends section by section.
  - Each is proved equal to a list of sections whose presence and order are proved separately.
- `BackendNodes`, `LegacyNodes`: `process_input`, `plan_itinerary` and `generate_response`.
- `Workflow`: the graph.
  - It is built by a `GraphBuilder` class whose methods mirror `add_node`, `add_edge`, `add_conditional_edges` and `compile`.
  - It holds the `should_replan` router.
  - Its superstep interpreter runs every active node on the same snapshot, merges their updates in node order and follows static edges and the router. A step budget plays the role of the recursion limit.
- `ToolAgent`: `run_simple_tool_agent`, the single-round tool loop.
- `McpTools`: `call_mcp_tool`, the server configuration and the four tools.

## Model

| member | source | states |
|---|---|---|
| Calculator.Clean | src/travel_assistant/backend/tools/calculator.py:16 | the cleaned string holds only digits and dots and is no longer than the input |
| Calculator.CleanAppend | src/travel_assistant/backend/tools/calculator.py:16 | cleaning a concatenation concatenates the cleaned parts, so characters keep their order |
| Calculator.CleanKeepsCostChars | src/travel_assistant/backend/tools/calculator.py:16 | a string of digits and dots comes through cleaning unchanged |
| Calculator.CleanDropsNoise | src/travel_assistant/backend/tools/calculator.py:16 | a string with no digit and no dot cleans to the empty string |
| Calculator.CleanIdempotent | src/travel_assistant/backend/tools/calculator.py:16 | cleaning twice is cleaning once |
| Calculator.ParseCost | src/travel_assistant/backend/tools/calculator.py:5-21 | `None` and `""` cost 0; a cleaned string that is not a valid decimal (no digit, or more than one dot) costs 0; otherwise the cost is the decimal value of the cleaned string; never negative |
| Calculator.NoiseInsensitive | src/travel_assistant/backend/tools/calculator.py:16-19 | inserting a character that is neither a digit nor a dot anywhere never changes the parsed cost |
| Calculator.ParseCostOfCleanInteger | src/travel_assistant/backend/tools/calculator.py:16-19 | a cost whose digits and dots are exactly the decimal digits of `n` parses to `n` |
| Calculator.ParseCostOfInteger | src/travel_assistant/backend/tools/calculator.py:16-19 | an integer surrounded by text without digits or dots parses to that integer |
| Calculator.IntegerExamples | tests/test_budget_calculator.py:8-10 | "$100" is 100, "approx 200 EUR" is 200, and "-50" is 50 because the sign is stripped |
| Calculator.FractionExample | tests/test_budget_calculator.py:9 | "500.50" is 500.5 |
| Calculator.NoDigitExamples | tests/test_budget_calculator.py:11-13 | "Free", `None` and "" cost 0 |
| Calculator.ThousandsSeparatorExample | src/travel_assistant/backend/tools/calculator.py:16 | "1,000" is 1000: the separator is dropped |
| Calculator.CleanPriceRange | src/travel_assistant/backend/tools/calculator.py:16 | "$5-$10" cleans to "510" |
| Calculator.PriceRangeExample | src/travel_assistant/backend/tools/calculator.py:16-19 | "$5-$10" is 510: digits of separate numbers run together |
| Calculator.NodesCostAppend | src/travel_assistant/backend/tools/calculator.py:30-32 | the cost of two runs of nodes is the sum of their costs |
| Calculator.NodesCostNonNegative | src/travel_assistant/backend/tools/calculator.py:28-34 | a sum of parsed costs is never negative |
| Calculator.CalculateItineraryCost | src/travel_assistant/backend/tools/calculator.py:23-34 | the nested loops end with the sum of the parsed cost of every node of every day, in day order, and the total is never negative |
| Calculator.EmptyItineraryCostsNothing | src/travel_assistant/backend/tools/calculator.py:28-34 | a trip without days costs 0 |
| Calculator.TwoDayExample | tests/test_budget_calculator.py:15-37 | "$200" and "50" on day 1 and "20 EUR" on day 2 total 270 |
| Schemas.TripDefaults | src/travel_assistant/schemas.py:47-55 | a trip given only its destination has no dates or budget, no interests, days or notes, and one traveller |
| Schemas.TripNodeDefaults | src/travel_assistant/schemas.py:19-25 | a node given its name and description has no times, coordinates, cost or type |
| Schemas.DailyItineraryDefaults | src/travel_assistant/schemas.py:31-34 | a day given its number and summary has no date and no nodes |
| Schemas.CoordinateDefaults | src/travel_assistant/schemas.py:11-13 | a coordinate given latitude and longitude has no address |
| Messages.IndexOfId | src/travel_assistant/backend/state.py:20 | the position found holds the id, and "not found" means no entry has it |
| Messages.AddMessages | src/travel_assistant/backend/state.py:20 | the merged transcript never shrinks, holds exactly the ids of both sides, and keeps in place every entry whose id the update does not mention |
| Messages.AppendsFresh | src/travel_assistant/backend/state.py:20 | a message with a new id lands after the existing transcript |
| Messages.AddMessagesKeepsUnique | src/travel_assistant/backend/state.py:20 | merging keeps transcript ids unique |
| Messages.AddOneExisting | src/travel_assistant/backend/state.py:20 | merging a message already present (same id, same content) changes nothing |
| Messages.AddMessagesSelf | src/travel_assistant/backend/state.py:20 | merging a transcript with unique ids into itself changes nothing |
| BackendState.Replace | src/travel_assistant/backend/state.py:21-32 | a written key takes the written value and an omitted one keeps its own |
| BackendState.Merge | src/travel_assistant/backend/state.py:20-32 | the transcript is merged with `add_messages` and never shrinks; each other key is replaced when written and kept when omitted |
| BackendState.OmittedKeysUnchanged | src/travel_assistant/backend/state.py:20-32 | every key an update omits keeps its value |
| BackendState.MergeNothing | src/travel_assistant/backend/state.py:20-32 | the empty update changes nothing |
| BackendState.MergeOwnState | src/travel_assistant/backend/agents/nodes.py:46-48 | returning the incoming state, as the failure paths do, leaves the state unchanged and does not duplicate the transcript |
| BackendState.MergeAppendsMessage | src/travel_assistant/backend/agents/nodes.py:101 | a one-message update with a new id appends that message |
| BackendState.MergeKeepsUniqueIds | src/travel_assistant/backend/state.py:20 | merging keeps transcript ids unique |
| BackendState.NotBothWrite | src/travel_assistant/backend/state.py:21-32 | updates with disjoint key sets never both write one key |
| BackendState.ReplaceCommutes | src/travel_assistant/backend/state.py:21-32 | two replacements of one key commute when at most one of them writes |
| BackendState.DisjointUpdatesCommute | src/travel_assistant/backend/state.py:25-27 | updates writing disjoint keys, such as the three fan-out agents' `attractions_info`, `weather_info` and `hotel_info`, can be merged in either order |
| BackendState.RecordKeys | src/travel_assistant/backend/state.py:20-24 | the record has `messages`, `destination`, `travel_dates`, `preferences` and `trip_plan` among its keys |
| LegacyState.Merge | src/travel_assistant/state.py:18-21 | the transcript is merged with `add_messages`; the three optional keys are replaced when written and kept when omitted |
| LegacyState.LaterRecordExtendsThisOne | src/travel_assistant/state.py:18-21 | this record's keys are a strict subset of the later record's, and both merge policies agree on the shared keys |
| LegacyState.MergeOwnState | src/travel_assistant/state.py:18 | merging the state into itself changes nothing |
| LegacyState.MergeAppendsMessage | src/travel_assistant/state.py:18 | a one-message update with a new id appends that message |
| PyValues.Str | src/travel_assistant/backend/prompts.py:43-49 | an f-string shows a string as itself |
| PyValues.StrList | src/travel_assistant/backend/agents/nodes.py:42 | a list of strings keeps its length and items |
| PyValues.GetStr | src/travel_assistant/backend/agents/nodes.py:67 | `state.get(key, default)`: a missing key gives the default, a stored `None` gives `None`, a stored string gives that string |
| PyValues.GetDict | src/travel_assistant/backend/agents/nodes.py:68-69 | `state.get(key, {})`: a missing key gives an empty, falsy dict; a stored value is returned as is |
| PyValues.ReprExample | src/travel_assistant/backend/prompts.py:47 | `['art']` is how a list of strings prints |
| PyValues.DictReprExample | src/travel_assistant/backend/prompts.py:47 | `{'interests': ['art']}` is how the stored preferences print |
| BackendPrompts.AssembleAppend | src/travel_assistant/backend/prompts.py:43-51 | the text of a concatenation of sections is the concatenation of their texts |
| BackendPrompts.HasKindConcat | src/travel_assistant/backend/prompts.py:43-51 | a concatenation of sections holds a kind exactly when one of the parts does |
| BackendPrompts.KindPresent | src/travel_assistant/backend/prompts.py:43-51 | for each kind: the destination line is always there, and every other section is there exactly when its argument is truthy |
| BackendPrompts.SectionPresence | src/travel_assistant/backend/prompts.py:43-51 | the destination line is always there; dates, budget, preferences and feedback each appear if and only if their argument is truthy |
| BackendPrompts.SectionsInOrder | src/travel_assistant/backend/prompts.py:43-51 | the first section is the destination line, and sections come in the order destination, dates, budget, preferences, feedback |
| BackendPrompts.TerminatedSections | src/travel_assistant/backend/prompts.py:43-51 | every section ends in a newline |
| BackendPrompts.EndsWithNewline | src/travel_assistant/backend/prompts.py:43-51 | the prompt is non-empty and ends in a newline |
| BackendPrompts.StartsWithDestination | src/travel_assistant/backend/prompts.py:43 | the prompt begins with "Destination: {destination}\n" |
| BackendPrompts.BareDestination | src/travel_assistant/backend/prompts.py:43-52 | with every optional argument falsy the prompt is exactly the destination line |
| BackendPrompts.FeedbackAfterBlankLine | src/travel_assistant/backend/prompts.py:50-51 | with feedback, the prompt ends with the feedback block and a newline comes right before that block's own leading newline, so a blank line precedes the heading |
| BackendPrompts.AppendIf | src/travel_assistant/backend/prompts.py:44-51 | one `if v: user_prompt += ...` step appends the section's text exactly when the section is emitted |
| BackendPrompts.GetPlannerUserPrompt | src/travel_assistant/backend/prompts.py:26-52 | the string built by successive appends is the text of the planner's section list |
| LegacyPrompts.LaterBuilderWithoutBudgetOrFeedback | src/travel_assistant/prompts.py:10-28 | the three-argument builder is the five-argument one without budget and feedback: no budget or feedback section; dates and preferences lines exactly when truthy |
| LegacyPrompts.GetPlannerUserPrompt | src/travel_assistant/prompts.py:10-28 | the string built by successive appends is the text of the three-argument section list |
| BackendNodes.History | src/travel_assistant/backend/agents/nodes.py:28 | no messages give an empty history, and one message gives the single line `type: content` |
| BackendNodes.ExtractedUpdate | src/travel_assistant/backend/agents/nodes.py:36-44 | the update writes `destination` iff the extracted one is non-empty, `travel_dates` iff both dates are, `preferences` iff the interests are, each with the extracted value, and no other key (so never the budget) |
| BackendNodes.ProcessInput | src/travel_assistant/backend/agents/nodes.py:11-48 | the update dict filled one key at a time is the extracted update, or the incoming state when the call fails |
| BackendNodes.ProcessInputFailureKeepsState | src/travel_assistant/backend/agents/nodes.py:46-48 | a failed extraction leaves the state exactly as it was |
| BackendNodes.ProcessInputTouchesOnlyExtractedKeys | src/travel_assistant/backend/agents/nodes.py:36-44 | a successful extraction changes no key but `destination`, `travel_dates` and `preferences` |
| BackendNodes.PlanUpdate | src/travel_assistant/backend/agents/nodes.py:74-83 | success gives the update holding only `trip_plan`, and failure gives the incoming state |
| BackendNodes.PlanItineraryOutcome | src/travel_assistant/backend/agents/nodes.py:65-83 | a successful plan writes exactly `trip_plan`; a failed one leaves the state unchanged |
| BackendNodes.PlannerPromptDropsFeedback | src/travel_assistant/backend/agents/nodes.py:67-72 | as written, the prompt has no feedback and no preferences section, and a budget line exactly when the stored preferences are truthy |
| BackendNodes.IntendedPromptCarriesFeedback | src/travel_assistant/backend/prompts.py:26-31 | with arguments in their slots, the feedback block appears iff feedback is stored, the preferences line iff preferences are truthy, the budget line iff a budget is stored |
| BackendNodes.RetryPromptLosesFeedback | src/travel_assistant/backend/agents/nodes.py:72 | on a retry with feedback "Over budget", the prompt as written is exactly "Destination: Paris\nBudget: {'interests': ['art']}\n"; the intended prompt has the feedback block |
| BackendNodes.GenerateResponse | src/travel_assistant/backend/agents/nodes.py:86-112 | with no plan, the update writes only `messages`, holding just the fixed apology. With a plan, a successful model reply to the plan's JSON becomes that one message. A failing reply call is not caught: the step raises with the call's error |
| BackendNodes.ResponseAppended | src/travel_assistant/backend/agents/nodes.py:98-112 | a response that was produced is appended after the transcript and nothing else changes |
| LegacyNodes.ProcessInput | src/travel_assistant/nodes.py:25-26 | the placeholder returns its input |
| LegacyNodes.GenerateResponse | src/travel_assistant/nodes.py:76-77 | the placeholder returns its input |
| LegacyNodes.PlaceholdersChangeNothing | src/travel_assistant/nodes.py:25-26 | merging what either placeholder returns leaves the state unchanged |
| LegacyNodes.PlanItinerary | src/travel_assistant/nodes.py:43-61 | the plan on success, the incoming state on failure |
| LegacyNodes.PreferencesInTheirSlot | src/travel_assistant/nodes.py:45-50 | here the preferences line appears exactly when the stored preferences are truthy, the dates line exactly when the dates are, and there is no budget line |
| LegacyNodes.TripPlanIsNotAKeyOfThisRecord | src/travel_assistant/nodes.py:57 | the key the earlier planner writes is not a key of the earlier record |
| Workflow.GraphBuilder.constructor | src/travel_assistant/backend/graph.py:18 | a new builder has no nodes, entry point, edges or routers |
| Workflow.GraphBuilder.AddNode | src/travel_assistant/backend/graph.py:21-28 | a new name is appended and accepted; a name already declared is refused; nothing else changes |
| Workflow.GraphBuilder.SetEntryPoint | src/travel_assistant/backend/graph.py:32 | sets the entry point and nothing else |
| Workflow.GraphBuilder.AddEdge | src/travel_assistant/backend/graph.py:33-45 | appends one edge and nothing else |
| Workflow.GraphBuilder.AddConditionalEdges | src/travel_assistant/backend/graph.py:56-59 | registers the node as routed by the router and nothing else |
| Workflow.GraphBuilder.Compile | src/travel_assistant/backend/graph.py:64 | compiles exactly when there is an entry point and every edge and router names declared nodes, giving the builder's graph |
| Workflow.AddTravelNodes | src/travel_assistant/backend/graph.py:21-28 | the eight `add_node` calls all succeed and declare the nodes in order |
| Workflow.AddTravelEdges | src/travel_assistant/backend/graph.py:33-61 | the edge calls build the nine static edges and the one router |
| Workflow.BuildTravelGraph | src/travel_assistant/backend/graph.py:18-64 | the module body compiles, to the travel graph |
| Workflow.TravelGraphWellFormed | src/travel_assistant/backend/graph.py:18-64 | every edge of the travel graph joins declared nodes |
| Workflow.ShouldReplan | src/travel_assistant/backend/graph.py:47-54 | the router answers `plan_itinerary` exactly when the status is "OVER_BUDGET" and the retries (missing counts as 0) are under 3; otherwise `generate_response` |
| Workflow.SuccessorsOf | src/travel_assistant/backend/graph.py:33-61 | a node's static successors are exactly the edge targets listed for it |
| Workflow.EntryLeadsToPlanner | src/travel_assistant/backend/graph.py:32-33 | the entry point is `process_input`, whose only successor is `plan_itinerary` |
| Workflow.PlannerFansOut | src/travel_assistant/backend/graph.py:36-38 | `plan_itinerary` leads to exactly the three agents |
| Workflow.AgentsJoinAtRefine | src/travel_assistant/backend/graph.py:41-43 | each agent's only successor is `refine_itinerary` |
| Workflow.RefineLeadsToValidation | src/travel_assistant/backend/graph.py:45 | `refine_itinerary` leads only to `validate_budget` |
| Workflow.ValidationIsRoutedAndResponseEnds | src/travel_assistant/backend/graph.py:56-61 | `validate_budget` has no static edge and is the one routed node; `generate_response` leads only to the end |
| Workflow.EdgesGoDeeper | src/travel_assistant/backend/graph.py:33-61 | every static edge leads to a deeper node |
| Workflow.OnlyBackEdgeIsTheRouter | src/travel_assistant/backend/graph.py:52-61 | every static edge goes deeper, and the router goes back exactly when it answers `plan_itinerary` |
| Workflow.AnyLeads | src/travel_assistant/backend/graph.py:33-61 | a set of nodes triggers `n` exactly when one of its members leads to `n`, by an edge or by the router |
| Workflow.Triggered | src/travel_assistant/backend/graph.py:33-61 | the next nodes are exactly the declared nodes some active node triggers |
| Workflow.NextAfterInput | src/travel_assistant/backend/graph.py:33 | after `process_input` only `plan_itinerary` runs |
| Workflow.NextAfterPlanner | src/travel_assistant/backend/graph.py:36-38 | after the planner the three agents run together |
| Workflow.NextAfterAgents | src/travel_assistant/backend/graph.py:41-43 | after the three agents `refine_itinerary` runs once |
| Workflow.NextAfterRefine | src/travel_assistant/backend/graph.py:45 | after refinement `validate_budget` runs |
| Workflow.NextAfterValidate | src/travel_assistant/backend/graph.py:56-59 | after validation the node the router names runs |
| Workflow.NextAfterRespond | src/travel_assistant/backend/graph.py:61 | after `generate_response` nothing runs |
| Workflow.Prepend | src/travel_assistant/backend/graph.py:64 | adding a superstep to a run keeps its ending and state |
| Workflow.Run | src/travel_assistant/backend/graph.py:64 | a run takes at most the step budget, and stopping at the limit uses all of it |
| Workflow.ApplyAllKeepsRetries | src/travel_assistant/backend/graph.py:50 | supersteps without validation leave `planning_retries` as it was |
| Workflow.PlanningRound | src/travel_assistant/backend/graph.py:36-45 | one planning round is three supersteps (planner, three agents together, refinement) and leaves the retry count as it was |
| Workflow.ValidationRaises | src/travel_assistant/backend/graph.py:50-53 | a replan leaves the retry count raised but under 3 |
| Workflow.FromValidation | src/travel_assistant/backend/graph.py:47-61 | from validation the run finishes within 4 supersteps per remaining replan plus 2, and runs the planner at most once per remaining replan |
| Workflow.InvocationFinishes | src/travel_assistant/backend/graph.py:18-64 | when only validation raises the retry count and it raises it before each replan, every invocation finishes within 4·replans+6 supersteps and calls the planner at most replans+1 times |
| Workflow.DefaultLimitSuffices | src/travel_assistant/backend/graph.py:47-64 | from a non-negative retry count the run needs at most 14 supersteps, within the default recursion limit of 25, with at most 3 planner calls |
| Text.Split | src/travel_assistant/backend/tools.py:46-54 | every piece `.split()` yields is a non-empty run without whitespace |
| Text.SplitKeepsNonSpace | src/travel_assistant/backend/tools.py:46-54 | the pieces concatenate to the input's non-whitespace characters |
| Text.SplitJoin | src/travel_assistant/backend/tools.py:46-54 | splitting whitespace-free tokens joined by single spaces gives the tokens back |
| McpTools.TextsOf | src/travel_assistant/backend/tools.py:34-36 | the kept texts are no more than the items, and each comes from a text item |
| McpTools.TextsOfAppend | src/travel_assistant/backend/tools.py:34-36 | the texts of a concatenation are the texts of the parts, in order |
| McpTools.NonTextDropped | src/travel_assistant/backend/tools.py:35 | an item that is not text adds nothing, wherever it stands |
| McpTools.AllTextKept | src/travel_assistant/backend/tools.py:34-36 | when every item is text, every text is kept, in order |
| McpTools.Outcome | src/travel_assistant/backend/tools.py:29-40 | an exception gives "Error calling MCP tool {name}: {e}", an error result "Tool execution failed: {content}", and a success the text items joined by newlines |
| McpTools.CallMcpTool | src/travel_assistant/backend/tools.py:11-40 | an empty command gives "Error: No command configured for {name}"; otherwise the session's outcome is mapped to a string, so the call never raises |
| McpTools.NoCommandNeverConnects | src/travel_assistant/backend/tools.py:20-21 | with no command the session is never consulted |
| McpTools.SingleTextAnswer | src/travel_assistant/backend/tools.py:34-37 | a successful result with one text item answers with exactly that text |
| McpTools.ServerArgs | src/travel_assistant/backend/tools.py:46-54 | the server arguments are whitespace-free tokens |
| McpTools.ModuleIsToken | src/travel_assistant/backend/tools.py:47-54 | each default server module name is a single token |
| McpTools.DefaultServer | src/travel_assistant/backend/tools.py:45-54 | without overrides each server runs `python3` with the two arguments `-m` and its module |
| McpTools.DefaultWrappers | src/travel_assistant/backend/tools.py:57-96 | with the default environment each wrapper asks its own server for its own tool with its own arguments |
| McpTools.UnconfiguredWeather | src/travel_assistant/backend/tools.py:50-51 | an empty weather command in the environment makes `get_weather` answer with the configuration error |
| McpTools.SearchRestaurants | src/travel_assistant/backend/tools.py:99-112 | "Restaurants in {location} (Mock Data)", with " ({cuisine} cuisine)" after the location exactly when a non-empty cuisine is given |
| McpTools.RestaurantsFrame | src/travel_assistant/backend/tools.py:111-112 | the answer always starts with "Restaurants in {location}" and ends with " (Mock Data)" |
| McpTools.ToolNamesDistinct | src/travel_assistant/backend/tools.py:115 | the four tool names are distinct, so lookup by name is unambiguous |
| ToolAgent.ParseArgs | src/travel_assistant/backend/agents/tools.py:27-32 | string arguments are decoded when they parse as JSON and kept raw when they do not; other arguments pass unchanged |
| ToolAgent.FirstMatch | src/travel_assistant/backend/agents/tools.py:36 | the position found is the first tool with that name, or the end when none has it |
| ToolAgent.FindTool | src/travel_assistant/backend/agents/tools.py:35-36 | no tool is found exactly when no tool has the name; otherwise the one found is the first with that name |
| ToolAgent.FirstToolShadows | src/travel_assistant/backend/agents/tools.py:36 | a later tool with the same name is never used |
| ToolAgent.ToolOutput | src/travel_assistant/backend/agents/tools.py:38-49 | an unknown tool gives "Tool not found."; otherwise `str` of the tool's value, or "Tool execution error: {e}" when it raises |
| ToolAgent.ToolMessages | src/travel_assistant/backend/agents/tools.py:25-49 | one tool message per call, in call order, each with its call's output and id |
| ToolAgent.ToolMessagesSnoc | src/travel_assistant/backend/agents/tools.py:25-49 | answering one more call appends its one tool message |
| ToolAgent.AnswerCall | src/travel_assistant/backend/agents/tools.py:27-47 | the loop body's decoded arguments, lookup and call give exactly the tool output above |
| ToolAgent.AppendToolMessages | src/travel_assistant/backend/agents/tools.py:25-49 | the loop appends exactly the tool messages of all calls, in order, to the messages so far |
| ToolAgent.RunSimpleToolAgent | src/travel_assistant/backend/agents/tools.py:11-56 | if the first model call raises, the agent raises with its error after that one call. Without tool calls: one model call, and its content is the answer. Otherwise: exactly two model calls, the second receiving the prompt, the first reply and one tool message per call; its content is the answer, or its error is raised. Only tool failures are caught |

## Left out

- The model and tool calls, the MCP session, `json.loads`, `model_dump_json` and fresh message ids are parameters. The source gets these from `ChatOpenAI`, `mcp`, `json`, pydantic and `uuid`.
- The bodies of `validate_budget`, `refine_itinerary` and the three information agents are imported by `backend/graph.py` but are not defined in `backend/agents/nodes.py`. They are parameters of the interpreter. Their feedback text and retry increments are not modelled.
- LangGraph itself is not part of this model: the asyncio scheduler, the checkpoint saver, and the exact recursion-limit error. The interpreter runs the nodes of a superstep one after another on one snapshot and merges them in declaration order. `DisjointUpdatesCommute` shows the order does not matter when siblings write different keys.
- Workflow.InvocationFinishes: the bound holds only for node bodies that leave `planning_retries` alone, except validation, which must raise it before each replan. This assumes behaviour of the unseen `validate_budget`. The source's tests expect two planner calls for an over-budget first draft, and that exact count is not replayed; the lemma bounds the count from above.
- Workflow.Run: a run that hits the limit ends in a `RecursionLimit` outcome rather than an exception. The interpreter's step bodies always return an update, so a step that raises, such as `BackendNodes.GenerateResponse` on a failed reply call, is not carried into a run: in the source it ends the invocation.
- Calculator.ParseCost: amounts are exact reals, not binary floats. The decimal-point rules are those of the cleaned string (digits and dots only), so `float`'s exponent, sign and infinity syntax cannot arise. `\d` is taken as the ASCII digits only.
- PyValues.Repr: strings are always shown in single quotes, with no escaping. Python switches to double quotes or escapes some characters.
- ToolAgent.Call: `hasattr(tool, "ainvoke")` is modelled as whether the tool carries an asynchronous entry point. Awaiting is not modelled.
- McpTools.CallMcpTool: `str(result.content)` for an error result is the `show` parameter. The wrappers pass no `env`, so it is `None` throughout.
- Messages.AddMessages: every message carries its id. The ids `add_messages` would draw at random are supplied by the caller.
- BackendNodes.History: only the empty and one-message cases are stated; longer transcripts are joined with newlines as the body defines.
- LegacyNodes.PlanItinerary: the earlier planner writes `trip_plan`, which the earlier record does not declare. The merge of that key into the earlier record is not modelled; `TripPlanIsNotAKeyOfThisRecord` records the mismatch.
- `backend/schemas.py` is not part of this model. The backend modules import their `TripSchema`, `DailyItinerarySchema`, `TripNodeSchema` and `InputSchema` from it, while only the earlier `nodes.py` imports `schemas.py`. The model assumes the backend records have the fields of `schemas.py`. The backend tests build them with those fields (tests/test_budget_calculator.py:16-33, tests/test_re_planning.py:45-85). `InputSchema` is modelled as the `Extraction` record, built from the fields `process_input` reads.
- The frontend, `backend/mcp_client.py`, `backend/config.py`, the checkpoint-saver module and the driver scripts are not part of this model. They are UI, process plumbing, environment reading or printing.

## Findings

| source | as written | input that shows it | evidently intended | confidence | as-written member | corrected member |
|---|---|---|---|---|---|---|
| src/travel_assistant/backend/agents/nodes.py:72 | `get_planner_user_prompt(destination, dates, preferences)` passes the preferences as the third positional argument. That is the five-argument builder's `budget` parameter (src/travel_assistant/backend/prompts.py:26-31). So the preferences print under "Budget:", and neither the stored budget nor the planner feedback ever reaches the prompt. | A retry state with destination "Paris", preferences `{'interests': ['art']}`, budget "500" and planner feedback "Over budget". Its prompt is "Destination: Paris\nBudget: {'interests': ['art']}\n", with no feedback block. | Pass the arguments by keyword: `budget` from the state's budget, `preferences` in its own slot, `feedback` from `planner_feedback`. The re-planning test expects the feedback heading in the retry prompt (tests/test_re_planning.py:74). | not executed | BackendNodes.RetryPromptLosesFeedback | BackendNodes.IntendedPromptCarriesFeedback |

`BackendNodes.PlanItinerary` models the step as written, and `BackendNodes.PlannerPromptDropsFeedback` proves for every state that its prompt has no feedback or preferences section. `BackendNodes.PlanItineraryIntended` is the corrected step. The graph interpreter takes node bodies as parameters, so either step can be supplied to it.
