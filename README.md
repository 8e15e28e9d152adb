# Modular Flow dashboard — a Dafny model of its core

The Modular Flow dashboard is a sales back office for a concrete-products
company. Customers talk to AI "agents" that collect quote requests, and
managers and admins look after agents, API keys and quotes. This project
models the parts of the system that hold logic:

- **Three Supabase edge functions.**
  - `chat-with-agent` works through its checks in a fixed order: agent lookup, active flag, provider chosen by model prefix, API key lookup. It then builds the OpenAI or Anthropic request and reads the reply text out of the provider's JSON.
  - `manage-api-keys` and `manage-agents` are method-dispatched CRUD handlers. Each keeps a table of rows and upserts by `provider` or `agent_id`.
- **Client hooks.**
  - `useQuotes` numbers and appends quotes, and replaces or finds one by id.
  - The mock `useAgents` in `use-agents.tsx`, and the `useAgents` in `useAgents.ts` that talks to `manage-agents`.
- **Client components.**
  - The chat widget's keyword rule chain and its intake state (`ChatInterface`).
  - The agent configuration screen (`AgentConfig`).
  - The sidebar's role cycle and link visibility (`Sidebar`).
  - The quote list's status filter and badges (`QuoteList`).
  - The header's notification tray (`Header`).

Each source file gets a module with the same name:
- Code that computes values becomes functions and lemmas.
- State that changes step by step becomes a class whose methods have `modifies` clauses. Each method's `ensures` ties the new state to specification functions, and lemmas then prove what the application promises about those functions.

Shared modules:
- `Wrappers`: `Option`, `Result`.
- `Text`: string operations and digit strings.
- `Lists`: filter, subsequence, map-where, find.
- `Js`: JSON fields that may be absent, `null` or given; truthiness, `||` defaults, property access.
- `Store`: database errors, `.single()` and `.maybeSingle()`.
- `Schema`: the `agents` and `api_keys` row types.

The database is modelled as an in-memory sequence of rows, one field of a class. The error the store would raise for a query is an injected `Faults(first, second)` value, one for each query a handler makes. Outbound HTTP (`fetch`, the key probes, `supabase.functions.invoke`) is a function-valued parameter that maps a request to a reply. Clocks, the year and new row ids are parameters too.

## Model

| member | source | states |
|---|---|---|
| ChatWithAgent.ResolveProvider | supabase/functions/chat-with-agent/index.ts:35-42 | the provider is openai exactly when the model starts with "gpt", anthropic exactly when it starts with "claude", and any other model fails with the unsupported-model error naming it |
| ChatWithAgent.GeminiIsUnsupported | supabase/functions/chat-with-agent/index.ts:35-42 | "gemini-pro" is refused with "Modelo não suportado: gemini-pro" |
| ChatWithAgent.Preflight | supabase/functions/chat-with-agent/index.ts:25-50 | a plan that passes uses an agent from the table with the requested agent_id, which is active, whose model resolves to the plan's provider, and a key row of that provider supplies its key and endpoint; a failed agent lookup gives AgentNotFound with the store's message; an active agent whose model is neither gpt nor claude gets UnsupportedModel with that model; an active agent with a gpt/claude model gets ApiKeyNotFound for its provider when the key lookup fails, and otherwise exactly the plan built from the agent, the provider and the one key row |
| ChatWithAgent.EarlyRefusalsIgnoreKeys | supabase/functions/chat-with-agent/index.ts:25-42 | a lookup failure, an inactive agent or an unsupported model is decided before the keys are read: any keys table or key-query error gives the same refusal |
| ChatWithAgent.InactiveBeforeModel | supabase/functions/chat-with-agent/index.ts:31-35 | an agent that was found but is not active is refused as inactive, whatever its model |
| ChatWithAgent.MissingKeyNamesProvider | supabase/functions/chat-with-agent/index.ts:44-50 | a missing key is reported for the provider the agent's model resolves to |
| ChatWithAgent.FormatTurn | supabase/functions/chat-with-agent/index.ts:58-61 | role "user" stays "user" and every other role becomes "assistant"; content is copied |
| ChatWithAgent.FormatHistory | supabase/functions/chat-with-agent/index.ts:58-61 | one formatted message per history turn, in order |
| ChatWithAgent.OpenAiMessages | supabase/functions/chat-with-agent/index.ts:56-63 | the list has length of history + 2: the prompt as a system message, every turn in order, then the new user message |
| ChatWithAgent.AnthropicMessages | supabase/functions/chat-with-agent/index.ts:80-85 | the list has length of history + 1: every turn in order, then the user message, with no system entry |
| ChatWithAgent.BuildRequest | supabase/functions/chat-with-agent/index.ts:56-103 | a request is built exactly when the history is not null. OpenAI gets a Bearer token, the stored or default endpoint and the OpenAI messages. Anthropic gets the key header, the prompt as `system`, the stored or default endpoint and the Anthropic messages |
| ChatWithAgent.JsonOf | supabase/functions/chat-with-agent/index.ts:106-112 | `response.json()` succeeds exactly on a JSON body |
| ChatWithAgent.ReadReply | supabase/functions/chat-with-agent/index.ts:106-119 | a non-ok JSON response fails with the provider and status; a reply is produced only for a response that is ok and is JSON |
| ChatWithAgent.ShapedAnswerYieldsText | supabase/functions/chat-with-agent/index.ts:112-119 | the minimal ok document holding only the provider's reply path yields the value at its end, for both providers |
| ChatWithAgent.OpenAiAnswerYieldsContent | supabase/functions/chat-with-agent/index.ts:112-119 | any ok OpenAI answer whose `choices[0].message.content` exists yields that value, whatever else the document holds |
| ChatWithAgent.AnthropicAnswerYieldsText | supabase/functions/chat-with-agent/index.ts:112-119 | any ok Anthropic answer whose `content[0].text` exists yields that value, whatever else the document holds |
| ChatWithAgent.ReplyExamples | supabase/functions/chat-with-agent/index.ts:112-119 | worked examples of both providers' reply paths |
| ChatWithAgent.UnauthorizedExample | supabase/functions/chat-with-agent/index.ts:106-110 | a 401 from OpenAI fails with "Erro no OPENAI: 401" |
| ChatWithAgent.UpperOpenAi | supabase/functions/chat-with-agent/index.ts:109 | the upper-cased provider name is "OPENAI" |
| ChatWithAgent.Render | supabase/functions/chat-with-agent/index.ts:121-136 | status 200 with the response exactly on success; status 400 with the error message exactly on failure |
| ChatWithAgent.HandleChat | supabase/functions/chat-with-agent/index.ts:20-137 | a bad body or a failed check sends nothing and renders that error. Otherwise exactly the built request is sent and the provider's answer is rendered, so the status is always 200 or 400 |
| ChatWithAgent.EndToEndOpenAi | supabase/functions/chat-with-agent/index.ts:25-78 | one active gpt agent and one openai key: "hello" with no history goes to the default URL as system prompt then user message, with temperature 0.7 and max_tokens 1000 |
| ManageApiKeys.ViewHidesKey | supabase/functions/manage-api-keys/index.ts:36-38 | the projected row never depends on `api_key` |
| ManageApiKeys.Refuse | supabase/functions/manage-api-keys/index.ts:187-197 | status 400 with the error message, or "Erro desconhecido" when that is empty |
| ManageApiKeys.NewRow | supabase/functions/manage-api-keys/index.ts:90-104 | the inserted row has the new id, provider and key, is always active (the `active` or-true quirk), and stores the endpoint, model_type and model_version when given non-empty and null otherwise, with no timestamps |
| ManageApiKeys.Revised | supabase/functions/manage-api-keys/index.ts:68-89 | the updated row keeps its id, provider and creation date, takes the new key and time, and copies `active`, `endpoint`, `model_type` and `model_version` as sent (absent keeps, null clears) |
| ManageApiKeys.ReviseKeepsKeys | supabase/functions/manage-api-keys/index.ts:68-89 | the update keeps ids unique and keeps at most one row per provider |
| ManageApiKeys.ReviseTouchesOnlyId | supabase/functions/manage-api-keys/index.ts:68-76 | the update keeps the row count, revises the rows with that id and leaves every other row as it was |
| ManageApiKeys.InsertKeepsKeys | supabase/functions/manage-api-keys/index.ts:90-104 | inserting for a provider with no row, under a fresh id, keeps ids unique and at most one row per provider |
| ManageApiKeys.PurgeRemovesExactly | supabase/functions/manage-api-keys/index.ts:119-123 | DELETE leaves no row with that id and keeps every other row with its multiplicity |
| ManageApiKeys.PurgeKeepsKeys | supabase/functions/manage-api-keys/index.ts:119-123 | DELETE keeps ids unique and at most one row per provider |
| ManageApiKeys.ProbeFor | supabase/functions/manage-api-keys/index.ts:146-171 | only openai, google and deepseek are probed: OpenAI and DeepSeek at the stored or default URL with a Bearer key, Google at the models URL with `?key=` |
| ManageApiKeys.PassesOnlyWhenProbed | supabase/functions/manage-api-keys/index.ts:139-178 | the test passes exactly when the provider is probed and the probe answers below 300, so other providers and a thrown probe fail |
| ManageApiKeys.ProbeCarriesKey | supabase/functions/manage-api-keys/index.ts:146-171 | every probe presents the stored key: in the Bearer header, or after `?key=` for Google |
| ManageApiKeys.ApiKeyTable.constructor | supabase/functions/manage-api-keys/index.ts:16-18 | the `api_keys` table the client reaches starts with the given rows, with unique ids |
| ManageApiKeys.ApiKeyTable.GetAll | supabase/functions/manage-api-keys/index.ts:33-45 | the store's error, or status 200 with one projected row per stored row, in table order (the source leaves the order unspecified) |
| ManageApiKeys.ApiKeyTable.Save | supabase/functions/manage-api-keys/index.ts:47-117 | incomplete data is refused with "Dados incompletos"; a lookup error or more than one row refuses; one existing row is revised in place, none means one new row is appended. A refusal never changes the table, at most one row per provider is kept, and a saved reply means a row of that provider holds the key |
| ManageApiKeys.ApiKeyTable.Delete | supabase/functions/manage-api-keys/index.ts:119-129 | no data is the TypeError; a store error refuses without change; otherwise the rows with that id are removed and "deleted" is answered |
| ManageApiKeys.ApiKeyTable.TestConnection | supabase/functions/manage-api-keys/index.ts:131-182 | a provider without exactly one row is refused as not found; otherwise status 200 carrying whether the probe passed |
| ManageApiKeys.ApiKeyTable.Handle | supabase/functions/manage-api-keys/index.ts:22-197 | an empty body and a syntax error are refused; an unknown method is refused with "Método não suportado"; only SAVE and DELETE change the table, and a refusal never does; GET_ALL answers the store error or every row's projection in table order (the source leaves it unspecified); SAVE, DELETE and TEST_CONNECTION give exactly the replies and new table of `Save`, `Delete` and `TestConnection` |
| ManageAgents.Refuse | supabase/functions/manage-agents/index.ts:190-199 | status 400 with the error message, or "Erro desconhecido" when that is empty |
| ManageAgents.Inserted | supabase/functions/manage-agents/index.ts:70-79 | the inserted row stores every sent field under the new id, description and active only when given, with the given timestamps |
| ManageAgents.Amended | supabase/functions/manage-agents/index.ts:140-162 | the updated row keeps its id and creation date, takes the sent fields and `updated_at` now, and copies description and active as sent (absent keeps, null clears) |
| ManageAgents.NoneWithId | supabase/functions/manage-agents/index.ts:102-106 | an empty lookup means no row carries that agent_id |
| ManageAgents.AtMostOneMatch | supabase/functions/manage-agents/index.ts:102-106 | with one row per agent, a lookup by agent_id matches at most one row |
| ManageAgents.DuplicatesLookLikeAbsence | supabase/functions/manage-agents/index.ts:102-132 | two or more rows with one agent_id make `.single()` fail with PGRST116, which UPDATE then treats as absence |
| ManageAgents.InjectedNotSingleDuplicates | supabase/functions/manage-agents/index.ts:102-132 | a store error carrying PGRST116 on the lookup of an agent that has its row sends UPDATE down the insert path, and the insert leaves two rows for that agent |
| ManageAgents.AmendKeepsKeys | supabase/functions/manage-agents/index.ts:140-162 | the update keeps ids unique and keeps one row per agent, and leaves every row of another agent as it was |
| ManageAgents.DiscardRemovesExactly | supabase/functions/manage-agents/index.ts:164-184 | DELETE keeps a row with its multiplicity exactly when it belongs to another agent |
| ManageAgents.DiscardKeepsKeys | supabase/functions/manage-agents/index.ts:164-184 | DELETE keeps ids unique and one row per agent, and leaves no row of that agent |
| ManageAgents.AgentTable.constructor | supabase/functions/manage-agents/index.ts:16-18 | the `agents` table the client reaches starts with the given rows, with unique ids |
| ManageAgents.AgentTable.GetAll | supabase/functions/manage-agents/index.ts:42-56 | the store's error, or status 200 with every row in table order (the source leaves it unspecified) |
| ManageAgents.AgentTable.Create | supabase/functions/manage-agents/index.ts:58-85 | missing data and missing required fields are refused with their messages; a store error refuses; otherwise exactly the inserted row is appended and returned. A refusal never changes the table |
| ManageAgents.AgentTable.Update | supabase/functions/manage-agents/index.ts:87-162 | a missing agent_id is refused, then missing name, prompt, model or type, before the table is read. PGRST116 inserts the agent with both timestamps now. Another lookup error refuses. A found agent has its rows amended. A refusal never changes the table. One row per agent is kept unless the first query's own store error carries PGRST116 |
| ManageAgents.AgentTable.Delete | supabase/functions/manage-agents/index.ts:164-184 | a missing agent_id is refused without change; a store error refuses without change; otherwise exactly that agent's rows are removed |
| ManageAgents.AgentTable.Handle | supabase/functions/manage-agents/index.ts:22-199 | an empty body, an unparseable body and an unknown method ("Método não suportado: m") are refused; only CREATE, UPDATE and DELETE change the table; a refusal never does; every method but CREATE keeps one row per agent unless the first query's own store error carries PGRST116; GET_ALL answers the store error or every row in table order (the source leaves it unspecified); CREATE, UPDATE and DELETE give exactly the replies and new table of `Create`, `Update` and `Delete` |
| ChatInterface.SelectRuleIsFirstMatch | src/components/ui-custom/ChatInterface.tsx:65-153 | the rule chosen holds for the message, and no rule earlier in the chain holds |
| ChatInterface.ProductKeywordStartsIntake | src/components/ui-custom/ChatInterface.tsx:65-73 | "poste", "bloco" or "tubo" pick a product rule that sets collecting, whatever the flag was |
| ChatInterface.IntakeNeedsCollecting | src/components/ui-custom/ChatInterface.tsx:74-87 | the intake rules fire only while collecting; when not collecting, the extracted email plays no part |
| ChatInterface.OtherRulesKeepFlag | src/components/ui-custom/ChatInterface.tsx:74-153 | every rule other than the product rules and a found email leaves the flag and the draft as they were |
| ChatInterface.FoundEmailCompletesIntake | src/components/ui-custom/ChatInterface.tsx:87-138 | while collecting, an "@" message with an extracted email ends collecting and drafts a quote for that address |
| ChatInterface.MissingEmailAsksAgain | src/components/ui-custom/ChatInterface.tsx:139-142 | with no extracted email, collecting continues and the reply asks for the email again |
| ChatInterface.IntakeQuote | src/components/ui-custom/ChatInterface.tsx:95-110 | the drafted quote carries the email, the client name "Cliente Web" and one product of quantity 5 |
| ChatInterface.AgentAnswer | src/components/ui-custom/ChatInterface.tsx:155-163 | the appended message comes from the agent, is stamped now, has the time as its id and the chosen rule's reply as its content |
| ChatInterface.ChatSession.constructor | src/components/ui-custom/ChatInterface.tsx:25-35 | empty transcript and input, not collecting, no draft |
| ChatInterface.ChatSession.EnsureWelcome | src/components/ui-custom/ChatInterface.tsx:44-56 | with an agent and an empty transcript, the transcript becomes the welcome message a minute back; otherwise nothing changes |
| ChatInterface.ChatSession.Advance | src/components/ui-custom/ChatInterface.tsx:65-153 | the flag and the draft become what the fired rule makes them |
| ChatInterface.ChatSession.SimulateAgentResponse | src/components/ui-custom/ChatInterface.tsx:58-165 | exactly one agent answer is appended, and the flag and the draft follow the rule chosen for the message |
| ChatInterface.ChatSession.Post | src/components/ui-custom/ChatInterface.tsx:163 | the message is appended to the transcript |
| ChatInterface.ChatSession.HandleSendMessage | src/components/ui-custom/ChatInterface.tsx:167-181 | blank input changes nothing; otherwise the raw input is appended as a user message, the input is cleared, and one agent answer follows |
| ChatInterface.ChatSession.HandleReset | src/components/ui-custom/ChatInterface.tsx:190-201 | exactly one welcome message remains, not collecting, no draft |
| UseQuotes.QuoteId | src/hooks/use-quotes.tsx:144 | the id starts with "ORC-year-" and its number part is exactly three characters long, or the number's own length when that is longer |
| UseQuotes.FirstQuoteIdExample | src/hooks/use-quotes.tsx:144 | worked example: count 0 in 2024 gives "ORC-2024-001" |
| UseQuotes.ThousandthQuoteIdExample | src/hooks/use-quotes.tsx:144 | worked example: count 999 in 2024 gives "ORC-2024-1000", the padding does not truncate |
| UseQuotes.QuoteNumberRoundTrip | src/hooks/use-quotes.tsx:144 | the id's tail is all digits and reads back as the count plus one |
| UseQuotes.QuoteIdInjective | src/hooks/use-quotes.tsx:144 | within one year, quotes made at different list lengths get different ids |
| UseQuotes.NewQuote | src/hooks/use-quotes.tsx:145-153 | the caller's fields are copied, status is "pending", and createdAt and updatedAt are both now |
| UseQuotes.Replaced | src/hooks/use-quotes.tsx:118-122 | same length and order; quotes with the updated id become it and the others are untouched |
| UseQuotes.ReplacedIdempotent | src/hooks/use-quotes.tsx:118-122 | replacing twice with the same quote is replacing once |
| UseQuotes.QuoteBook.constructor | src/hooks/use-quotes.tsx:7 | the list starts empty |
| UseQuotes.QuoteBook.CreateQuote | src/hooks/use-quotes.tsx:141-173 | the new quote is numbered after the current length and appended at the end |
| UseQuotes.QuoteBook.UpdateQuote | src/hooks/use-quotes.tsx:114-139 | the list becomes the replacement, and the answer is true |
| UseQuotes.QuoteBook.GetQuoteById | src/hooks/use-quotes.tsx:175-177 | the first quote with that id, or none exactly when no quote has it |
| Domain.WithAgent | src/hooks/use-agents.tsx:83-87 | same length and order; agents with the updated id become it and the others are unchanged |
| Domain.WithAgentKeepsIds | src/hooks/use-agents.tsx:83-87 | ids stay position by position, so distinct ids stay distinct |
| Domain.WithAgentInstalls | src/hooks/use-agents.tsx:83-87 | when the id is present the updated agent is in the list; when absent the list is unchanged |
| Domain.WithAgentIdempotent | src/hooks/use-agents.tsx:83-87 | saving the same agent twice is saving it once |
| Domain.WithActive | src/components/ui-custom/AgentConfig.tsx:94-97 | same length; only `active` changes, and only on agents with that id |
| MockAgentsHook.AgentList.constructor | src/hooks/use-agents.tsx:8-10 | no agents, loading, no error |
| MockAgentsHook.AgentList.LoadAgents | src/hooks/use-agents.tsx:16-77 | the four built-in agents are installed, the error is cleared and loading stops |
| MockAgentsHook.AgentList.UpdateAgent | src/hooks/use-agents.tsx:79-104 | the list is replaced by id and the answer is true |
| MockAgentsHook.AgentList.GetAgentByType | src/hooks/use-agents.tsx:106-108 | the first agent of that type that is active, or none exactly when no agent is both |
| MockAgentsHook.MockEmailAgentNotFound | src/hooks/use-agents.tsx:58-59 | with the built-in data the inactive e-mail agent is never found |
| MockAgentsHook.MockAtendimentoFound | src/hooks/use-agents.tsx:21-30 | with the built-in data the sales agent is found |
| MockAgentsHook.MockOrcamentoFound | src/hooks/use-agents.tsx:31-40 | with the built-in data the quoting agent is found |
| MockAgentsHook.MockValidacaoFound | src/hooks/use-agents.tsx:41-50 | with the built-in data the validation agent is found |
| AgentsHook.IconFor | src/hooks/useAgents.ts:14-21 | ShoppingBag exactly for "orcamento", Bot exactly for "email", MessageSquare for everything else |
| AgentsHook.ToAgent | src/hooks/useAgents.ts:32-43 | id is agent_id; description is "" when null; active only when stored true; the icon follows the type; the other fields are copied |
| AgentsHook.ToAgents | src/hooks/useAgents.ts:32-43 | one agent per row, in order |
| AgentsHook.ToAgentsKeepsKeys | src/hooks/useAgents.ts:32-43 | rows with one row per agent_id become agents with distinct ids |
| AgentsHook.DefaultAgentsConsistent | src/hooks/useAgents.ts:51-90 | the built-in agents carry the icons of their types and distinct ids, and the first is the active "atendimento" agent |
| AgentsHook.Outcome | src/hooks/useAgents.ts:30-98 | agents load exactly on success with a non-empty list; no data or a success without a list throws; anything else falls back to the defaults |
| AgentsHook.Payload | src/hooks/useAgents.ts:106-114 | every field is sent, agent_id is the agent's id and `active` is a boolean |
| AgentsHook.PayloadValidation | src/hooks/useAgents.ts:106-114 | the server's UPDATE checks accept the payload exactly when id, name, prompt, model and type are non-empty |
| AgentsHook.SavedAgentReadsBack | src/hooks/useAgents.ts:104-137 | a saved agent reads back as itself, icon aside, whether the server amended a row or inserted one |
| AgentsHook.AgentDirectory.constructor | src/hooks/useAgents.ts:10-12 | no agents, loading, nothing selected |
| AgentsHook.AgentDirectory.FetchAgents | src/hooks/useAgents.ts:23-102 | a throw leaves list and selection; loaded rows become the agents and select the first only if nothing was selected; the fallback installs the defaults and selects "atendimento"; loading always stops |
| AgentsHook.AgentDirectory.SaveAgent | src/hooks/useAgents.ts:104-150 | true exactly when the server reports success, and the list is replaced by id exactly then |
| AgentConfig.TypeLabel | src/components/ui-custom/AgentConfig.tsx:104-112 | the four known types get their labels and any other string is shown unchanged |
| AgentConfig.TypeLabelsDistinct | src/components/ui-custom/AgentConfig.tsx:104-112 | the four known types get four different labels |
| AgentConfig.AgentScreen.constructor | src/components/ui-custom/AgentConfig.tsx:28-69 | the four initial agents, no draft, the first agent selected |
| AgentConfig.AgentScreen.SelectAgent | src/components/ui-custom/AgentConfig.tsx:144 | the clicked agent is shown |
| AgentConfig.AgentScreen.HandleEditAgent | src/components/ui-custom/AgentConfig.tsx:71-73 | the draft is a copy of the agent |
| AgentConfig.AgentScreen.CancelEdit | src/components/ui-custom/AgentConfig.tsx:277 | the Cancel button closes the draft and changes nothing else |
| AgentConfig.AgentScreen.HandleSaveAgent | src/components/ui-custom/AgentConfig.tsx:75-87 | without a draft nothing changes; otherwise the draft replaces its id's agents, the shown agent is replaced only if it has that id, and the draft closes; the shown agent stays one of the list |
| AgentConfig.AgentScreen.HandleActivateAgent | src/components/ui-custom/AgentConfig.tsx:94-102 | only `active` changes, on the agents with that id, and on the shown agent only when it is one of them; the shown agent stays one of the list |
| Sidebar.Next | src/components/layout/Sidebar.tsx:58-62 | client to manager to admin to client; never the same role |
| Sidebar.ToggleCycle | src/components/layout/Sidebar.tsx:58-62 | three toggles return to the start, from any point in the cycle |
| Sidebar.VisibleLinksExactly | src/components/layout/Sidebar.tsx:29 | a link is shown exactly when the role is among its allowed users, and the shown links keep their order |
| Sidebar.VisibleLinksAppend | src/components/layout/Sidebar.tsx:29 | visibility is decided link by link |
| Sidebar.OneLink | src/components/layout/Sidebar.tsx:29 | one link is shown exactly when it is visible |
| Sidebar.LinksFor | src/components/layout/Sidebar.tsx:70-76 | the shown links are the visible ones of the five, in order |
| Sidebar.ClientLinks | src/components/layout/Sidebar.tsx:70-76 | a client sees Home and Atendimento |
| Sidebar.ManagerLinks | src/components/layout/Sidebar.tsx:70-76 | a manager sees Home, Orçamentos and Clientes |
| Sidebar.AdminLinks | src/components/layout/Sidebar.tsx:70-76 | an admin sees Home, Configuração and Clientes |
| Sidebar.SidebarState.constructor | src/components/layout/Sidebar.tsx:53-55 | expanded, role client |
| Sidebar.SidebarState.ToggleUserType | src/components/layout/Sidebar.tsx:58-62 | the role moves to the next in the cycle |
| Sidebar.SidebarState.ToggleExpanded | src/components/layout/Sidebar.tsx:102 | the expanded flag flips |
| Sidebar.SidebarState.MobileChanged | src/components/layout/Sidebar.tsx:64-68 | going mobile collapses the sidebar; otherwise it stays as it was |
| QuoteList.Filtered | src/components/ui-custom/QuoteList.tsx:63-65 | "all" keeps every quote in order; any other status keeps exactly the quotes with it |
| QuoteList.FilteredExactly | src/components/ui-custom/QuoteList.tsx:63-65 | the result is an order-preserving subsequence that keeps each matching quote with its multiplicity and drops the rest |
| QuoteList.MockPending | src/components/ui-custom/QuoteList.tsx:15-65 | the "pending" filter of the built-in quotes gives the first and the fifth |
| QuoteList.StatusBadge | src/components/ui-custom/QuoteList.tsx:67-78 | outline badges: Pendente, Em Processamento, Concluído, and Desconhecido for anything else |
| QuoteList.PriorityBadge | src/components/ui-custom/QuoteList.tsx:80-93 | a badge exactly for urgent, high, medium and low, each with its variant and label |
| Header.Cleared | src/components/layout/Header.tsx:21-23 | exactly the notifications with another id remain |
| Header.ClearedKeepsOthers | src/components/layout/Header.tsx:22 | the rest keep their order and multiplicity, and none with that id remains |
| Header.ClearedAbsent | src/components/layout/Header.tsx:22 | clearing an absent id changes nothing |
| Header.ClearedIdempotent | src/components/layout/Header.tsx:22 | clearing twice is clearing once |
| Header.BadgeCount | src/components/layout/Header.tsx:44-53 | a badge exactly when the list is non-empty, showing its length |
| Header.NotificationTray.constructor | src/components/layout/Header.tsx:15-18 | the two initial notifications |
| Header.NotificationTray.ClearNotification | src/components/layout/Header.tsx:20-23 | the list becomes the cleared list |
| Store.Single | supabase/functions/manage-agents/index.ts:102-106 | `.single()` succeeds exactly without a store error and with exactly one match, which it returns; otherwise the error or PGRST116 |
| Store.MaybeSingle | supabase/functions/manage-api-keys/index.ts:55-64 | `.maybeSingle()` succeeds exactly without a store error and with at most one match, returning it or nothing |
| Js.Assign | supabase/functions/manage-agents/index.ts:140-147 | an absent key keeps the stored value, null clears it, a given value replaces it |
| Js.Interpolate | supabase/functions/manage-api-keys/index.ts:119-123 | a given string as itself, undefined as "undefined", null as "null" |
| Js.WalkNest | supabase/functions/chat-with-agent/index.ts:112-119 | a value nested along a path reads back along that path |
| Text.ContainsIffOccurs | src/components/ui-custom/ChatInterface.tsx:65 | `includes` holds exactly when the substring occurs at some index |
| Text.PaddedNatRoundTrip | src/hooks/use-quotes.tsx:144 | a zero-padded number reads back as the number |
| Lists.Find | src/hooks/use-agents.tsx:107 | `find` gives the first element that passes, or none exactly when none passes |

## Left out

- HTTP serving, the CORS preflight, environment variables and the Supabase client and query builder are not modelled. Tables are row sequences, and each query's error is an injected value.
- Outbound HTTP (provider chat APIs, key probes, `supabase.functions.invoke`) is a function parameter from request to reply. Network behaviour itself is I/O.
- The clock, the current year, `Date.now()` ids and generated row ids are parameters. Timestamps are numbers or strings as the caller supplies them.
- The email regex in the chat widget is the `extract` parameter, an arbitrary partial function from message to email.
- `toLowerCase` is modelled for ASCII and the accented Latin-1 letters only. `toUpperCase` is modelled for ASCII, which covers the provider names.
- `setTimeout` delays, the typing indicator, toasts, console logging and scrolling are left out. The model assumes each reply is computed and shown before the next message is sent, and appends it as soon as it is computed.
- ChatInterface.ChatSession.HandleSendMessage: the model answers from the current intake flag. The source answers 1.5 s later from the flag of the render that sent the message (ChatInterface.tsx:61-164). So "poste" followed within 1.5 s by "circular" gets the fallback answer in the source and the circular-model prompt in the model.
- UseQuotes.QuoteBook.CreateQuote: the model numbers the new quote from the current list. The source numbers it from the `quotes` of the render that called it (use-quotes.tsx:144) but appends through the latest list (use-quotes.tsx:156). So two quotes created before a re-render get the same id, which the model cannot show.
- The `createQuote(...).then(onQuoteCreated)` callback in the chat widget is left out as callback plumbing. The widget records the drafted quote in its state.
- Database column defaults are not visible in the source, so columns a handler does not set are stored as null. uuid and foreign-key checks are left out too.
- A request body is either absent, not JSON, or parsed into the fields the handler reads. Extra fields, non-string values and a JSON value that is not an object are not modelled.
- `loadQuotes` in `use-quotes.tsx` only installs static demo quotes, and it is left out. JSX rendering, styling and navigation are left out.
- The `AgentConfig` form fields' per-keystroke edits of the draft and `handleCopyPrompt` (clipboard) are left out, being UI input and a browser API.
- Money is an integer number of cents. Nothing is stated about floating-point totals.
- AgentsHook.ToAgent: a `null` `active` column reads as inactive. The client type declares a boolean, and every consumer tests truthiness.
- AgentsHook.AgentDirectory.FetchAgents: reads `activeAgentId` as the current field. The source reads it from the closure of the render that created `fetchAgents`.
- AgentsHook.InvokeReply: a transport error and a non-2xx reply both come back from `invoke` as no data, and the model does not tell them apart.
- `chat-with-agent` refuses every model outside gpt/claude (index.ts:35-42), while `manage-api-keys` stores and probes google and deepseek keys. The model keeps that split.
- ManageApiKeys.ApiKeyTable.Save: requests are modelled one at a time. SAVE reads with `.maybeSingle()` and then inserts (manage-api-keys/index.ts:59, 95), the pair is not atomic and no unique constraint is visible. Two overlapping SAVEs for a provider with no key can both insert, so "at most one key per provider", here and in `ApiKeyTable.Handle`, holds only for requests handled one after another.
- ManageAgents.AgentTable.Update: requests are modelled one at a time. UPDATE reads with `.single()` and inserts on PGRST116 (manage-agents/index.ts:106-121), the pair is not atomic and no unique constraint is visible. Two overlapping UPDATEs for an agent with no row can both insert, so "one row per agent", here and in `AgentTable.Handle`, holds only for requests handled one after another.
- AgentConfig.TypeLabelsDistinct holds by evaluation alone, so it adds no proof beyond the `TypeLabel` contract.
