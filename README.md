# Agent store, workflow requests and theme toggle — a Dafny model

This project models the three pieces of the dashboard front end that hold logic of their own.

- **The mock agent store** (`agentApiSlice.ts`). It is a module-level list `mockAgents` behind five RTK Query endpoints. `getAgents` returns the list. `getAgentById` finds the first agent with an id. `addAgent` appends a record whose id is `String(length + 1)`. `updateAgent` merges a patch into the first match. `deleteAgent` splices the first match out. A missing id gives the error `{status: 404, data: 'Agent not found'}`. In the model this is the class `AgentStore.MockAgents`, whose field `agents: seq<Agent>` the methods reassign. The tag lists the endpoints declare are in `AgentTags`.
- **The workflow API slice** (`workflowApiSlice.ts`). It holds pure builders of the request (path, method, body) and of the cache tags each endpoint provides or invalidates (`WorkflowApi`, using the shared `Tags` module).
- **The theme toggle** (`theme-toggle.ts`). `getTheme` is a pure decision over the stored value and the system colour scheme (`ThemeToggle.GetTheme`). `setTheme`, `initializeTheme` and its `handleChange` listener change a `ThemeToggle.Browser`, which has these fields:
  - the root class list, as a set;
  - local storage, as a map whose writes may fail;
  - the dark-scheme media query, as a boolean;
  - a log of the dispatched `theme-change` events;
  - the number of registered listeners.

What is proved, in short:

- **Agent store.** Each endpoint's new store and result are stated against `FirstIndex`, `Merge`, `Created` and `Without`. Those functions are proved to do the following:
  - `FirstIndex` finds the first match;
  - `Merge` keeps the id;
  - `Created` takes its id from the length and its timestamp from the clock;
  - `Without` removes exactly one element and keeps the order.
- **Agent ids.** While nothing is deleted, ids stay `"1"`..`"n"` and are therefore distinct (decimal text is injective, by a parse round trip). After one delete, `addAgent` can repeat an id (`DuplicateIdAfterDelete`). With a repeated id, update and delete touch only the first copy.
- **Workflow tags.** The list query provides one tag per workflow and then the LIST tag. Adding is always covered by the list's tags. Updating or deleting `id` is covered exactly when the list holds `id`, or `id` is the string `"LIST"` itself. Each request carries the id verbatim in its path, and the PATCH body is the argument without its id.
- **Theme.** A stored `light`/`dark` wins; otherwise the system scheme decides. `setTheme` is idempotent on classes and storage. After a successful write, `getTheme` returns what was set. The change handler acts only while no truthy value is stored. Because `initializeTheme` always persists the resolved theme, with working storage the handler never changes anything afterwards.

Tags are matched by equal (type, id). This is an assumption about the caching library, which is not part of this model.

## Model

| member | source | states |
|---|---|---|
| Tags.IdTags | src/features/workflow-design/services/workflowApiSlice.ts:38 | one `{type, id}` tag per id, same length, in the same order |
| Tags.ListTags | src/features/workflow-design/services/workflowApiSlice.ts:35-41 | the LIST tag is last and always present; a missing result gives it alone, a present one adds one tag per id before it, in order |
| Tags.ListTagsPresent | src/features/workflow-design/services/workflowApiSlice.ts:35-40 | a present list yields one tag more than there are ids: the per-id tags in order, then LIST |
| Tags.ListTagAlwaysProvided | src/features/workflow-design/services/workflowApiSlice.ts:35-41 | the LIST tag is among a list query's tags whether or not there is a result |
| Tags.IdTagProvidedIff | src/features/workflow-design/services/workflowApiSlice.ts:35-40 | `{kind, id}` is provided iff the id is listed or equals the sentinel `"LIST"` |
| Decimal.NatToString | src/features/agent-management/services/agentApiSlice.ts:92 | `String(n)` for a natural: non-empty, all digits, no leading zero when `n > 0` |
| Decimal.ParseNatToString | src/features/agent-management/services/agentApiSlice.ts:92 | reading the decimal text of `n` back gives `n` |
| Decimal.NatToStringInjective | src/features/agent-management/services/agentApiSlice.ts:92 | two numbers with the same text are equal |
| AgentStore.FirstIndex | src/features/agent-management/services/agentApiSlice.ts:83 | the index of the first agent with the id (a match, with no match before it), or none exactly when no agent has the id |
| AgentStore.Merge | src/features/agent-management/services/agentApiSlice.ts:105 | spreading a patch over an agent keeps the agent's id |
| AgentStore.Created | src/features/agent-management/services/agentApiSlice.ts:90-94 | the new record's id is `String(count + 1)` and its `createdAt` is the clock's, whatever the body says; name, description, status, configuration and lastUsed are the body's |
| AgentStore.Without | src/features/agent-management/services/agentApiSlice.ts:115 | `splice(i, 1)`: one shorter, elements before `i` kept, later ones shifted down by one, the same multiset less `s[i]` |
| AgentStore.InitialAgents | src/features/agent-management/services/agentApiSlice.ts:24-48 | three agents with ids "1", "2", "3", each with a name, a status and the given `createdAt` |
| AgentStore.MockAgents.constructor | src/features/agent-management/services/agentApiSlice.ts:24-48 | the store starts with the three mock agents |
| AgentStore.MockAgents.GetAgents | src/features/agent-management/services/agentApiSlice.ts:75-78 | returns the current contents of the store |
| AgentStore.MockAgents.GetAgentById | src/features/agent-management/services/agentApiSlice.ts:82-85 | succeeds iff some agent has the id, returning the first such agent; otherwise 404 'Agent not found'; the store is not changed |
| AgentStore.MockAgents.AddAgent | src/features/agent-management/services/agentApiSlice.ts:89-97 | appends exactly the created record at the end and returns it |
| AgentStore.MockAgents.UpdateAgent | src/features/agent-management/services/agentApiSlice.ts:101-107 | absent id: 404, store unchanged; otherwise only the first match is replaced by its merge with the patch, and that record is returned |
| AgentStore.MockAgents.DeleteAgent | src/features/agent-management/services/agentApiSlice.ts:111-117 | absent id: 404, store unchanged; otherwise the first match is spliced out and `{success: true, id}` returned |
| AgentStore.MergeIdempotent | src/features/agent-management/services/agentApiSlice.ts:105 | applying the same patch twice equals applying it once |
| AgentStore.MergeNothing | src/features/agent-management/services/agentApiSlice.ts:105 | an empty patch leaves the agent unchanged |
| AgentStore.MergeFields | src/features/agent-management/services/agentApiSlice.ts:105 | for every field (name, description, status, configuration, createdAt, lastUsed): one the patch carries overwrites, one it lacks is kept |
| AgentStore.CreatedIgnoresBodyId | src/features/agent-management/services/agentApiSlice.ts:90-94 | the body's `id` and `createdAt` never reach the new record |
| AgentStore.UpdateFrame | src/features/agent-management/services/agentApiSlice.ts:101-106 | an update keeps the length, every id, and every record but the first match |
| AgentStore.UpdateSkipsLaterDuplicate | src/features/agent-management/services/agentApiSlice.ts:102-105 | with a repeated id, a later copy is left as it was |
| AgentStore.DeleteRemovesUniqueId | src/features/agent-management/services/agentApiSlice.ts:112-115 | when ids are distinct, the deleted id no longer occurs |
| AgentStore.DeleteKeepsLaterDuplicate | src/features/agent-management/services/agentApiSlice.ts:112-115 | with a repeated id, the later copy survives the delete, one place earlier |
| AgentStore.InitialIdsSequential | src/features/agent-management/services/agentApiSlice.ts:24-48 | the initial ids are "1", "2", "3" |
| AgentStore.AddKeepsIdsSequential | src/features/agent-management/services/agentApiSlice.ts:92-95 | appending keeps every id equal to its one-based position |
| AgentStore.UpdateKeepsIdsSequential | src/features/agent-management/services/agentApiSlice.ts:105 | an update keeps every id equal to its one-based position |
| AgentStore.SequentialIdsDistinct | src/features/agent-management/services/agentApiSlice.ts:92 | position-derived ids are pairwise distinct |
| AgentStore.DeleteOneFromInitial | src/features/agent-management/services/agentApiSlice.ts:111-116 | in the initial store, "1" is found at index 0, and deleting it leaves ids "2", "3" |
| AgentStore.DuplicateIdAfterDelete | src/features/agent-management/services/agentApiSlice.ts:92-95 | delete "1" then add: the store's ids are "2", "3", "3" |
| AgentTags.GetAgentsProvides | src/features/agent-management/services/agentApiSlice.ts:79 | one tag, of type Agent, whose id is the void argument (`NoId`) |
| AgentTags.GetAgentByIdProvides | src/features/agent-management/services/agentApiSlice.ts:86 | exactly one tag, `{Agent, id}` of its argument |
| AgentTags.AddAgentInvalidates | src/features/agent-management/services/agentApiSlice.ts:98 | holds `{Agent, 'LIST'}`, and is not covered by the list query's tags |
| AgentTags.UpdateAgentInvalidates | src/features/agent-management/services/agentApiSlice.ts:108 | non-empty and covered by `getAgentById(id)`'s tags, not by the list query's |
| AgentTags.DeleteAgentInvalidates | src/features/agent-management/services/agentApiSlice.ts:118 | non-empty and covered by `getAgentById(id)`'s tags, not by the list query's |
| AgentTags.AgentListNeverInvalidated | src/features/agent-management/services/agentApiSlice.ts:79-118 | no tag that add, update or delete invalidates equals the tag `getAgents` provides |
| AgentTags.ByIdCoversItemMutations | src/features/agent-management/services/agentApiSlice.ts:86-118 | update and delete of `id` each invalidate exactly the tag `getAgentById(id)` provides, and neither covers another id's tag |
| AgentTags.IntendedListCoversMutations | src/features/agent-management/services/agentApiSlice.ts:79-118 | with per-agent and LIST tags on the list query, add is always covered, and update/delete of a listed id is too |
| WorkflowApi.ItemUrl | src/features/workflow-design/services/workflowApiSlice.ts:45 | the item path is `workflows/` followed by the id, unchanged |
| WorkflowApi.GetWorkflowsQuery | src/features/workflow-design/services/workflowApiSlice.ts:34 | a GET of `workflows`, a path that names no single workflow |
| WorkflowApi.GetWorkflowByIdQuery | src/features/workflow-design/services/workflowApiSlice.ts:45 | a GET of a path from which the id reads back unchanged |
| WorkflowApi.AddWorkflowQuery | src/features/workflow-design/services/workflowApiSlice.ts:50-54 | a POST to `workflows` whose body is the argument unchanged |
| WorkflowApi.UpdateWorkflowQuery | src/features/workflow-design/services/workflowApiSlice.ts:59-63 | a PATCH to a path that reads back as the id, with a body of every other argument field and no id |
| WorkflowApi.DeleteWorkflowQuery | src/features/workflow-design/services/workflowApiSlice.ts:68-71 | a DELETE to a path that reads back as the id, without a body |
| WorkflowApi.GetWorkflowsProvides | src/features/workflow-design/services/workflowApiSlice.ts:35-41 | always holds the LIST tag; one tag for a missing result, one more than the list's length for a present one |
| WorkflowApi.GetWorkflowByIdProvides | src/features/workflow-design/services/workflowApiSlice.ts:46 | exactly one tag, `{Workflow, id}` of its argument |
| WorkflowApi.AddWorkflowInvalidates | src/features/workflow-design/services/workflowApiSlice.ts:55 | covered by the list query's tags for every result, present or missing |
| WorkflowApi.UpdateWorkflowInvalidates | src/features/workflow-design/services/workflowApiSlice.ts:64 | the very tags `getWorkflowById(id)` provides |
| WorkflowApi.DeleteWorkflowInvalidates | src/features/workflow-design/services/workflowApiSlice.ts:72 | the very tags `getWorkflowById(id)` provides |
| WorkflowApi.ProvidesForList | src/features/workflow-design/services/workflowApiSlice.ts:35-40 | a fetched list provides one tag more than there are workflows: `{Workflow, w.id}` per element in order, then LIST |
| WorkflowApi.ProvidesWithoutResult | src/features/workflow-design/services/workflowApiSlice.ts:41 | without a result the list query provides exactly `[{Workflow, 'LIST'}]` |
| WorkflowApi.AddAlwaysCovered | src/features/workflow-design/services/workflowApiSlice.ts:35-55 | the tag `addWorkflow` invalidates is always among the list query's tags |
| WorkflowApi.ItemMutationCoveredIff | src/features/workflow-design/services/workflowApiSlice.ts:35-72 | update/delete of `id` are covered by a fetched list iff a listed workflow has that id or the id is "LIST" |
| WorkflowApi.ListedWorkflowCovered | src/features/workflow-design/services/workflowApiSlice.ts:38-72 | for every workflow in a fetched list, its update and delete tags are among the list's tags |
| WorkflowApi.ByIdProvidesItemTag | src/features/workflow-design/services/workflowApiSlice.ts:46-72 | `getWorkflowById(id)` provides exactly `[{Workflow, id}]`, the tag its update and delete invalidate |
| WorkflowApi.ItemUrlRoundTrip | src/features/workflow-design/services/workflowApiSlice.ts:45 | the id can be read back from the item path |
| WorkflowApi.ItemUrlInjective | src/features/workflow-design/services/workflowApiSlice.ts:45 | distinct ids give distinct item paths, and no item path is `workflows` |
| WorkflowApi.ReadRequests | src/features/workflow-design/services/workflowApiSlice.ts:34-45 | the list query requests `workflows`, the item query `workflows/<id>` |
| WorkflowApi.AddRequest | src/features/workflow-design/services/workflowApiSlice.ts:50-54 | a POST to `workflows` with the body unchanged |
| WorkflowApi.UpdateRequestRoundTrip | src/features/workflow-design/services/workflowApiSlice.ts:59-63 | a PATCH whose path gives back the id and whose body is every other field, without id |
| WorkflowApi.DeleteRequest | src/features/workflow-design/services/workflowApiSlice.ts:68-71 | a DELETE to the item path, without a body |
| ThemeToggle.GetTheme | src/lib/theme-toggle.ts:30-45 | a stored "light"/"dark" is returned as is; otherwise dark exactly when the system prefers dark |
| ThemeToggle.WithTheme | src/lib/theme-toggle.ts:16-17 | the theme's class is present, the other theme's absent, every other class unchanged |
| ThemeToggle.Persist | src/lib/theme-toggle.ts:20-24 | a successful write stores the theme's name under "theme"; a failed one changes nothing; other keys are untouched |
| ThemeToggle.HasStoredPreference | src/lib/theme-toggle.ts:57 | `getItem('theme')` is truthy: the key is present and its value is not the empty string |
| ThemeToggle.Browser.SetTheme | src/lib/theme-toggle.ts:13-28 | new classes, storage and event log as above; after a successful write `getTheme` returns the theme |
| ThemeToggle.Browser.InitializeTheme | src/lib/theme-toggle.ts:47-63 | applies the resolved theme, adds one listener, leaves `getTheme`'s answer unchanged, and stores a preference when writes succeed |
| ThemeToggle.Browser.HandleChange | src/lib/theme-toggle.ts:55-60 | nothing changes while a truthy value is stored; otherwise the system's theme is applied |
| ThemeToggle.Browser.SystemPreferenceChanged | src/lib/theme-toggle.ts:53-62 | a stored preference, or no listener, leaves classes, storage and events unchanged; otherwise the system theme is applied and announced once per listener that ran |
| ThemeToggle.StoredThemeWins | src/lib/theme-toggle.ts:33-35 | a stored theme name decides, whatever the system preference |
| ThemeToggle.SystemFallback | src/lib/theme-toggle.ts:40-44 | with nothing usable stored, the result is the system's theme |
| ThemeToggle.PersistThenGet | src/lib/theme-toggle.ts:21-35 | after a successful `setTheme(t)`, `getTheme()` is `t` |
| ThemeToggle.WithThemeIdempotent | src/lib/theme-toggle.ts:16-17 | applying a theme twice to the class list equals applying it once |
| ThemeToggle.PersistIdempotent | src/lib/theme-toggle.ts:20-21 | writing a theme twice equals writing it once |
| ThemeToggle.WithThemeExclusive | src/lib/theme-toggle.ts:16-17 | exactly one theme class remains |
| ThemeToggle.UnknownStoredValueBlocksHandler | src/lib/theme-toggle.ts:33-58 | a stored value such as "blue" stops the handler, although `getTheme` follows the system |
| ThemeToggle.EmptyStoredValueIsNoPreference | src/lib/theme-toggle.ts:57 | an empty stored string counts as no preference for the handler |

## Left out

- Asynchrony: the 500 ms delay and the promises become synchronous calls. `new Date().toISOString()` becomes a timestamp argument. `InitialAgents` uses one timestamp for all five `createdAt`/`lastUsed` values of the initial agents, which the source takes from five separate clock readings that may differ.
- Aliasing: `getAgents` hands out the stored array itself, so a later `push` or `splice` shows through the array a caller already holds. The model returns a value. (Agent objects are never changed in place: an update stores a new object, so a record `getAgentById` returned earlier keeps its fields.)
- JavaScript spread details: a property explicitly set to `undefined` in a body or patch is not modelled; a missing field is `None`. The `as Agent` cast lets `addAgent` store records without a name or status, so those fields are optional in `Agent`.
- Value types: `Record<string, any>` (agent configuration, node data) is a map from string to string, and numbers are reals.
- `String(n)` is modelled for naturals only; `length + 1` is never negative.
- The RTK Query machinery: `createApi`, `fetchBaseQuery`, the `/api/` base URL, the cache, de-duplication, refetching and the generated hooks. Only the declared tag lists are modelled, with matching by equal (type, id) as an assumption.
- `monitoringApiSlice.ts`: its URL templates and constant tags are not part of this model.
- Browser APIs: `console.warn` on a failed write is not recorded; `dispatchEvent` is the `events` log; `matchMedia` is the `prefersDark` flag. A `getItem` that throws is not modelled.
- The `typeof localStorage` and `typeof window` guards of `getTheme` are not separate branches: without local storage the caller passes `None`, and without a window it passes `false`. `setTheme` and `initializeTheme` assume a browser.
- Components, pages, routing, styles and build configuration.

## Findings

| source | as written | input that shows it | evidently intended | confidence | as-written member | corrected member |
|---|---|---|---|---|---|---|
| src/features/agent-management/services/agentApiSlice.ts:79 | `getAgents` provides `{type: 'Agent', id}` with `id` its void argument (`undefined`); `addAgent` invalidates `{Agent, 'LIST'}` and update/delete `{Agent, id}` | `getAgents()`, then `addAgent({name: 'x'})`: no invalidated tag equals the list's tag, so the agent list is not refetched | the list query provides one `{Agent, id}` per agent plus `{Agent, 'LIST'}`, as `getWorkflows` does | medium: rests on matching by equal (type, id); not executed | AgentTags.AgentListNeverInvalidated | AgentTags.IntendedListCoversMutations |
