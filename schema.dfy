/** Rows of the `agents` and `api_keys` tables; nullable columns are options. */
module Schema {
  import opened Wrappers
  import opened Lists

  datatype AgentRow = AgentRow(
    id: string,
    agentId: string,
    name: string,
    description: Option<string>,
    prompt: string,
    model: string,
    active: Option<bool>,
    agentType: string,
    createdAt: Option<string>,
    updatedAt: Option<string>)

  datatype ApiKeyRow = ApiKeyRow(
    id: string,
    provider: string,
    apiKey: string,
    endpoint: Option<string>,
    modelType: Option<string>,
    modelVersion: Option<string>,
    active: Option<bool>,
    createdAt: Option<string>,
    updatedAt: Option<string>)

  function AgentRowId(r: AgentRow): string { r.id }
  function AgentRowKey(r: AgentRow): string { r.agentId }
  function ApiKeyRowId(r: ApiKeyRow): string { r.id }
  function ApiKeyRowProvider(r: ApiKeyRow): string { r.provider }

  /** `.from("agents").select().eq("agent_id", agentId)`. */
  function AgentsWithId(rows: seq<AgentRow>, agentId: string): seq<AgentRow> {
    Filter(rows, (a: AgentRow) => a.agentId == agentId)
  }

  /** `.from("api_keys").select().eq("provider", provider)`. */
  function KeysFor(rows: seq<ApiKeyRow>, provider: string): seq<ApiKeyRow> {
    Filter(rows, (k: ApiKeyRow) => k.provider == provider)
  }
}
