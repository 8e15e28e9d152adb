/**
 * The client's records: agents as the dashboard shows them, quotes and
 * their products, and chat messages. Dates are millisecond timestamps and
 * money is integer cents.
 */
module Domain {
  import opened Wrappers
  import opened Lists

  /** The icon components the hooks attach to agents. */
  datatype Icon = MessageCircle | MessageSquare | ShoppingBag | CheckCircle | Mail | Bot

  datatype Agent = Agent(
    id: string,
    name: string,
    description: string,
    prompt: string,
    model: string,
    active: bool,
    agentType: string,
    icon: Option<Icon>)

  datatype QuoteProduct = QuoteProduct(
    id: string,
    name: string,
    productType: string,
    subtype: Option<string>,
    dimension: Option<string>,
    quantity: int,
    unitPriceCents: Option<int>)

  /** A quote without the fields `createQuote` fills in (id, status, dates). */
  datatype QuoteInput = QuoteInput(
    clientName: string,
    clientEmail: string,
    clientPhone: Option<string>,
    products: seq<QuoteProduct>,
    location: string,
    deliveryDate: Option<string>,
    paymentMethod: Option<string>,
    totalValueCents: Option<int>)

  datatype Quote = Quote(
    id: string,
    clientName: string,
    clientEmail: string,
    clientPhone: Option<string>,
    products: seq<QuoteProduct>,
    location: string,
    deliveryDate: Option<string>,
    paymentMethod: Option<string>,
    status: string,
    totalValueCents: Option<int>,
    createdAt: int,
    updatedAt: int)

  datatype Sender = FromUser | FromAgent

  datatype Message = Message(id: string, content: string, sender: Sender, timestamp: int)

  function AgentId(a: Agent): string { a.id }

  /** `agents.map(a => a.id === updated.id ? updated : a)`: the list after saving one agent. */
  function WithAgent(agents: seq<Agent>, updated: Agent): (r: seq<Agent>)
    ensures |r| == |agents|
    ensures forall i :: 0 <= i < |agents| && agents[i].id == updated.id ==> r[i] == updated
    ensures forall i :: 0 <= i < |agents| && agents[i].id != updated.id ==> r[i] == agents[i]
  {
    MapWhere(agents, (a: Agent) => a.id == updated.id, (a: Agent) => updated)
  }

  /** Saving an agent keeps every position's id, so distinct ids stay distinct. */
  lemma WithAgentKeepsIds(agents: seq<Agent>, updated: Agent)
    ensures forall i :: 0 <= i < |agents| ==> WithAgent(agents, updated)[i].id == agents[i].id
    ensures DistinctBy(agents, AgentId) ==> DistinctBy(WithAgent(agents, updated), AgentId)
  {
    var r := WithAgent(agents, updated);
    assert forall i :: 0 <= i < |agents| ==> AgentId(r[i]) == AgentId(agents[i]);
  }

  /** The saved agent is in the list exactly when its id was; saving an unknown id changes nothing. */
  lemma WithAgentInstalls(agents: seq<Agent>, updated: Agent)
    ensures (exists i :: 0 <= i < |agents| && agents[i].id == updated.id) ==> updated in WithAgent(agents, updated)
    ensures (forall i :: 0 <= i < |agents| ==> agents[i].id != updated.id) ==> WithAgent(agents, updated) == agents
  {
  }

  /** Saving the same agent twice is saving it once. */
  lemma WithAgentIdempotent(agents: seq<Agent>, updated: Agent)
    ensures WithAgent(WithAgent(agents, updated), updated) == WithAgent(agents, updated)
  {
    var once := WithAgent(agents, updated);
    assert forall i :: 0 <= i < |agents| ==> WithAgent(once, updated)[i] == once[i];
  }

  /** `agents.map(a => a.id === id ? { ...a, active } : a)`: only the `active` flag of the agents with that id changes. */
  function WithActive(agents: seq<Agent>, id: string, active: bool): (r: seq<Agent>)
    ensures |r| == |agents|
    ensures forall i :: 0 <= i < |agents| ==> r[i].(active := agents[i].active) == agents[i]
    ensures forall i :: 0 <= i < |agents| ==> r[i].active == if agents[i].id == id then active else agents[i].active
  {
    MapWhere(agents, (a: Agent) => a.id == id, (a: Agent) => a.(active := active))
  }
}
