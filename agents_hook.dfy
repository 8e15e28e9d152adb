/**
 * The `useAgents` hook of `useAgents.ts`: the client's agent list filled
 * from the `manage-agents` function, with the built-in agents as fallback,
 * the selected agent id, and saving one agent through UPDATE.
 * The remote call is a function parameter from request to reply.
 */
module AgentsHook {
  import opened Wrappers
  import opened Lists
  import opened Js
  import opened Schema
  import opened Domain
  import opened ManageAgents

  /** What `supabase.functions.invoke` hands back: no `data` (transport or status failure) or the JSON body. */
  datatype InvokeReply =
    | NoData
    | Data(success: bool, rows: Option<seq<AgentRow>>)

  /** `getAgentIcon`. */
  function IconFor(agentType: string): (icon: Icon)
    ensures agentType == "orcamento" <==> icon == ShoppingBag
    ensures agentType == "email" <==> icon == Bot
    ensures icon == ShoppingBag || icon == Bot || icon == MessageSquare
  {
    match agentType
    case "atendimento" => MessageSquare
    case "orcamento" => ShoppingBag
    case "email" => Bot
    case _ => MessageSquare
  }

  /**
   * One fetched row as an agent: `id` is `agent_id`, a missing or empty
   * description becomes "", a `null` active flag reads as inactive, and the
   * icon follows the type.
   */
  function ToAgent(row: AgentRow): (a: Agent)
    ensures a.id == row.agentId && a.name == row.name && a.prompt == row.prompt
    ensures a.model == row.model && a.agentType == row.agentType
    ensures a.description == if row.description.Some? then row.description.value else ""
    ensures a.active <==> row.active == Some(true)
    ensures a.icon == Some(IconFor(row.agentType))
  {
    Agent(row.agentId, row.name, TextOr(row.description, ""), row.prompt, row.model,
      row.active == Some(true), row.agentType, Some(IconFor(row.agentType)))
  }

  function ToAgents(rows: seq<AgentRow>): (agents: seq<Agent>)
    ensures |agents| == |rows|
    ensures forall i :: 0 <= i < |rows| ==> agents[i] == ToAgent(rows[i])
  {
    seq(|rows|, i requires 0 <= i < |rows| => ToAgent(rows[i]))
  }

  /** Rows with one row per `agent_id` become agents with distinct ids. */
  lemma ToAgentsKeepsKeys(rows: seq<AgentRow>)
    requires DistinctBy(rows, AgentRowKey)
    ensures DistinctBy(ToAgents(rows), AgentId)
  {
    var agents := ToAgents(rows);
    assert forall i :: 0 <= i < |rows| ==> AgentId(agents[i]) == AgentRowKey(rows[i]);
  }

  const AtendimentoPrompt := "Você é um assistente de vendas da Modular Flow. Sua função é coletar informações dos clientes para gerar orçamentos. Pergunte sobre o tipo de produto, quantidade, localização de entrega, prazo e forma de pagamento."
  const OrcamentoPrompt := "Você é responsável por processar as informações coletadas pelo Agente de Atendimento e transformá-las em um orçamento estruturado. Organize os dados de forma clara e objetiva para o gerente de vendas."
  const EmailPrompt := "Você é responsável por criar e-mails profissionais com orçamentos anexados. Seu tom deve ser cordial, claro e profissional. Sempre inclua um resumo do orçamento no corpo do e-mail."

  /** The three agents installed when the table gives nothing. */
  const DefaultAgents: seq<Agent> := [
    Agent("atendimento", "Agente de Atendimento", "Coleta dados de clientes e gera orçamentos preliminares",
      AtendimentoPrompt, "gpt-4o-mini", true, "atendimento", Some(MessageSquare)),
    Agent("orcamento", "Agente de Orçamento", "Processa os dados e cria registros de orçamento no sistema",
      OrcamentoPrompt, "gpt-4o-mini", true, "orcamento", Some(ShoppingBag)),
    Agent("email", "Agente de E-mail", "Gera e envia e-mails com orçamentos para os clientes",
      EmailPrompt, "claude-3-haiku", false, "email", Some(Bot))
  ]

  /** The built-in agents carry the icons `getAgentIcon` would give their types, and distinct ids. */
  lemma DefaultAgentsConsistent()
    ensures forall i :: 0 <= i < |DefaultAgents| ==> DefaultAgents[i].icon == Some(IconFor(DefaultAgents[i].agentType))
    ensures DistinctBy(DefaultAgents, AgentId)
    ensures DefaultAgents[0].id == "atendimento" && DefaultAgents[0].active
  {
    forall i | 0 <= i < |DefaultAgents|
      ensures DefaultAgents[i].icon == Some(IconFor(DefaultAgents[i].agentType))
    {
      assert i == 0 || i == 1 || i == 2;
    }
    forall i, j | 0 <= i < j < |DefaultAgents|
      ensures AgentId(DefaultAgents[i]) != AgentId(DefaultAgents[j])
    {
      assert i == 0 || i == 1;
      assert j == 1 || j == 2;
    }
  }

  const GetAllRequest := AgentRequest(Given("GET_ALL"), Absent)

  /** How a GET_ALL reply ends `fetchAgents`. */
  datatype Fetched =
    | Threw
    | Loaded(rows: seq<AgentRow>)
    | Defaulted

  /**
   * `data.success && data.data.length > 0`: no data, or a success without
   * rows, is a TypeError caught without touching the list; a failure or an
   * empty list falls back to the built-in agents.
   */
  function Outcome(reply: InvokeReply): (f: Fetched)
    ensures f.Loaded? <==> reply.Data? && reply.success && reply.rows.Some? && |reply.rows.value| > 0
    ensures f.Loaded? ==> f.rows == reply.rows.value
    ensures f.Threw? <==> reply.NoData? || (reply.success && reply.rows.None?)
  {
    match reply
    case NoData => Threw
    case Data(success, rows) =>
      if !success then Defaulted
      else if rows.None? then Threw
      else if |rows.value| > 0 then Loaded(rows.value)
      else Defaulted
  }

  /** `!activeAgentId`: nothing selected, or the empty id. */
  predicate Unselected(activeAgentId: Option<string>) {
    activeAgentId.None? || activeAgentId.value == ""
  }

  /** The `agentData` `saveAgent` sends: every field given, `active` as a boolean. */
  function Payload(agent: Agent): (d: AgentData)
    ensures d.agentId == Given(agent.id) && d.name == Given(agent.name)
    ensures d.description == Given(agent.description) && d.prompt == Given(agent.prompt)
    ensures d.model == Given(agent.model) && d.active == Given(agent.active)
    ensures d.agentType == Given(agent.agentType)
  {
    AgentData(Given(agent.id), Given(agent.name), Given(agent.description), Given(agent.prompt),
      Given(agent.model), Given(agent.active), Given(agent.agentType))
  }

  function SaveRequest(agent: Agent): AgentRequest {
    AgentRequest(Given("UPDATE"), Given(Payload(agent)))
  }

  /** The server's UPDATE checks accept the payload exactly when the id, name, prompt, model and type are non-empty. */
  lemma PayloadValidation(agent: Agent)
    ensures Truthy(Payload(agent).agentId) <==> agent.id != ""
    ensures UpdateFieldsPresent(Payload(agent)) <==>
      agent.name != "" && agent.prompt != "" && agent.model != "" && agent.agentType != ""
  {
  }

  /**
   * A saved agent reads back unchanged (up to its icon, which follows its type),
   * whether UPDATE rewrote an existing row or inserted a new one.
   */
  lemma SavedAgentReadsBack(agent: Agent, row: AgentRow, id: string, now: string)
    requires CreateFieldsPresent(Payload(agent))
    ensures ToAgent(Amended(row, Payload(agent), now)) == agent.(icon := Some(IconFor(agent.agentType)))
    ensures ToAgent(Inserted(Payload(agent), id, Some(now))) == agent.(icon := Some(IconFor(agent.agentType)))
  {
    var d := Payload(agent);
    assert Assign(d.description, row.description) == Some(agent.description);
    assert Assign(d.active, row.active) == Some(agent.active);
  }

  class AgentDirectory {
    var agents: seq<Agent>
    var isLoading: bool
    var activeAgentId: Option<string>

    constructor()
      ensures agents == [] && isLoading && activeAgentId == None
    {
      agents := [];
      isLoading := true;
      activeAgentId := None;
    }

    /** `fetchAgents`: GET_ALL, then the fetched agents, the fallback, or nothing new. */
    method FetchAgents(invoke: AgentRequest -> InvokeReply)
      modifies this
      ensures !isLoading
      ensures Outcome(invoke(GetAllRequest)).Threw? ==> agents == old(agents) && activeAgentId == old(activeAgentId)
      ensures Outcome(invoke(GetAllRequest)).Loaded? ==>
        && agents == ToAgents(Outcome(invoke(GetAllRequest)).rows)
        && activeAgentId == if Unselected(old(activeAgentId)) then Some(agents[0].id) else old(activeAgentId)
      ensures Outcome(invoke(GetAllRequest)).Defaulted? ==> agents == DefaultAgents && activeAgentId == Some("atendimento")
      ensures !Outcome(invoke(GetAllRequest)).Threw? && Unselected(old(activeAgentId)) ==>
        |agents| > 0 && activeAgentId == Some(agents[0].id)
    {
      isLoading := true;
      var reply := invoke(GetAllRequest);
      var outcome := Outcome(reply);
      match outcome {
        case Threw =>
        case Loaded(rows) =>
          var fetched := ToAgents(rows);
          agents := fetched;
          if Unselected(activeAgentId) {
            activeAgentId := Some(fetched[0].id);
          }
        case Defaulted =>
          agents := DefaultAgents;
          activeAgentId := Some(DefaultAgents[0].id);
      }
      isLoading := false;
    }

    /** `saveAgent`: UPDATE on the server; on success the local copy is replaced and the answer is true. */
    method SaveAgent(agent: Agent, invoke: AgentRequest -> InvokeReply) returns (ok: bool)
      modifies this`agents
      ensures ok <==> invoke(SaveRequest(agent)).Data? && invoke(SaveRequest(agent)).success
      ensures agents == if ok then WithAgent(old(agents), agent) else old(agents)
    {
      var reply := invoke(SaveRequest(agent));
      if reply.Data? && reply.success {
        agents := WithAgent(agents, agent);
        ok := true;
      } else {
        ok := false;
      }
    }
  }
}
