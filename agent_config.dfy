/**
 * The `AgentConfig` screen's state: the agent list, the agent shown in
 * detail (`selectedAgent`) and the draft being edited (`editingAgent`).
 */
module AgentConfig {
  import opened Wrappers
  import opened Domain

  const AtendimentoPrompt := "Você é um assistente de vendas da IPT Teixeira, especializado em atendimento cordial e eficiente. Seu objetivo é coletar as seguintes informações: tipo de produto, quantidade, localização de entrega, prazo e forma de pagamento.\n\nSempre inicie com uma saudação cordial como \"Olá, sou o assistente de vendas da IPT Teixeira, como posso te ajudar hoje?\"\n\nApós coletar todas as informações necessárias, organize-as em formato JSON conforme o modelo a seguir..."
  const OrcamentoPrompt := "Você é um assistente responsável por processar informações de requisições de clientes e transformá-las em orçamentos estruturados. Sua função é receber dados em formato JSON e organizá-los em um formato de orçamento adequado."
  const ValidacaoPrompt := "Você é um assistente especializado em auxiliar gerentes na revisão de orçamentos. Sua função é verificar a completude e consistência das informações, sugerir melhorias e fornecer insights relevantes para a tomada de decisão."
  const EmailPrompt := "Você é responsável por criar emails profissionais e cordiais para envio de orçamentos aos clientes. Sua mensagem deve ser formal, agradecer o interesse, anexar o orçamento e informar os próximos passos para aprovação."

  /** The screen's initial agents (it declares no icons). */
  const InitialAgents: seq<Agent> := [
    Agent("agent-001", "Agente de Atendimento", "Responsável pelo primeiro contato com o cliente, coleta dados e requisitos.",
      AtendimentoPrompt, "gpt-4o-mini", true, "atendimento", None),
    Agent("agent-002", "Agente de Orçamento", "Processa as informações do atendimento e cria orçamentos.",
      OrcamentoPrompt, "gpt-4o-mini", true, "orcamento", None),
    Agent("agent-003", "Agente de Validação", "Auxilia o gerente na revisão e validação de orçamentos.",
      ValidacaoPrompt, "gpt-4o-mini", true, "validacao", None),
    Agent("agent-004", "Agente de Email", "Envia orçamentos por email para os clientes.",
      EmailPrompt, "claude-3-haiku", false, "email", None)
  ]

  /** `getTypeLabel`: the four known types get a label; any other string is shown as it is. */
  function TypeLabel(agentType: string): (caption: string)
    ensures agentType == "atendimento" ==> caption == "Atendimento"
    ensures agentType == "orcamento" ==> caption == "Orçamento"
    ensures agentType == "validacao" ==> caption == "Validação"
    ensures agentType == "email" ==> caption == "Email"
    ensures agentType !in {"atendimento", "orcamento", "validacao", "email"} ==> caption == agentType
  {
    match agentType
    case "atendimento" => "Atendimento"
    case "orcamento" => "Orçamento"
    case "validacao" => "Validação"
    case "email" => "Email"
    case _ => agentType
  }

  /** The four known types get four different labels. */
  lemma TypeLabelsDistinct(a: string, b: string)
    requires a in {"atendimento", "orcamento", "validacao", "email"}
    requires b in {"atendimento", "orcamento", "validacao", "email"}
    requires TypeLabel(a) == TypeLabel(b)
    ensures a == b
  {
  }

  class AgentScreen {
    var agents: seq<Agent>
    var editingAgent: Option<Agent>
    var selectedAgent: Option<Agent>

    /** The detail pane shows an agent of the list, as the list holds it. */
    predicate Synced()
      reads this
    {
      selectedAgent.Some? ==> selectedAgent.value in agents
    }

    constructor()
      ensures agents == InitialAgents && editingAgent == None && selectedAgent == Some(InitialAgents[0])
      ensures Synced()
    {
      agents := InitialAgents;
      editingAgent := None;
      selectedAgent := Some(InitialAgents[0]);
    }

    /** Clicking an agent of the list shows it. */
    method SelectAgent(agent: Agent)
      modifies this`selectedAgent
      ensures selectedAgent == Some(agent)
      ensures agent in agents ==> Synced()
    {
      selectedAgent := Some(agent);
    }

    /** `handleEditAgent`: start a draft copy of the agent. */
    method HandleEditAgent(agent: Agent)
      modifies this`editingAgent
      ensures editingAgent == Some(agent)
    {
      editingAgent := Some(agent);
    }

    /** The Cancel button: the draft closes and nothing else changes. */
    method CancelEdit()
      modifies this`editingAgent
      ensures editingAgent == None
    {
      editingAgent := None;
    }

    /** `handleSaveAgent`: without a draft nothing happens; otherwise the draft replaces its id's agents and the draft closes. */
    method HandleSaveAgent()
      modifies this
      ensures old(editingAgent).None? ==> agents == old(agents) && editingAgent == None && selectedAgent == old(selectedAgent)
      ensures old(editingAgent).Some? ==>
        && agents == WithAgent(old(agents), old(editingAgent).value)
        && editingAgent == None
        && selectedAgent == if old(selectedAgent).Some? && old(selectedAgent).value.id == old(editingAgent).value.id
                            then old(editingAgent) else old(selectedAgent)
      ensures old(Synced()) ==> Synced()
    {
      if editingAgent.None? {
        return;
      }
      var draft := editingAgent.value;
      agents := WithAgent(agents, draft);
      if selectedAgent.Some? && selectedAgent.value.id == draft.id {
        selectedAgent := Some(draft);
        WithAgentInstalls(old(agents), draft);
      } else if selectedAgent.Some? && selectedAgent.value in old(agents) {
        ghost var k :| 0 <= k < |old(agents)| && old(agents)[k] == selectedAgent.value;
        assert agents[k] == selectedAgent.value;
      }
      editingAgent := None;
    }

    /** `handleActivateAgent`: set `active` on the agents with that id, and on the shown agent when it is one of them. */
    method HandleActivateAgent(agentId: string, active: bool)
      modifies this`agents, this`selectedAgent
      ensures agents == WithActive(old(agents), agentId, active)
      ensures selectedAgent == if old(selectedAgent).Some? && old(selectedAgent).value.id == agentId
                               then Some(old(selectedAgent).value.(active := active)) else old(selectedAgent)
      ensures old(Synced()) ==> Synced()
    {
      agents := WithActive(agents, agentId, active);
      if selectedAgent.Some? {
        var shown := selectedAgent.value;
        if shown.id == agentId {
          selectedAgent := Some(shown.(active := active));
        }
        if shown in old(agents) {
          ghost var k :| 0 <= k < |old(agents)| && old(agents)[k] == shown;
          assert agents[k] == selectedAgent.value;
        }
      }
    }
  }
}
