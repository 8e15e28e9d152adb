/**
 * The `useAgents` hook of `use-agents.tsx`: a client-side list of agents
 * loaded from built-in data, replaced by id on update, and searched for the
 * first active agent of a type.
 */
module MockAgentsHook {
  import opened Wrappers
  import opened Lists
  import opened Domain

  const AtendimentoPrompt := "Você é um ASSISTENTE DE Vendas especialista com 20 anos de experiência em conduzir negociações e fechar negócios para a empresa IPT Teixeira, líder na produção de artefatos de concreto há mais de 30 anos. Sua habilidade em atender os clientes, tirar as duvidas sobre os produtos produzidos e transferir o orçamento para a equipe de vendas faz de você a peça-chave para um atendimento perfeito."
  const OrcamentoPrompt := "Você é responsável por processar as informações coletadas pelo Agente de Atendimento e transformá-las em um orçamento estruturado. Organize os dados de forma clara e objetiva para o gerente de vendas."
  const ValidacaoPrompt := "Você é um assistente de validação para o gerente de vendas da IPT Teixeira. Sua função é auxiliar na revisão dos orçamentos, verificando se todas as informações estão completas e corretas."
  const EmailPrompt := "Você é responsável por criar e-mails profissionais com orçamentos anexados. Seu tom deve ser cordial, claro e profissional. Sempre inclua um resumo do orçamento no corpo do e-mail."

  /** The four agents `loadAgents` installs; only the e-mail agent is inactive. */
  const MockAgents: seq<Agent> := [
    Agent("atendimento", "Agente de Atendimento", "Coleta dados de clientes e gera orçamentos preliminares",
      AtendimentoPrompt, "gemini-pro", true, "atendimento", Some(MessageCircle)),
    Agent("orcamento", "Agente de Orçamento", "Processa os dados e cria registros de orçamento no sistema",
      OrcamentoPrompt, "gpt-4o-mini", true, "orcamento", Some(ShoppingBag)),
    Agent("validacao", "Agente de Validação", "Auxilia o gerente na validação e preenchimento de orçamentos",
      ValidacaoPrompt, "gpt-4o-mini", true, "validacao", Some(CheckCircle)),
    Agent("email", "Agente de E-mail", "Gera e envia e-mails com orçamentos para os clientes",
      EmailPrompt, "claude-3-haiku", false, "email", Some(Mail))
  ]

  predicate ActiveOfType(a: Agent, agentType: string) {
    a.agentType == agentType && a.active
  }

  class AgentList {
    var agents: seq<Agent>
    var loading: bool
    var error: Option<string>

    constructor()
      ensures agents == [] && loading && error == None
    {
      agents := [];
      loading := true;
      error := None;
    }

    /** Install the built-in agents, clear the error and stop loading. */
    method LoadAgents()
      modifies this
      ensures agents == MockAgents && error == None && !loading
    {
      loading := true;
      agents := MockAgents;
      error := None;
      loading := false;
    }

    /** Replace the agents with the updated one's id; always reports success. */
    method UpdateAgent(updated: Agent) returns (ok: bool)
      modifies this`agents
      ensures ok
      ensures agents == WithAgent(old(agents), updated)
    {
      agents := WithAgent(agents, updated);
      ok := true;
    }

    /** `agents.find(a => a.type === type && a.active)`: the first active agent of the type. */
    function GetAgentByType(agentType: string): (r: Option<Agent>)
      reads this
      ensures r.Some? ==> ActiveOfType(r.value, agentType)
      ensures r.Some? ==> exists i :: 0 <= i < |agents| && agents[i] == r.value && forall j :: 0 <= j < i ==> !ActiveOfType(agents[j], agentType)
      ensures r.None? <==> forall i :: 0 <= i < |agents| ==> !ActiveOfType(agents[i], agentType)
    {
      Find(agents, (a: Agent) => ActiveOfType(a, agentType))
    }
  }

  /** Worked example of `GetAgentByType`: with the built-in data, asking for the e-mail agent finds nothing, since it is inactive. */
  lemma MockEmailAgentNotFound(list: AgentList)
    requires list.agents == MockAgents
    ensures list.GetAgentByType("email") == None
  {
    forall i | 0 <= i < |MockAgents|
      ensures !ActiveOfType(MockAgents[i], "email")
    {
      assert i == 0 || i == 1 || i == 2 || i == 3;
    }
  }

  /** Worked example of `GetAgentByType`: with the built-in data, the sales agent is found for its type. */
  lemma MockAtendimentoFound(list: AgentList)
    requires list.agents == MockAgents
    ensures list.GetAgentByType("atendimento") == Some(MockAgents[0])
  {
    assert ActiveOfType(MockAgents[0], "atendimento");
  }

  /** Worked example of `GetAgentByType`: with the built-in data, the quoting agent is found for its type. */
  lemma MockOrcamentoFound(list: AgentList)
    requires list.agents == MockAgents
    ensures list.GetAgentByType("orcamento") == Some(MockAgents[1])
  {
    assert ActiveOfType(MockAgents[1], "orcamento") && !ActiveOfType(MockAgents[0], "orcamento");
  }

  /** Worked example of `GetAgentByType`: with the built-in data, the validation agent is found for its type. */
  lemma MockValidacaoFound(list: AgentList)
    requires list.agents == MockAgents
    ensures list.GetAgentByType("validacao") == Some(MockAgents[2])
  {
    assert ActiveOfType(MockAgents[2], "validacao");
    assert !ActiveOfType(MockAgents[0], "validacao") && !ActiveOfType(MockAgents[1], "validacao");
  }
}
