/**
 * The navigation sidebar: the demo role switch that cycles client, manager
 * and admin, the expanded/collapsed toggle, and which links each role sees.
 */
module Sidebar {
  import opened Lists

  datatype Role = Client | Manager | Admin

  /** `toggleUserType`: client to manager, manager to admin, anything else back to client. */
  function Next(role: Role): (next: Role)
    ensures next != role
    ensures role == Client ==> next == Manager
    ensures role == Manager ==> next == Admin
    ensures role == Admin ==> next == Client
  {
    if role == Client then Manager
    else if role == Manager then Admin
    else Client
  }

  /** Toggling the role `k` times lands on the role `k` steps further round the cycle. */
  function Toggled(role: Role, k: nat): Role {
    if k == 0 then role else Next(Toggled(role, k - 1))
  }

  /** Three toggles from any point return to it; from the start they visit manager and admin. */
  lemma ToggleCycle(role: Role, k: nat)
    ensures Toggled(role, k + 3) == Toggled(role, k)
    ensures Toggled(role, 3) == role
    ensures Toggled(Client, 1) == Manager && Toggled(Client, 2) == Admin
  {
    var t := Toggled(role, k);
    assert Toggled(role, k + 1) == Next(t);
    assert Toggled(role, k + 2) == Next(Toggled(role, k + 1));
    assert Toggled(role, k + 3) == Next(Toggled(role, k + 2));
    assert Toggled(role, 3) == Next(Next(Next(role)));
  }

  datatype Link = Link(to: string, caption: string, allowedUsers: set<Role>)

  const HomeLink := Link("/", "Home", {Client, Manager, Admin})
  const AtendimentoLink := Link("/client", "Atendimento", {Client})
  const OrcamentosLink := Link("/manager", "Orçamentos", {Manager})
  const ConfiguracaoLink := Link("/admin", "Configuração", {Admin})
  const ClientesLink := Link("/clients", "Clientes", {Manager, Admin})

  const SidebarLinks: seq<Link> := [HomeLink, AtendimentoLink, OrcamentosLink, ConfiguracaoLink, ClientesLink]

  /** `SidebarLink` renders nothing unless the role is among the link's allowed users. */
  predicate Visible(link: Link, role: Role) {
    role in link.allowedUsers
  }

  /** The links rendered for a role, in declaration order. */
  function VisibleLinks(links: seq<Link>, role: Role): seq<Link> {
    Filter(links, (l: Link) => Visible(l, role))
  }

  /** A link is rendered exactly when the role may see it, and the rendered links keep their order. */
  lemma VisibleLinksExactly(links: seq<Link>, role: Role)
    ensures forall l :: l in VisibleLinks(links, role) <==> l in links && Visible(l, role)
    ensures IsSubsequence(VisibleLinks(links, role), links)
  {
    FilterIsSubsequence(links, (l: Link) => Visible(l, role));
  }

  lemma VisibleLinksAppend(front: seq<Link>, back: seq<Link>, role: Role)
    ensures VisibleLinks(front + back, role) == VisibleLinks(front, role) + VisibleLinks(back, role)
  {
    FilterAppend(front, back, (l: Link) => Visible(l, role));
  }

  lemma OneLink(link: Link, role: Role)
    ensures VisibleLinks([link], role) == if Visible(link, role) then [link] else []
  {
    assert [link][1..] == [];
  }

  /** The rendered links are the five links' own verdicts, in order. */
  lemma LinksFor(role: Role)
    ensures VisibleLinks(SidebarLinks, role) ==
      VisibleLinks([HomeLink], role) + VisibleLinks([AtendimentoLink], role) + VisibleLinks([OrcamentosLink], role)
      + VisibleLinks([ConfiguracaoLink], role) + VisibleLinks([ClientesLink], role)
  {
    var two := [HomeLink] + [AtendimentoLink];
    var three := two + [OrcamentosLink];
    var four := three + [ConfiguracaoLink];
    assert SidebarLinks == four + [ClientesLink];
    VisibleLinksAppend(four, [ClientesLink], role);
    VisibleLinksAppend(three, [ConfiguracaoLink], role);
    VisibleLinksAppend(two, [OrcamentosLink], role);
    VisibleLinksAppend([HomeLink], [AtendimentoLink], role);
  }

  /** Worked example of `VisibleLinks` on the sidebar's links: a client sees Home and Atendimento. */
  lemma ClientLinks()
    ensures VisibleLinks(SidebarLinks, Client) == [HomeLink, AtendimentoLink]
  {
    LinksFor(Client);
    OneLink(HomeLink, Client);
    OneLink(AtendimentoLink, Client);
    OneLink(OrcamentosLink, Client);
    OneLink(ConfiguracaoLink, Client);
    OneLink(ClientesLink, Client);
    assert VisibleLinks(SidebarLinks, Client) == [HomeLink] + [AtendimentoLink] + [] + [] + [];
  }

  /** Worked example of `VisibleLinks` on the sidebar's links: a manager sees Home, Orçamentos and Clientes. */
  lemma ManagerLinks()
    ensures VisibleLinks(SidebarLinks, Manager) == [HomeLink, OrcamentosLink, ClientesLink]
  {
    LinksFor(Manager);
    OneLink(HomeLink, Manager);
    OneLink(AtendimentoLink, Manager);
    OneLink(OrcamentosLink, Manager);
    OneLink(ConfiguracaoLink, Manager);
    OneLink(ClientesLink, Manager);
    assert VisibleLinks(SidebarLinks, Manager) == [HomeLink] + [] + [OrcamentosLink] + [] + [ClientesLink];
  }

  /** Worked example of `VisibleLinks` on the sidebar's links: an admin sees Home, Configuração and Clientes. */
  lemma AdminLinks()
    ensures VisibleLinks(SidebarLinks, Admin) == [HomeLink, ConfiguracaoLink, ClientesLink]
  {
    LinksFor(Admin);
    OneLink(HomeLink, Admin);
    OneLink(AtendimentoLink, Admin);
    OneLink(OrcamentosLink, Admin);
    OneLink(ConfiguracaoLink, Admin);
    OneLink(ClientesLink, Admin);
    assert VisibleLinks(SidebarLinks, Admin) == [HomeLink] + [] + [] + [ConfiguracaoLink] + [ClientesLink];
  }

  class SidebarState {
    var expanded: bool
    var userType: Role

    constructor()
      ensures expanded && userType == Client
    {
      expanded := true;
      userType := Client;
    }

    method ToggleUserType()
      modifies this`userType
      ensures userType == Next(old(userType))
    {
      if userType == Client {
        userType := Manager;
      } else if userType == Manager {
        userType := Admin;
      } else {
        userType := Client;
      }
    }

    /** The collapse button. */
    method ToggleExpanded()
      modifies this`expanded
      ensures expanded == !old(expanded)
    {
      expanded := !expanded;
    }

    /** The effect run when the mobile flag changes: on mobile the sidebar collapses. */
    method MobileChanged(isMobile: bool)
      modifies this`expanded
      ensures expanded == (old(expanded) && !isMobile)
    {
      if isMobile {
        expanded := false;
      }
    }
  }
}
