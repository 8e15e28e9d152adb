/**
 * The `QuoteList` component: its demonstration quotes, the status filter
 * chosen by its `status` prop, and the status and priority badges.
 */
module QuoteList {
  import opened Wrappers
  import opened Lists

  /** A row of the list as the component holds it; the value is display text. */
  datatype ListedQuote = ListedQuote(
    id: string,
    client: string,
    description: string,
    value: string,
    date: string,
    status: string,
    priority: string)

  const DefaultFilter := "all"

  const MockQuotes: seq<ListedQuote> := [
    ListedQuote("ORC-2023-001", "Empresa ABC Ltda", "10 Módulos estruturais com montagem", "R$ 45.000,00", "2023-11-15", "pending", "high"),
    ListedQuote("ORC-2023-002", "Construtora XYZ", "Estrutura metálica para galpão industrial", "R$ 120.000,00", "2023-11-12", "processing", "medium"),
    ListedQuote("ORC-2023-003", "Indústria de Alimentos ABCD", "Sistema de esteiras modulares", "R$ 78.500,00", "2023-11-10", "completed", "low"),
    ListedQuote("ORC-2023-004", "Supermercados Silva", "Prateleiras e estruturas metálicas", "R$ 35.000,00", "2023-11-08", "processing", "high"),
    ListedQuote("ORC-2023-005", "Hospital Regional", "Módulos para expansão da ala de emergência", "R$ 250.000,00", "2023-11-05", "pending", "urgent")
  ]

  /** `filteredQuotes`: everything for "all", otherwise the quotes with that status. */
  function Filtered(quotes: seq<ListedQuote>, status: string): (r: seq<ListedQuote>)
    ensures status == "all" ==> r == quotes
    ensures status != "all" ==> forall q :: q in r <==> q in quotes && q.status == status
  {
    if status == "all" then quotes else Filter(quotes, (q: ListedQuote) => q.status == status)
  }

  /** A status filter keeps the original order and every copy of each matching quote. */
  lemma FilteredExactly(quotes: seq<ListedQuote>, status: string, q: ListedQuote)
    ensures IsSubsequence(Filtered(quotes, status), quotes)
    ensures multiset(Filtered(quotes, status))[q] == if status == "all" || q.status == status then multiset(quotes)[q] else 0
  {
    if status != "all" {
      FilterIsSubsequence(quotes, (x: ListedQuote) => x.status == status);
      FilterMultiplicity(quotes, (x: ListedQuote) => x.status == status, q);
    } else {
      SubsequenceOfItself(quotes);
    }
  }

  lemma {:induction false} SubsequenceOfItself<T>(s: seq<T>)
    ensures IsSubsequence(s, s)
  {
    if s != [] {
      SubsequenceOfItself(s[1..]);
    }
  }

  /** Worked example of `Filtered`: the pending filter on the demonstration data shows the first and the last quote. */
  lemma MockPending()
    ensures Filtered(MockQuotes, "pending") == [MockQuotes[0], MockQuotes[4]]
  {
    var qs := MockQuotes;
    assert qs == [qs[0]] + qs[1..];
    assert qs[1..] == [qs[1]] + qs[2..];
    assert qs[2..] == [qs[2]] + qs[3..];
    assert qs[3..] == [qs[3]] + qs[4..];
    assert qs[4..] == [qs[4]] + qs[5..];
  }

  datatype Variant = Outline | Destructive | Default | Secondary

  datatype Badge = Badge(variant: Variant, text: string)

  /** `getStatusBadge`. */
  function StatusBadge(status: string): (b: Badge)
    ensures b.variant == Outline
    ensures status == "pending" ==> b.text == "Pendente"
    ensures status == "processing" ==> b.text == "Em Processamento"
    ensures status == "completed" ==> b.text == "Concluído"
    ensures status !in {"pending", "processing", "completed"} ==> b.text == "Desconhecido"
  {
    match status
    case "pending" => Badge(Outline, "Pendente")
    case "processing" => Badge(Outline, "Em Processamento")
    case "completed" => Badge(Outline, "Concluído")
    case _ => Badge(Outline, "Desconhecido")
  }

  /** `getPriorityBadge`: the four known priorities get a badge, any other none. */
  function PriorityBadge(priority: string): (b: Option<Badge>)
    ensures b.Some? <==> priority in {"urgent", "high", "medium", "low"}
    ensures priority == "urgent" ==> b == Some(Badge(Destructive, "Urgente"))
    ensures priority == "high" ==> b == Some(Badge(Default, "Alta"))
    ensures priority == "medium" ==> b == Some(Badge(Secondary, "Média"))
    ensures priority == "low" ==> b == Some(Badge(Outline, "Baixa"))
  {
    match priority
    case "urgent" => Some(Badge(Destructive, "Urgente"))
    case "high" => Some(Badge(Default, "Alta"))
    case "medium" => Some(Badge(Secondary, "Média"))
    case "low" => Some(Badge(Outline, "Baixa"))
    case _ => None
  }
}
