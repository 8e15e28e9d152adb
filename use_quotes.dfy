/**
 * The `useQuotes` hook: the list of quotes the client keeps in state, with
 * the operations that append a new quote, replace one by id and look one up.
 * The year and the current time are parameters.
 */
module UseQuotes {
  import opened Wrappers
  import opened Text
  import opened Lists
  import opened Domain

  /**
   * `ORC-<year>-<count + 1>` with the number zero-padded to three digits;
   * a number of more digits is written as it is.
   */
  function QuoteId(year: nat, count: nat): (id: string)
    ensures StartsWith(id, "ORC-" + NatToString(year) + "-")
    ensures |id| == |"ORC-" + NatToString(year) + "-"|
                    + (if |NatToString(count + 1)| >= 3 then |NatToString(count + 1)| else 3)
  {
    var head := "ORC-" + NatToString(year) + "-";
    assert (head + PadStart(NatToString(count + 1), 3, '0'))[..|head|] == head;
    head + PadStart(NatToString(count + 1), 3, '0')
  }

  /** The number in an id reads back as the count it was made from, plus one. */
  lemma QuoteNumberRoundTrip(year: nat, count: nat)
    ensures var tail := QuoteId(year, count)[|"ORC-" + NatToString(year) + "-"|..];
      && (forall i :: 0 <= i < |tail| ==> IsDigit(tail[i]))
      && DigitsValue(tail) == count + 1
  {
    var head := "ORC-" + NatToString(year) + "-";
    var tail := PadStart(NatToString(count + 1), 3, '0');
    assert QuoteId(year, count)[|head|..] == tail;
    PaddedNatRoundTrip(count + 1, 3);
  }

  /** The year used in the worked examples below, written out. */
  lemma YearDigits()
    ensures NatToString(2024) == "2024"
  {
    assert DigitChar(2) == '2' && DigitChar(0) == '0' && DigitChar(4) == '4';
    assert NatToString(20) == "20";
    assert NatToString(202) == "202";
  }

  /** Worked example: the first quote of 2024 is "ORC-2024-001". */
  lemma FirstQuoteIdExample()
    ensures QuoteId(2024, 0) == "ORC-2024-001"
  {
    YearDigits();
    assert NatToString(1) == "1";
    assert Repeat('0', 2) == "00";
    assert PadStart("1", 3, '0') == "001";
  }

  /** One thousand, written out. */
  lemma ThousandDigits()
    ensures NatToString(1000) == "1000"
  {
    assert DigitChar(1) == '1' && DigitChar(0) == '0';
    assert NatToString(10) == "10";
    assert NatToString(100) == "100";
  }

  /** Worked example: the thousandth quote of 2024 outgrows the padding, "ORC-2024-1000". */
  lemma ThousandthQuoteIdExample()
    ensures QuoteId(2024, 999) == "ORC-2024-1000"
  {
    YearDigits();
    ThousandDigits();
    assert PadStart(NatToString(1000), 3, '0') == "1000";
  }

  /** Quotes created at different list lengths in one year get different ids. */
  lemma QuoteIdInjective(year: nat, a: nat, b: nat)
    requires QuoteId(year, a) == QuoteId(year, b)
    ensures a == b
  {
    QuoteNumberRoundTrip(year, a);
    QuoteNumberRoundTrip(year, b);
  }

  /** The quote `createQuote` builds: the caller's fields, the new id, pending, both dates now. */
  function NewQuote(input: QuoteInput, id: string, now: int): (q: Quote)
    ensures q.id == id && q.status == "pending" && q.createdAt == now && q.updatedAt == now
    ensures q.clientName == input.clientName && q.clientEmail == input.clientEmail
    ensures q.clientPhone == input.clientPhone && q.products == input.products
    ensures q.location == input.location && q.deliveryDate == input.deliveryDate
    ensures q.paymentMethod == input.paymentMethod && q.totalValueCents == input.totalValueCents
  {
    Quote(id, input.clientName, input.clientEmail, input.clientPhone, input.products, input.location,
      input.deliveryDate, input.paymentMethod, "pending", input.totalValueCents, now, now)
  }

  /** `prev.map(q => q.id === updated.id ? updated : q)`. */
  function Replaced(quotes: seq<Quote>, updated: Quote): (r: seq<Quote>)
    ensures |r| == |quotes|
    ensures forall i :: 0 <= i < |quotes| ==> r[i] == if quotes[i].id == updated.id then updated else quotes[i]
  {
    MapWhere(quotes, (q: Quote) => q.id == updated.id, (q: Quote) => updated)
  }

  /** Replacing twice with the same quote is replacing once. */
  lemma ReplacedIdempotent(quotes: seq<Quote>, updated: Quote)
    ensures Replaced(Replaced(quotes, updated), updated) == Replaced(quotes, updated)
  {
    var once := Replaced(quotes, updated);
    var twice := Replaced(once, updated);
    assert forall i :: 0 <= i < |quotes| ==> twice[i] == once[i];
  }

  class QuoteBook {
    var quotes: seq<Quote>

    constructor()
      ensures quotes == []
    {
      quotes := [];
    }

    /** Append a new pending quote numbered after the current list. */
    method CreateQuote(input: QuoteInput, year: nat, now: int) returns (quote: Quote)
      modifies this
      ensures quote == NewQuote(input, QuoteId(year, |old(quotes)|), now)
      ensures quotes == old(quotes) + [quote]
    {
      var id := QuoteId(year, |quotes|);
      quote := NewQuote(input, id, now);
      quotes := quotes + [quote];
    }

    /** Replace every quote with the updated one's id; always reports success. */
    method UpdateQuote(updated: Quote) returns (ok: bool)
      modifies this
      ensures ok
      ensures quotes == Replaced(old(quotes), updated)
    {
      quotes := Replaced(quotes, updated);
      ok := true;
    }

    /** `quotes.find(q => q.id === id)`. */
    function GetQuoteById(id: string): (r: Option<Quote>)
      reads this
      ensures r.Some? ==> r.value.id == id
      ensures r.Some? ==> exists i :: 0 <= i < |quotes| && quotes[i] == r.value && forall j :: 0 <= j < i ==> quotes[j].id != id
      ensures r.None? <==> forall i :: 0 <= i < |quotes| ==> quotes[i].id != id
    {
      Find(quotes, (q: Quote) => q.id == id)
    }
  }
}
