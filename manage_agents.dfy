/**
 * The `manage-agents` edge function: one POST endpoint whose JSON body
 * names a `method` (GET_ALL, CREATE, UPDATE, DELETE) and carries
 * `agentData`. The `agents` table is the object whose rows the handler
 * changes; every refusal is a `{success: false, error}` reply with status 400.
 */
module ManageAgents {
  import opened Wrappers
  import opened Lists
  import opened Js
  import opened Store
  import opened Schema

  /** `agentData` as the client sends it; every key may be missing or `null`. */
  datatype AgentData = AgentData(
    agentId: Field<string>,
    name: Field<string>,
    description: Field<string>,
    prompt: Field<string>,
    model: Field<string>,
    active: Field<bool>,
    agentType: Field<string>)

  /** The body: `{method, agentData}`; `operation` holds `method`. */
  datatype AgentRequest = AgentRequest(operation: Field<string>, agentData: Field<AgentData>)

  datatype AgentBody =
    | Listed(agents: seq<AgentRow>)
    | Written(agent: AgentRow)
    | Deleted
    | Failed(error: string)

  datatype AgentReply = AgentReply(status: nat, body: AgentBody)

  const EmptyBodyMessage := "Corpo da requisição está vazio"
  const BadFormatMessage := "Formato de requisição inválido"
  const NoDataMessage := "Dados do agente não fornecidos"
  const CreateFieldsMessage := "Campos obrigatórios não fornecidos: agent_id, name, prompt, model, type"
  const NoIdMessage := "ID do agente não fornecido"
  const UpdateFieldsMessage := "Campos obrigatórios não fornecidos: name, prompt, model, type"
  const UnsupportedMethodPrefix := "Método não suportado: "
  const UnknownErrorMessage := "Erro desconhecido"

  /** The catch block: `{success: false, error: message || "Erro desconhecido"}` with 400. */
  function Refuse(message: string): (r: AgentReply)
    ensures r.status == 400 && r.body.Failed?
    ensures message != "" ==> r.body.error == message
    ensures message == "" ==> r.body.error == UnknownErrorMessage
  {
    AgentReply(400, Failed(Or(message, UnknownErrorMessage)))
  }

  /** Status 400 exactly for refusals, 200 otherwise. */
  predicate WellFormed(reply: AgentReply) {
    if reply.body.Failed? then reply.status == 400 else reply.status == 200
  }

  /** No two rows describe the same `agent_id`. */
  predicate OneRowPerAgent(rows: seq<AgentRow>) {
    DistinctBy(rows, AgentRowKey)
  }

  /** CREATE's validation: all five required fields truthy. */
  predicate CreateFieldsPresent(d: AgentData) {
    Truthy(d.agentId) && Truthy(d.name) && Truthy(d.prompt) && Truthy(d.model) && Truthy(d.agentType)
  }

  /** UPDATE's second validation: the four fields other than `agent_id` truthy. */
  predicate UpdateFieldsPresent(d: AgentData) {
    Truthy(d.name) && Truthy(d.prompt) && Truthy(d.model) && Truthy(d.agentType)
  }

  /**
   * The row `.insert([agentData])` stores: the payload's columns as sent,
   * `stamp` in both timestamps (UPDATE's insert sets them, CREATE does not).
   */
  function Inserted(d: AgentData, id: string, stamp: Option<string>): (r: AgentRow)
    requires CreateFieldsPresent(d)
    ensures r.id == id && r.agentId == d.agentId.value && r.name == d.name.value
    ensures r.prompt == d.prompt.value && r.model == d.model.value && r.agentType == d.agentType.value
    ensures r.description == Stored(d.description) && r.active == Stored(d.active)
    ensures r.createdAt == stamp && r.updatedAt == stamp
  {
    AgentRow(id, d.agentId.value, d.name.value, Stored(d.description), d.prompt.value, d.model.value,
      Stored(d.active), d.agentType.value, stamp, stamp)
  }

  /**
   * The row `.update(agentData)` leaves: the required columns take the
   * payload's values, the optional ones follow the payload (left out: kept,
   * `null`: cleared), `updated_at` is the current time; `id` and
   * `created_at` stay.
   */
  function Amended(row: AgentRow, d: AgentData, now: string): (r: AgentRow)
    requires CreateFieldsPresent(d)
    ensures r.id == row.id && r.createdAt == row.createdAt
    ensures r.agentId == d.agentId.value && r.name == d.name.value && r.prompt == d.prompt.value
    ensures r.model == d.model.value && r.agentType == d.agentType.value
    ensures r.description == Assign(d.description, row.description) && r.active == Assign(d.active, row.active)
    ensures r.updatedAt == Some(now)
  {
    row.(agentId := d.agentId.value, name := d.name.value, prompt := d.prompt.value, model := d.model.value,
         agentType := d.agentType.value, description := Assign(d.description, row.description),
         active := Assign(d.active, row.active), updatedAt := Some(now))
  }

  /** `.update(agentData).eq("agent_id", agentId)`. */
  function Amend(rows: seq<AgentRow>, d: AgentData, now: string): seq<AgentRow>
    requires CreateFieldsPresent(d)
  {
    MapWhere(rows, (r: AgentRow) => r.agentId == d.agentId.value, (r: AgentRow) => Amended(r, d, now))
  }

  /** `.delete().eq("agent_id", agentId)`. */
  function Discard(rows: seq<AgentRow>, agentId: string): seq<AgentRow> {
    Filter(rows, (r: AgentRow) => r.agentId != agentId)
  }

  /** No matching row means no row carries that `agent_id`. */
  lemma NoneWithId(rows: seq<AgentRow>, agentId: string)
    requires AgentsWithId(rows, agentId) == []
    ensures forall i :: 0 <= i < |rows| ==> rows[i].agentId != agentId
  {
    forall i | 0 <= i < |rows| ensures rows[i].agentId != agentId {
      var other := rows[i];
      assert other.agentId == agentId ==> other in AgentsWithId(rows, agentId);
    }
  }

  /** With one row per agent, a lookup by `agent_id` matches at most one row. */
  lemma {:induction false} AtMostOneMatch(rows: seq<AgentRow>, agentId: string)
    requires OneRowPerAgent(rows)
    ensures |AgentsWithId(rows, agentId)| <= 1
  {
    if rows != [] {
      var p := (r: AgentRow) => r.agentId == agentId;
      assert OneRowPerAgent(rows[1..]) by {
        forall i, j | 0 <= i < j < |rows[1..]| ensures AgentRowKey(rows[1..][i]) != AgentRowKey(rows[1..][j]) {
          assert rows[1..][i] == rows[i + 1] && rows[1..][j] == rows[j + 1];
        }
      }
      AtMostOneMatch(rows[1..], agentId);
      if p(rows[0]) {
        forall i | 0 <= i < |rows[1..]| ensures !p(rows[1..][i]) {
          assert rows[1..][i] == rows[i + 1];
          assert AgentRowKey(rows[0]) != AgentRowKey(rows[i + 1]);
        }
        FilterNone(rows[1..], p);
      }
    }
  }

  /**
   * `.single()` reports PGRST116 for several matches as for none, so under
   * UPDATE an `agent_id` that CREATE has stored twice is inserted a third time.
   */
  lemma DuplicatesLookLikeAbsence(rows: seq<AgentRow>, agentId: string)
    requires |AgentsWithId(rows, agentId)| > 1
    ensures Single(None, AgentsWithId(rows, agentId)).Failure?
    ensures Single(None, AgentsWithId(rows, agentId)).error.code == NotSingleCode
  {
  }

  /**
   * A store failure that itself carries PGRST116 sends UPDATE down the insert
   * path even for an agent that has its row, which leaves two rows for it.
   */
  lemma InjectedNotSingleDuplicates(row: AgentRow, d: AgentData, newId: string, now: string)
    requires CreateFieldsPresent(d) && row.agentId == d.agentId.value
    ensures Single(Some(NotSingle), AgentsWithId([row], row.agentId)).Failure?
    ensures Single(Some(NotSingle), AgentsWithId([row], row.agentId)).error.code == NotSingleCode
    ensures OneRowPerAgent([row]) && !OneRowPerAgent([row] + [Inserted(d, newId, Some(now))])
  {
    var both := [row] + [Inserted(d, newId, Some(now))];
    assert AgentRowKey(both[0]) == AgentRowKey(both[1]);
  }

  /** The update rewrites only the rows of that agent and keeps ids and `agent_id`s unique. */
  lemma {:induction false} AmendKeepsKeys(rows: seq<AgentRow>, d: AgentData, now: string)
    requires CreateFieldsPresent(d)
    requires DistinctBy(rows, AgentRowId)
    ensures DistinctBy(Amend(rows, d, now), AgentRowId)
    ensures OneRowPerAgent(rows) ==> OneRowPerAgent(Amend(rows, d, now))
    ensures forall i :: 0 <= i < |rows| && rows[i].agentId != d.agentId.value ==> Amend(rows, d, now)[i] == rows[i]
  {
    var p := (r: AgentRow) => r.agentId == d.agentId.value;
    var f := (r: AgentRow) => Amended(r, d, now);
    MapWhereKeepsDistinct(rows, p, f, AgentRowId);
    if OneRowPerAgent(rows) {
      MapWhereKeepsDistinct(rows, p, f, AgentRowKey);
    }
  }

  /** DELETE removes that agent's rows, keeps every other row, and keeps keys unique. */
  lemma DiscardRemovesExactly(rows: seq<AgentRow>, agentId: string, x: AgentRow)
    ensures multiset(Discard(rows, agentId))[x] == if x.agentId == agentId then 0 else multiset(rows)[x]
  {
    FilterMultiplicity(rows, (r: AgentRow) => r.agentId != agentId, x);
  }

  lemma DiscardKeepsKeys(rows: seq<AgentRow>, agentId: string)
    requires DistinctBy(rows, AgentRowId)
    ensures DistinctBy(Discard(rows, agentId), AgentRowId)
    ensures OneRowPerAgent(rows) ==> OneRowPerAgent(Discard(rows, agentId))
    ensures AgentsWithId(Discard(rows, agentId), agentId) == []
  {
    var p := (r: AgentRow) => r.agentId != agentId;
    FilterKeepsDistinct(rows, p, AgentRowId);
    if OneRowPerAgent(rows) {
      FilterKeepsDistinct(rows, p, AgentRowKey);
    }
    var left := Discard(rows, agentId);
    forall i | 0 <= i < |left| ensures left[i].agentId != agentId {
      assert left[i] in left;
    }
    FilterNone(left, (r: AgentRow) => r.agentId == agentId);
  }

  class AgentTable {
    var rows: seq<AgentRow>

    /** `id` is the table's primary key. */
    ghost predicate Valid()
      reads this
    {
      DistinctBy(rows, AgentRowId)
    }

    /** The id the database would give the next inserted row. */
    predicate FreshId(id: string)
      reads this
    {
      forall i :: 0 <= i < |rows| ==> rows[i].id != id
    }

    constructor(initial: seq<AgentRow>)
      requires DistinctBy(initial, AgentRowId)
      ensures Valid() && rows == initial
    {
      rows := initial;
    }

    /** GET_ALL: every row, or the store's error. */
    method GetAll(fault: Option<DbError>) returns (reply: AgentReply)
      ensures WellFormed(reply)
      ensures fault.Some? ==> reply == Refuse(fault.value.message)
      ensures fault.None? ==> reply == AgentReply(200, Listed(rows))
    {
      if fault.Some? {
        reply := Refuse(fault.value.message);
        return;
      }
      reply := AgentReply(200, Listed(rows));
    }

    /** CREATE: validate, then insert `agentData` as sent. */
    method Create(data: Field<AgentData>, fault: Option<DbError>, newId: string) returns (reply: AgentReply)
      requires Valid() && FreshId(newId)
      modifies this
      ensures Valid() && WellFormed(reply)
      ensures reply.body.Failed? ==> rows == old(rows)
      ensures !data.Given? ==> reply == Refuse(NoDataMessage)
      ensures data.Given? && !CreateFieldsPresent(data.value) ==> reply == Refuse(CreateFieldsMessage)
      ensures data.Given? && CreateFieldsPresent(data.value) ==>
        && (fault.Some? ==> reply == Refuse(fault.value.message))
        && (fault.None? ==> rows == old(rows) + [Inserted(data.value, newId, None)]
                            && reply == AgentReply(200, Written(Inserted(data.value, newId, None))))
    {
      if !data.Given? {
        reply := Refuse(NoDataMessage);
        return;
      }
      var d := data.value;
      if !CreateFieldsPresent(d) {
        reply := Refuse(CreateFieldsMessage);
        return;
      }
      if fault.Some? {
        reply := Refuse(fault.value.message);
        return;
      }
      var row := Inserted(d, newId, None);
      AppendKeepsDistinct(rows, row, AgentRowId);
      rows := rows + [row];
      reply := AgentReply(200, Written(row));
    }

    /**
     * UPDATE: validate, look the agent up with `.single()` (first query);
     * on PGRST116 insert it with both timestamps set, on any other error
     * refuse, otherwise update its rows (second query).
     */
    method Update(data: Field<AgentData>, faults: Faults, newId: string, now: string) returns (reply: AgentReply)
      requires Valid() && FreshId(newId)
      modifies this
      ensures Valid() && WellFormed(reply)
      ensures reply.body.Failed? ==> rows == old(rows)
      ensures OneRowPerAgent(old(rows)) && !InjectedNotSingle(faults.first) ==> OneRowPerAgent(rows)
      ensures !data.Given? || !Truthy(data.value.agentId) ==> reply == Refuse(NoIdMessage)
      ensures data.Given? && Truthy(data.value.agentId) && !UpdateFieldsPresent(data.value) ==>
        reply == Refuse(UpdateFieldsMessage)
      ensures data.Given? && CreateFieldsPresent(data.value) ==>
        var d := data.value;
        var lookup := Single(faults.first, AgentsWithId(old(rows), d.agentId.value));
        && (lookup.Failure? && lookup.error.code != NotSingleCode ==> reply == Refuse(lookup.error.message))
        && (lookup.Failure? && lookup.error.code == NotSingleCode ==>
              && (faults.second.Some? ==> reply == Refuse(faults.second.value.message))
              && (faults.second.None? ==> rows == old(rows) + [Inserted(d, newId, Some(now))]
                                          && reply == AgentReply(200, Written(Inserted(d, newId, Some(now))))))
        && (lookup.Success? ==>
              && (faults.second.Some? ==> reply == Refuse(faults.second.value.message))
              && (faults.second.None? ==> rows == Amend(old(rows), d, now)
                                          && reply == AgentReply(200, Written(Amended(lookup.value, d, now)))))
    {
      if !data.Given? || !Truthy(data.value.agentId) {
        reply := Refuse(NoIdMessage);
        return;
      }
      var d := data.value;
      if !UpdateFieldsPresent(d) {
        reply := Refuse(UpdateFieldsMessage);
        return;
      }
      var matched := AgentsWithId(rows, d.agentId.value);
      var lookup := Single(faults.first, matched);
      if lookup.Failure? {
        if lookup.error.code != NotSingleCode {
          reply := Refuse(lookup.error.message);
          return;
        }
        if faults.second.Some? {
          reply := Refuse(faults.second.value.message);
          return;
        }
        var row := Inserted(d, newId, Some(now));
        AppendKeepsDistinct(rows, row, AgentRowId);
        if OneRowPerAgent(rows) && faults.first.None? {
          AtMostOneMatch(rows, d.agentId.value);
          NoneWithId(rows, d.agentId.value);
          AppendKeepsDistinct(rows, row, AgentRowKey);
        }
        rows := rows + [row];
        reply := AgentReply(200, Written(row));
        return;
      }
      if faults.second.Some? {
        reply := Refuse(faults.second.value.message);
        return;
      }
      AmendKeepsKeys(rows, d, now);
      rows := Amend(rows, d, now);
      reply := AgentReply(200, Written(Amended(lookup.value, d, now)));
    }

    /** DELETE: remove every row of `agentData.agent_id`. */
    method Delete(data: Field<AgentData>, fault: Option<DbError>) returns (reply: AgentReply)
      requires Valid()
      modifies this
      ensures Valid() && WellFormed(reply)
      ensures OneRowPerAgent(old(rows)) ==> OneRowPerAgent(rows)
      ensures !data.Given? || !Truthy(data.value.agentId) ==> rows == old(rows) && reply == Refuse(NoIdMessage)
      ensures data.Given? && Truthy(data.value.agentId) && fault.Some? ==>
        rows == old(rows) && reply == Refuse(fault.value.message)
      ensures data.Given? && Truthy(data.value.agentId) && fault.None? ==>
        rows == Discard(old(rows), data.value.agentId.value) && reply == AgentReply(200, Deleted)
    {
      if !data.Given? || !Truthy(data.value.agentId) {
        reply := Refuse(NoIdMessage);
        return;
      }
      if fault.Some? {
        reply := Refuse(fault.value.message);
        return;
      }
      DiscardKeepsKeys(rows, data.value.agentId.value);
      rows := Discard(rows, data.value.agentId.value);
      reply := AgentReply(200, Deleted);
    }

    /** The whole handler: body checks, then dispatch on `method`. */
    method Handle(body: Body<AgentRequest>, faults: Faults, newId: string, now: string) returns (reply: AgentReply)
      requires Valid() && FreshId(newId)
      modifies this
      ensures Valid() && WellFormed(reply)
      ensures reply.body.Failed? ==> rows == old(rows)
      ensures body.NoBody? ==> reply == Refuse(EmptyBodyMessage)
      ensures body.NotJson? ==> reply == Refuse(BadFormatMessage)
      ensures !body.Parsed? || body.value.operation !in WriteMethods ==> rows == old(rows)
      ensures body.Parsed? && body.value.operation !in KnownMethods ==>
        reply == Refuse(UnsupportedMethodPrefix + Interpolate(body.value.operation))
      ensures body.Parsed? && body.value.operation != Given("CREATE") ==>
        (OneRowPerAgent(old(rows)) && !InjectedNotSingle(faults.first) ==> OneRowPerAgent(rows))
      ensures body.Parsed? && body.value.operation == Given("GET_ALL") ==>
        && (faults.first.Some? ==> reply == Refuse(faults.first.value.message))
        && (faults.first.None? ==> reply == AgentReply(200, Listed(old(rows))))
      ensures body.Parsed? && body.value.operation == Given("CREATE") ==>
        var data := body.value.agentData;
        && (!data.Given? ==> reply == Refuse(NoDataMessage))
        && (data.Given? && !CreateFieldsPresent(data.value) ==> reply == Refuse(CreateFieldsMessage))
        && (data.Given? && CreateFieldsPresent(data.value) ==>
              && (faults.first.Some? ==> reply == Refuse(faults.first.value.message))
              && (faults.first.None? ==> rows == old(rows) + [Inserted(data.value, newId, None)]
                                         && reply == AgentReply(200, Written(Inserted(data.value, newId, None)))))
      ensures body.Parsed? && body.value.operation == Given("UPDATE") ==>
        var data := body.value.agentData;
        && (!data.Given? || !Truthy(data.value.agentId) ==> reply == Refuse(NoIdMessage))
        && (data.Given? && Truthy(data.value.agentId) && !UpdateFieldsPresent(data.value) ==>
              reply == Refuse(UpdateFieldsMessage))
        && (data.Given? && CreateFieldsPresent(data.value) ==>
              var d := data.value;
              var lookup := Single(faults.first, AgentsWithId(old(rows), d.agentId.value));
              && (lookup.Failure? && lookup.error.code != NotSingleCode ==> reply == Refuse(lookup.error.message))
              && (lookup.Failure? && lookup.error.code == NotSingleCode ==>
                    && (faults.second.Some? ==> reply == Refuse(faults.second.value.message))
                    && (faults.second.None? ==> rows == old(rows) + [Inserted(d, newId, Some(now))]
                                                && reply == AgentReply(200, Written(Inserted(d, newId, Some(now))))))
              && (lookup.Success? ==>
                    && (faults.second.Some? ==> reply == Refuse(faults.second.value.message))
                    && (faults.second.None? ==> rows == Amend(old(rows), d, now)
                                                && reply == AgentReply(200, Written(Amended(lookup.value, d, now))))))
      ensures body.Parsed? && body.value.operation == Given("DELETE") ==>
        var data := body.value.agentData;
        && (!data.Given? || !Truthy(data.value.agentId) ==> reply == Refuse(NoIdMessage))
        && (data.Given? && Truthy(data.value.agentId) && faults.first.Some? ==>
              reply == Refuse(faults.first.value.message))
        && (data.Given? && Truthy(data.value.agentId) && faults.first.None? ==>
              rows == Discard(old(rows), data.value.agentId.value) && reply == AgentReply(200, Deleted))
    {
      if body.NoBody? {
        reply := Refuse(EmptyBodyMessage);
        return;
      }
      if body.NotJson? {
        reply := Refuse(BadFormatMessage);
        return;
      }
      var req := body.value;
      if req.operation == Given("GET_ALL") {
        reply := GetAll(faults.first);
      } else if req.operation == Given("CREATE") {
        reply := Create(req.agentData, faults.first, newId);
      } else if req.operation == Given("UPDATE") {
        reply := Update(req.agentData, faults, newId, now);
      } else if req.operation == Given("DELETE") {
        reply := Delete(req.agentData, faults.first);
      } else {
        reply := Refuse(UnsupportedMethodPrefix + Interpolate(req.operation));
      }
    }
  }

  const KnownMethods: set<Field<string>> := {Given("GET_ALL"), Given("CREATE"), Given("UPDATE"), Given("DELETE")}
  const WriteMethods: set<Field<string>> := {Given("CREATE"), Given("UPDATE"), Given("DELETE")}
}
