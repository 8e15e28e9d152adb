/**
 * The `manage-api-keys` edge function: one POST endpoint whose JSON body
 * names a `method` (GET_ALL, SAVE, DELETE, TEST_CONNECTION) and carries
 * `apiKeyData`. The `api_keys` table is the object whose rows the handler
 * changes; every refusal is a `{success: false, error}` reply with status 400.
 */
module ManageApiKeys {
  import opened Wrappers
  import opened Lists
  import opened Js
  import opened Store
  import opened Schema

  /** `apiKeyData` as the client sends it; every key may be missing or `null`. */
  datatype KeyData = KeyData(
    id: Field<string>,
    provider: Field<string>,
    apiKey: Field<string>,
    endpoint: Field<string>,
    modelType: Field<string>,
    modelVersion: Field<string>,
    active: Field<bool>)

  /** The body: `{method, apiKeyData}`; `operation` holds `method`. */
  datatype KeyRequest = KeyRequest(operation: Field<string>, apiKeyData: Field<KeyData>)

  /** The columns the handler ever sends back: every column but `api_key`. */
  datatype KeyView = KeyView(
    id: string,
    provider: string,
    endpoint: Option<string>,
    modelType: Option<string>,
    modelVersion: Option<string>,
    active: Option<bool>,
    createdAt: Option<string>,
    updatedAt: Option<string>)

  function View(r: ApiKeyRow): KeyView {
    KeyView(r.id, r.provider, r.endpoint, r.modelType, r.modelVersion, r.active, r.createdAt, r.updatedAt)
  }

  /** The projection does not depend on the secret: no reply can leak it. */
  lemma ViewHidesKey(r: ApiKeyRow, secret: string)
    ensures View(r.(apiKey := secret)) == View(r)
  {
  }

  datatype KeyBody =
    | Listed(keys: seq<KeyView>)
    | Saved(key: KeyView)
    | Deleted
    | Tested(passed: bool)
    | Failed(error: string)

  datatype KeyReply = KeyReply(status: nat, body: KeyBody)

  const EmptyBodyMessage := "Corpo da requisição está vazio"
  const IncompleteMessage := "Dados incompletos para salvar a chave de API"
  const LookupFailedPrefix := "Erro ao verificar chave existente: "
  const KeyNotFoundMessage := "Chave de API não encontrada"
  const UnsupportedMethodMessage := "Método não suportado"
  const UnknownErrorMessage := "Erro desconhecido"

  /** The catch block: `{success: false, error: message || "Erro desconhecido"}` with 400. */
  function Refuse(message: string): (r: KeyReply)
    ensures r.status == 400 && r.body.Failed?
    ensures message != "" ==> r.body.error == message
    ensures message == "" ==> r.body.error == UnknownErrorMessage
  {
    KeyReply(400, Failed(Or(message, UnknownErrorMessage)))
  }

  /** Status 400 exactly for refusals, 200 otherwise. */
  predicate WellFormed(reply: KeyReply) {
    if reply.body.Failed? then reply.status == 400 else reply.status == 200
  }

  /** The table never holds two keys of one provider. */
  predicate OneKeyPerProvider(rows: seq<ApiKeyRow>) {
    DistinctBy(rows, ApiKeyRowProvider)
  }

  /** SAVE's validation: `apiKeyData`, its `provider` and its `api_key` must all be truthy. */
  predicate SaveDataComplete(data: Field<KeyData>) {
    data.Given? && Truthy(data.value.provider) && Truthy(data.value.apiKey)
  }

  /**
   * The row SAVE inserts for a provider without a key: optional texts
   * default to `null` through `||`, and `active || true` is always true.
   * Columns the insert leaves out (timestamps) are null here.
   */
  function NewRow(d: KeyData, id: string): (r: ApiKeyRow)
    requires Truthy(d.provider) && Truthy(d.apiKey)
    ensures r.id == id && r.provider == d.provider.value && r.apiKey == d.apiKey.value
    ensures r.active == Some(true)
    ensures Truthy(d.endpoint) <==> r.endpoint.Some?
    ensures r.endpoint == OrNull(d.endpoint) && r.modelType == OrNull(d.modelType)
    ensures r.modelVersion == OrNull(d.modelVersion)
    ensures r.createdAt == None && r.updatedAt == None
  {
    ApiKeyRow(id, d.provider.value, d.apiKey.value, OrNull(d.endpoint), OrNull(d.modelType),
      OrNull(d.modelVersion), Some(if TruthyBool(d.active) then d.active.value else true), None, None)
  }

  /**
   * The row SAVE's update leaves: the key is replaced, the optional columns
   * take the payload's value (a key the client left out is not sent and so
   * keeps the column, `null` clears it), `active` is passed through as is
   * and `updated_at` is the current time.
   */
  function Revised(row: ApiKeyRow, d: KeyData, now: string): (r: ApiKeyRow)
    requires d.apiKey.Given?
    ensures r.id == row.id && r.provider == row.provider && r.createdAt == row.createdAt
    ensures r.apiKey == d.apiKey.value && r.updatedAt == Some(now)
    ensures r.active == Assign(d.active, row.active)
    ensures r.endpoint == Assign(d.endpoint, row.endpoint)
    ensures r.modelType == Assign(d.modelType, row.modelType)
    ensures r.modelVersion == Assign(d.modelVersion, row.modelVersion)
  {
    row.(apiKey := d.apiKey.value,
         endpoint := Assign(d.endpoint, row.endpoint),
         modelType := Assign(d.modelType, row.modelType),
         modelVersion := Assign(d.modelVersion, row.modelVersion),
         active := Assign(d.active, row.active),
         updatedAt := Some(now))
  }

  /** `.update(...).eq("id", id)`. */
  function Revise(rows: seq<ApiKeyRow>, id: string, d: KeyData, now: string): seq<ApiKeyRow>
    requires d.apiKey.Given?
  {
    MapWhere(rows, (r: ApiKeyRow) => r.id == id, (r: ApiKeyRow) => Revised(r, d, now))
  }

  /** `.delete().eq("id", id)`. */
  function Purge(rows: seq<ApiKeyRow>, id: string): seq<ApiKeyRow> {
    Filter(rows, (r: ApiKeyRow) => r.id != id)
  }

  /** The update keeps every row's id and provider, so both stay unique. */
  lemma ReviseKeepsKeys(rows: seq<ApiKeyRow>, id: string, d: KeyData, now: string)
    requires d.apiKey.Given?
    requires DistinctBy(rows, ApiKeyRowId)
    ensures DistinctBy(Revise(rows, id, d, now), ApiKeyRowId)
    ensures OneKeyPerProvider(rows) ==> OneKeyPerProvider(Revise(rows, id, d, now))
  {
    var p := (r: ApiKeyRow) => r.id == id;
    var f := (r: ApiKeyRow) => Revised(r, d, now);
    MapWhereKeepsDistinct(rows, p, f, ApiKeyRowId);
    if OneKeyPerProvider(rows) {
      MapWhereKeepsDistinct(rows, p, f, ApiKeyRowProvider);
    }
  }

  /** The update rewrites the row with that id and no other. */
  lemma ReviseTouchesOnlyId(rows: seq<ApiKeyRow>, id: string, d: KeyData, now: string, i: nat)
    requires d.apiKey.Given? && i < |rows|
    ensures |Revise(rows, id, d, now)| == |rows|
    ensures rows[i].id == id ==> Revise(rows, id, d, now)[i] == Revised(rows[i], d, now)
    ensures rows[i].id != id ==> Revise(rows, id, d, now)[i] == rows[i]
  {
  }

  /** An insert for a provider without a key keeps ids and providers unique. */
  lemma {:induction false} InsertKeepsKeys(rows: seq<ApiKeyRow>, d: KeyData, id: string)
    requires Truthy(d.provider) && Truthy(d.apiKey)
    requires DistinctBy(rows, ApiKeyRowId)
    requires forall i :: 0 <= i < |rows| ==> rows[i].id != id
    requires KeysFor(rows, d.provider.value) == []
    ensures DistinctBy(rows + [NewRow(d, id)], ApiKeyRowId)
    ensures OneKeyPerProvider(rows) ==> OneKeyPerProvider(rows + [NewRow(d, id)])
  {
    var row := NewRow(d, id);
    var provider := d.provider.value;
    AppendKeepsDistinct(rows, row, ApiKeyRowId);
    forall i | 0 <= i < |rows| ensures ApiKeyRowProvider(rows[i]) != ApiKeyRowProvider(row) {
      var other := rows[i];
      assert other.provider == provider ==> other in KeysFor(rows, provider);
    }
    if OneKeyPerProvider(rows) {
      AppendKeepsDistinct(rows, row, ApiKeyRowProvider);
    }
  }

  /** DELETE removes every row with that id and keeps every other row. */
  lemma PurgeRemovesExactly(rows: seq<ApiKeyRow>, id: string, x: ApiKeyRow)
    ensures multiset(Purge(rows, id))[x] == if x.id == id then 0 else multiset(rows)[x]
  {
    FilterMultiplicity(rows, (r: ApiKeyRow) => r.id != id, x);
  }

  /** DELETE keeps ids and providers unique. */
  lemma PurgeKeepsKeys(rows: seq<ApiKeyRow>, id: string)
    requires DistinctBy(rows, ApiKeyRowId)
    ensures DistinctBy(Purge(rows, id), ApiKeyRowId)
    ensures OneKeyPerProvider(rows) ==> OneKeyPerProvider(Purge(rows, id))
  {
    var p := (r: ApiKeyRow) => r.id != id;
    FilterKeepsDistinct(rows, p, ApiKeyRowId);
    if OneKeyPerProvider(rows) {
      FilterKeepsDistinct(rows, p, ApiKeyRowProvider);
    }
  }

  /** TEST_CONNECTION's request to a provider. */
  datatype Probe = Probe(url: string, authorization: Option<string>)

  /** What the probe's `fetch` did: answered with a status, or threw. */
  datatype ProbeOutcome = Answered(status: nat) | Threw

  const OpenAiModelsUrl := "https://api.openai.com/v1/models"
  const GoogleModelsUrl := "https://generativelanguage.googleapis.com/v1beta/models"
  const DeepseekModelsUrl := "https://api.deepseek.com/v1/models"

  /** The provider-specific probe; other providers are not probed. */
  function ProbeFor(row: ApiKeyRow): (p: Option<Probe>)
    ensures p.Some? <==> row.provider == "openai" || row.provider == "google" || row.provider == "deepseek"
    ensures row.provider == "openai" ==>
      p == Some(Probe(TextOr(row.endpoint, OpenAiModelsUrl), Some("Bearer " + row.apiKey)))
    ensures row.provider == "google" ==> p == Some(Probe(GoogleModelsUrl + "?key=" + row.apiKey, None))
    ensures row.provider == "deepseek" ==>
      p == Some(Probe(TextOr(row.endpoint, DeepseekModelsUrl), Some("Bearer " + row.apiKey)))
  {
    if row.provider == "openai" then
      Some(Probe(TextOr(row.endpoint, OpenAiModelsUrl), Some("Bearer " + row.apiKey)))
    else if row.provider == "google" then
      Some(Probe(GoogleModelsUrl + "?key=" + row.apiKey, None))
    else if row.provider == "deepseek" then
      Some(Probe(TextOr(row.endpoint, DeepseekModelsUrl), Some("Bearer " + row.apiKey)))
    else None
  }

  /** `testResult`: the probe answered below 300. */
  predicate Passes(row: ApiKeyRow, probe: Probe -> ProbeOutcome) {
    match ProbeFor(row)
    case None => false
    case Some(request) => probe(request).Answered? && probe(request).status < 300
  }

  /** Only the three probed providers can pass, and a probe that throws fails. */
  lemma PassesOnlyWhenProbed(row: ApiKeyRow, probe: Probe -> ProbeOutcome)
    ensures Passes(row, probe) <==>
      ProbeFor(row).Some? && probe(ProbeFor(row).value).Answered? && probe(ProbeFor(row).value).status < 300
    ensures Passes(row, probe) ==>
      row.provider == "openai" || row.provider == "google" || row.provider == "deepseek"
  {
  }

  /** The key itself is what every probe presents to the provider. */
  lemma ProbeCarriesKey(row: ApiKeyRow)
    requires ProbeFor(row).Some?
    ensures var p := ProbeFor(row).value;
      if row.provider == "google" then p.authorization.None? && p.url[|GoogleModelsUrl| + 5..] == row.apiKey
      else p.authorization == Some("Bearer " + row.apiKey)
  {
    if row.provider == "google" {
      var url := ProbeFor(row).value.url;
      assert url == (GoogleModelsUrl + "?key=") + row.apiKey;
      assert |GoogleModelsUrl + "?key="| == |GoogleModelsUrl| + 5;
    }
  }

  class ApiKeyTable {
    var rows: seq<ApiKeyRow>

    /** `id` is the table's primary key. */
    ghost predicate Valid()
      reads this
    {
      DistinctBy(rows, ApiKeyRowId)
    }

    /** The id the database would give the next inserted row. */
    predicate FreshId(id: string)
      reads this
    {
      forall i :: 0 <= i < |rows| ==> rows[i].id != id
    }

    constructor(initial: seq<ApiKeyRow>)
      requires DistinctBy(initial, ApiKeyRowId)
      ensures Valid() && rows == initial
    {
      rows := initial;
    }

    /** GET_ALL: every row without its key, or the store's error. */
    method GetAll(fault: Option<DbError>) returns (reply: KeyReply)
      ensures WellFormed(reply)
      ensures fault.Some? ==> reply == Refuse(fault.value.message)
      ensures fault.None? ==>
        && reply.status == 200 && reply.body.Listed?
        && |reply.body.keys| == |rows|
        && forall i :: 0 <= i < |rows| ==> reply.body.keys[i] == View(rows[i])
    {
      if fault.Some? {
        reply := Refuse(fault.value.message);
        return;
      }
      reply := KeyReply(200, Listed(seq(|rows|, i requires 0 <= i < |rows| reads this => View(rows[i]))));
    }

    /**
     * SAVE: validate, look the provider's key up with `.maybeSingle()`
     * (first query), then update that row or insert a new one (second query).
     */
    method Save(data: Field<KeyData>, faults: Faults, newId: string, now: string) returns (reply: KeyReply)
      requires Valid() && FreshId(newId)
      modifies this
      ensures Valid() && WellFormed(reply)
      ensures OneKeyPerProvider(old(rows)) ==> OneKeyPerProvider(rows)
      ensures reply.body.Failed? ==> rows == old(rows)
      ensures !SaveDataComplete(data) ==> reply == Refuse(IncompleteMessage)
      ensures SaveDataComplete(data) ==>
        var d := data.value;
        var existing := KeysFor(old(rows), d.provider.value);
        && (faults.first.Some? ==> reply == Refuse(LookupFailedPrefix + faults.first.value.message))
        && (faults.first.None? && |existing| > 1 ==> reply == Refuse(LookupFailedPrefix + NotSingleMessage))
        && (faults.first.None? && |existing| <= 1 && faults.second.Some? ==>
              reply == Refuse(faults.second.value.message))
        && (faults.first.None? && |existing| == 1 && faults.second.None? ==>
              rows == Revise(old(rows), existing[0].id, d, now)
              && reply == KeyReply(200, Saved(View(Revised(existing[0], d, now)))))
        && (faults.first.None? && existing == [] && faults.second.None? ==>
              rows == old(rows) + [NewRow(d, newId)] && reply == KeyReply(200, Saved(View(NewRow(d, newId)))))
      ensures reply.body.Saved? ==>
        && SaveDataComplete(data)
        && exists i :: 0 <= i < |rows| && rows[i].provider == data.value.provider.value
                       && rows[i].apiKey == data.value.apiKey.value
    {
      if !SaveDataComplete(data) {
        reply := Refuse(IncompleteMessage);
        return;
      }
      var d := data.value;
      var found := MaybeSingle(faults.first, KeysFor(rows, d.provider.value));
      if found.Failure? {
        reply := Refuse(LookupFailedPrefix + found.error.message);
        return;
      }
      if faults.second.Some? {
        reply := Refuse(faults.second.value.message);
        return;
      }
      if found.value.Some? {
        var existing := found.value.value;
        assert existing in KeysFor(rows, d.provider.value);
        var k :| 0 <= k < |rows| && rows[k] == existing;
        ReviseKeepsKeys(rows, existing.id, d, now);
        ReviseTouchesOnlyId(rows, existing.id, d, now, k);
        rows := Revise(rows, existing.id, d, now);
        reply := KeyReply(200, Saved(View(Revised(existing, d, now))));
        assert rows[k].provider == d.provider.value && rows[k].apiKey == d.apiKey.value;
      } else {
        var row := NewRow(d, newId);
        InsertKeepsKeys(rows, d, newId);
        rows := rows + [row];
        reply := KeyReply(200, Saved(View(row)));
        assert rows[|rows| - 1] == row;
      }
    }

    /** DELETE: remove the rows whose id is `apiKeyData.id`. */
    method Delete(data: Field<KeyData>, fault: Option<DbError>) returns (reply: KeyReply)
      requires Valid()
      modifies this
      ensures Valid() && WellFormed(reply)
      ensures OneKeyPerProvider(old(rows)) ==> OneKeyPerProvider(rows)
      ensures !data.Given? ==> rows == old(rows) && reply == Refuse(MemberError(data, "id"))
      ensures data.Given? && fault.Some? ==> rows == old(rows) && reply == Refuse(fault.value.message)
      ensures data.Given? && fault.None? ==>
        rows == Purge(old(rows), Interpolate(data.value.id)) && reply == KeyReply(200, Deleted)
    {
      if !data.Given? {
        reply := Refuse(MemberError(data, "id"));
        return;
      }
      if fault.Some? {
        reply := Refuse(fault.value.message);
        return;
      }
      var id := Interpolate(data.value.id);
      PurgeKeepsKeys(rows, id);
      rows := Purge(rows, id);
      reply := KeyReply(200, Deleted);
    }

    /**
     * TEST_CONNECTION: fetch the provider's single row, probe the provider
     * with its key, and answer `{success: testResult}` with status 200.
     */
    method TestConnection(data: Field<KeyData>, fault: Option<DbError>, probe: Probe -> ProbeOutcome)
      returns (reply: KeyReply)
      ensures WellFormed(reply)
      ensures !data.Given? ==> reply == Refuse(MemberError(data, "provider"))
      ensures data.Given? ==>
        var found := Single(fault, KeysFor(rows, Interpolate(data.value.provider)));
        && (found.Failure? ==> reply == Refuse(KeyNotFoundMessage))
        && (found.Success? ==> reply == KeyReply(200, Tested(Passes(found.value, probe))))
    {
      if !data.Given? {
        reply := Refuse(MemberError(data, "provider"));
        return;
      }
      var found := Single(fault, KeysFor(rows, Interpolate(data.value.provider)));
      if found.Failure? {
        reply := Refuse(KeyNotFoundMessage);
        return;
      }
      var key := found.value;
      var testResult := false;
      var request := ProbeFor(key);
      if request.Some? {
        var outcome := probe(request.value);
        if outcome.Answered? {
          testResult := outcome.status < 300;
        }
      }
      reply := KeyReply(200, Tested(testResult));
    }

    /** The whole handler: body checks, then dispatch on `method`. */
    method Handle(body: Body<KeyRequest>, faults: Faults, newId: string, now: string,
                  probe: Probe -> ProbeOutcome) returns (reply: KeyReply)
      requires Valid() && FreshId(newId)
      modifies this
      ensures Valid() && WellFormed(reply)
      ensures OneKeyPerProvider(old(rows)) ==> OneKeyPerProvider(rows)
      ensures body.NoBody? ==> reply == Refuse(EmptyBodyMessage)
      ensures body.NotJson? ==> reply == Refuse(body.syntaxError)
      ensures !body.Parsed? || (body.value.operation != Given("SAVE") && body.value.operation != Given("DELETE"))
        ==> rows == old(rows)
      ensures reply.body.Failed? ==> rows == old(rows)
      ensures body.Parsed? && body.value.operation !in KnownMethods ==> reply == Refuse(UnsupportedMethodMessage)
      ensures body.Parsed? && body.value.operation == Given("GET_ALL") ==>
        && (faults.first.Some? ==> reply == Refuse(faults.first.value.message))
        && (faults.first.None? ==>
              && reply.status == 200 && reply.body.Listed? && |reply.body.keys| == |rows|
              && forall i :: 0 <= i < |rows| ==> reply.body.keys[i] == View(rows[i]))
      ensures body.Parsed? && body.value.operation == Given("SAVE") ==>
        var data := body.value.apiKeyData;
        && (!SaveDataComplete(data) ==> reply == Refuse(IncompleteMessage))
        && (SaveDataComplete(data) ==>
              var d := data.value;
              var existing := KeysFor(old(rows), d.provider.value);
              && (faults.first.Some? ==> reply == Refuse(LookupFailedPrefix + faults.first.value.message))
              && (faults.first.None? && |existing| > 1 ==> reply == Refuse(LookupFailedPrefix + NotSingleMessage))
              && (faults.first.None? && |existing| <= 1 && faults.second.Some? ==>
                    reply == Refuse(faults.second.value.message))
              && (faults.first.None? && |existing| == 1 && faults.second.None? ==>
                    rows == Revise(old(rows), existing[0].id, d, now)
                    && reply == KeyReply(200, Saved(View(Revised(existing[0], d, now)))))
              && (faults.first.None? && existing == [] && faults.second.None? ==>
                    rows == old(rows) + [NewRow(d, newId)] && reply == KeyReply(200, Saved(View(NewRow(d, newId))))))
      ensures body.Parsed? && body.value.operation == Given("DELETE") ==>
        var data := body.value.apiKeyData;
        && (!data.Given? ==> reply == Refuse(MemberError(data, "id")))
        && (data.Given? && faults.first.Some? ==> reply == Refuse(faults.first.value.message))
        && (data.Given? && faults.first.None? ==>
              rows == Purge(old(rows), Interpolate(data.value.id)) && reply == KeyReply(200, Deleted))
      ensures body.Parsed? && body.value.operation == Given("TEST_CONNECTION") ==>
        var data := body.value.apiKeyData;
        && (!data.Given? ==> reply == Refuse(MemberError(data, "provider")))
        && (data.Given? ==>
              var found := Single(faults.first, KeysFor(rows, Interpolate(data.value.provider)));
              && (found.Failure? ==> reply == Refuse(KeyNotFoundMessage))
              && (found.Success? ==> reply == KeyReply(200, Tested(Passes(found.value, probe)))))
    {
      if body.NoBody? {
        reply := Refuse(EmptyBodyMessage);
        return;
      }
      if body.NotJson? {
        reply := Refuse(body.syntaxError);
        return;
      }
      var req := body.value;
      if req.operation == Given("GET_ALL") {
        reply := GetAll(faults.first);
      } else if req.operation == Given("SAVE") {
        reply := Save(req.apiKeyData, faults, newId, now);
      } else if req.operation == Given("DELETE") {
        reply := Delete(req.apiKeyData, faults.first);
      } else if req.operation == Given("TEST_CONNECTION") {
        reply := TestConnection(req.apiKeyData, faults.first, probe);
      } else {
        reply := Refuse(UnsupportedMethodMessage);
      }
    }
  }

  const KnownMethods: set<Field<string>> :=
    {Given("GET_ALL"), Given("SAVE"), Given("DELETE"), Given("TEST_CONNECTION")}
}
