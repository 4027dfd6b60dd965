/**
 * The DynamoDB helpers of backend/src/shared/dynamo.ts: the `SET` update
 * expression built by `updateItem` and the query parameters and page token of
 * `queryInvoices`. The document client is a class that records the commands it
 * is sent; what DynamoDB answers to a query is a function of the parameters.
 */
module Dynamo {
  import opened Wrappers
  import opened Strings
  import opened Json

  // ---------------------------------------------------------------------------
  // updateItem
  // ---------------------------------------------------------------------------

  datatype TableKey = TableKey(messageId: string, attachmentKey: string)

  datatype UpdateCommand = UpdateCommand(
    tableName: string, key: TableKey, updateExpression: string,
    names: map<string, string>, values: map<string, Value>)

  /** `{prefix}{i}`, the placeholder of the `i`-th entry. */
  function Placeholder(prefix: string, i: nat): string { prefix + NatToString(i) }

  /** `#k{i}`, the attribute-name placeholder of the `i`-th entry. */
  function NameKey(i: nat): string { Placeholder("#k", i) }

  /** `:v{i}`, the attribute-value placeholder of the `i`-th entry. */
  function ValueKey(i: nat): string { Placeholder(":v", i) }

  /** `#k{i} = :v{i}` */
  function Part(i: nat): string { NameKey(i) + " = " + ValueKey(i) }

  /** The parts of the first `n` entries, in entry order. */
  function Parts(n: nat): (ps: seq<string>)
    ensures |ps| == n && forall i :: 0 <= i < n ==> ps[i] == Part(i)
  {
    seq(n, i requires 0 <= i < n => Part(i))
  }

  lemma PlaceholderInjective(prefix: string, i: nat, j: nat)
    ensures Placeholder(prefix, i) == Placeholder(prefix, j) <==> i == j
  {
    if Placeholder(prefix, i) == Placeholder(prefix, j) {
      assert NatToString(i) == Placeholder(prefix, i)[|prefix|..];
      assert NatToString(j) == Placeholder(prefix, j)[|prefix|..];
      NatToStringInjective(i, j);
    }
  }

  /** Placeholders of different entries differ, and a name placeholder is never a value placeholder. */
  lemma PlaceholdersDistinct(i: nat, j: nat)
    ensures NameKey(i) == NameKey(j) <==> i == j
    ensures ValueKey(i) == ValueKey(j) <==> i == j
    ensures NameKey(i) != ValueKey(j)
  {
    assert NameKey(i)[0] != ValueKey(j)[0];
    PlaceholderInjective("#k", i, j);
    PlaceholderInjective(":v", i, j);
  }

  /** The placeholders of the first `n` entries. */
  function KeysBelow(prefix: string, n: nat): set<string> {
    if n == 0 then {} else KeysBelow(prefix, n - 1) + {Placeholder(prefix, n - 1)}
  }

  lemma {:induction false} KeysBelowHas(prefix: string, n: nat, i: nat)
    ensures Placeholder(prefix, i) in KeysBelow(prefix, n) <==> i < n
  {
    if n > 0 {
      KeysBelowHas(prefix, n - 1, i);
      PlaceholderInjective(prefix, i, n - 1);
    }
  }

  /** `n` placeholders for `n` entries. */
  lemma {:induction false} KeysBelowCount(prefix: string, n: nat)
    ensures |KeysBelow(prefix, n)| == n
  {
    if n > 0 {
      KeysBelowCount(prefix, n - 1);
      KeysBelowHas(prefix, n - 1, n - 1);
      assert KeysBelow(prefix, n) == KeysBelow(prefix, n - 1) + {Placeholder(prefix, n - 1)};
    }
  }

  /** Nothing but placeholders of entries. */
  lemma {:induction false} KeysBelowOnly(prefix: string, n: nat, k: string)
    requires k in KeysBelow(prefix, n)
    ensures exists i :: 0 <= i < n && k == Placeholder(prefix, i)
  {
    if k != Placeholder(prefix, n - 1) {
      KeysBelowOnly(prefix, n - 1, k);
    }
  }

  /** A map after binding the first `n` placeholders to `vs[0]`, ..., `vs[n - 1]`, one entry at a time. */
  function Bind<V>(prefix: string, vs: seq<V>, n: nat): map<string, V>
    requires n <= |vs|
  {
    if n == 0 then map[] else Bind(prefix, vs, n - 1)[Placeholder(prefix, n - 1) := vs[n - 1]]
  }

  /** The bound map holds exactly the first `n` placeholders, the `i`-th bound to `vs[i]`. */
  lemma {:induction false} BindContents<V>(prefix: string, vs: seq<V>, n: nat)
    requires n <= |vs|
    ensures Bind(prefix, vs, n).Keys == KeysBelow(prefix, n)
    ensures forall i :: 0 <= i < n ==> Placeholder(prefix, i) in Bind(prefix, vs, n) && Bind(prefix, vs, n)[Placeholder(prefix, i)] == vs[i]
  {
    if n > 0 {
      BindContents(prefix, vs, n - 1);
      forall i | 0 <= i < n
        ensures Placeholder(prefix, i) in Bind(prefix, vs, n) && Bind(prefix, vs, n)[Placeholder(prefix, i)] == vs[i]
      {
        PlaceholderInjective(prefix, i, n - 1);
      }
    }
  }

  /** The attribute names of the entries, in entry order. */
  function Attributes(updates: seq<(string, Value)>): (r: seq<string>)
    ensures |r| == |updates| && forall i :: 0 <= i < |updates| ==> r[i] == updates[i].0
  {
    seq(|updates|, i requires 0 <= i < |updates| => updates[i].0)
  }

  /** The new values of the entries, in entry order. */
  function NewValues(updates: seq<(string, Value)>): (r: seq<Value>)
    ensures |r| == |updates| && forall i :: 0 <= i < |updates| ==> r[i] == updates[i].1
  {
    seq(|updates|, i requires 0 <= i < |updates| => updates[i].1)
  }

  /** `expressionParts` after the first `n` entries. */
  function PartsUpTo(n: nat): seq<string> {
    if n == 0 then [] else PartsUpTo(n - 1) + [Part(n - 1)]
  }

  /** The parts are the entries' `#k{i} = :v{i}`, in entry order. */
  lemma {:induction false} PartsUpToAre(n: nat)
    ensures PartsUpTo(n) == Parts(n)
  {
    if n > 0 {
      PartsUpToAre(n - 1);
      assert Parts(n) == Parts(n - 1) + [Part(n - 1)];
    }
  }

  /**
   * The `forEach` of `updateItem`: entry `i` (in `Object.entries` order) names
   * its attribute `#k{i}` and its value `:v{i}`; the parts join with ", " after
   * "SET ". The caller's key is passed through; `names` and `values` hold one
   * placeholder per entry and nothing else.
   */
  method BuildUpdate(tableName: string, key: TableKey, updates: seq<(string, Value)>) returns (cmd: UpdateCommand)
    ensures cmd.tableName == tableName && cmd.key == key
    ensures cmd.updateExpression == "SET " + Join(Parts(|updates|), ", ")
    ensures cmd.names.Keys == KeysBelow("#k", |updates|) && cmd.values.Keys == KeysBelow(":v", |updates|)
    ensures forall i :: 0 <= i < |updates| ==> NameKey(i) in cmd.names && cmd.names[NameKey(i)] == updates[i].0
    ensures forall i :: 0 <= i < |updates| ==> ValueKey(i) in cmd.values && cmd.values[ValueKey(i)] == updates[i].1
    ensures |cmd.names| == |cmd.values| == |updates|
  {
    var parts: seq<string> := [];
    var names: map<string, string> := map[];
    var values: map<string, Value> := map[];
    for i := 0 to |updates|
      invariant parts == PartsUpTo(i)
      invariant names == Bind("#k", Attributes(updates), i)
      invariant values == Bind(":v", NewValues(updates), i)
    {
      var (k, v) := updates[i];
      names := names[NameKey(i) := k];
      values := values[ValueKey(i) := v];
      parts := parts + [Part(i)];
    }
    PartsUpToAre(|updates|);
    BindContents("#k", Attributes(updates), |updates|);
    BindContents(":v", NewValues(updates), |updates|);
    KeysBelowCount("#k", |updates|);
    KeysBelowCount(":v", |updates|);
    cmd := UpdateCommand(tableName, key, "SET " + Join(parts, ", "), names, values);
  }

  /** The expression lists the entries' parts in entry order: the first after "SET ", each later one after ", ". */
  lemma ExpressionOrder(n: nat)
    requires n >= 1
    ensures Join(Parts(n), ", ") == Join(Parts(n - 1), ", ") + (if n == 1 then "" else ", ") + Part(n - 1)
  {
    JoinSnoc(Parts(n - 1), Part(n - 1), ", ");
    assert Parts(n) == Parts(n - 1) + [Part(n - 1)];
  }

  lemma {:induction false} JoinSnoc(parts: seq<string>, last: string, sep: string)
    ensures Join(parts + [last], sep) == Join(parts, sep) + (if parts == [] then "" else sep) + last
    decreases |parts|
  {
    if parts == [] {
      assert [] + [last] == [last];
      assert Join([last], sep) == last;
    } else {
      assert parts + [last] == [parts[0]] + (parts[1..] + [last]);
      JoinCons(parts[0], parts[1..] + [last], sep);
      JoinSnoc(parts[1..], last, sep);
      if |parts| == 1 {
        assert parts[1..] == [];
        assert Join(parts, sep) == parts[0];
      } else {
        assert parts == [parts[0]] + parts[1..];
        JoinCons(parts[0], parts[1..], sep);
      }
    }
  }

  /**
   * The document client. Every command sent is appended to `sent`; `reject`
   * says, for the n-th command, whether DynamoDB refuses it and with what
   * message (the exception `docClient.send` throws).
   */
  class DocClient {
    var sent: seq<UpdateCommand>
    const reject: (nat, UpdateCommand) -> Option<string>

    constructor (reject: (nat, UpdateCommand) -> Option<string>)
      ensures sent == [] && this.reject == reject
    {
      sent := [];
      this.reject := reject;
    }

    method Send(cmd: UpdateCommand) returns (err: Option<string>)
      modifies this
      ensures sent == old(sent) + [cmd]
      ensures err == reject(|old(sent)|, cmd)
    {
      err := reject(|sent|, cmd);
      sent := sent + [cmd];
    }
  }

  /**
   * `updateItem`: one `UpdateCommand` is sent, and it is the one `BuildUpdate`
   * describes; a refused command is the exception that escapes.
   */
  method UpdateItem(client: DocClient, tableName: string, key: TableKey, updates: seq<(string, Value)>)
    returns (thrown: Option<string>)
    modifies client
    ensures |client.sent| == |old(client.sent)| + 1 && client.sent[..|old(client.sent)|] == old(client.sent)
    ensures var cmd := client.sent[|client.sent| - 1];
      && cmd.key == key && cmd.tableName == tableName
      && cmd.updateExpression == "SET " + Join(Parts(|updates|), ", ")
      && cmd.names.Keys == KeysBelow("#k", |updates|) && cmd.values.Keys == KeysBelow(":v", |updates|)
      && (forall i :: 0 <= i < |updates| ==> NameKey(i) in cmd.names && cmd.names[NameKey(i)] == updates[i].0)
      && (forall i :: 0 <= i < |updates| ==> ValueKey(i) in cmd.values && cmd.values[ValueKey(i)] == updates[i].1)
      && |cmd.names| == |cmd.values| == |updates|
    ensures thrown == client.reject(|old(client.sent)|, client.sent[|client.sent| - 1])
  {
    var cmd := BuildUpdate(tableName, key, updates);
    thrown := client.Send(cmd);
  }

  // ---------------------------------------------------------------------------
  // queryInvoices
  // ---------------------------------------------------------------------------

  datatype QueryParams = QueryParams(
    tableName: string, indexName: string, keyCondition: string,
    attributeValues: map<string, string>, limit: real, scanForward: bool,
    exclusiveStartKey: Option<Value>)

  /** What DynamoDB answers: `Items` (absent is `None`) and `LastEvaluatedKey` (absent is `Undef`). */
  datatype QueryResult = QueryResult(items: Option<seq<Value>>, lastEvaluatedKey: Value)

  datatype Page = Page(items: seq<Value>, nextToken: Option<string>)

  /** The fixed parameters, before the conditional start key. */
  function BaseParams(tableName: string, limit: real): QueryParams {
    QueryParams(tableName, "gsi1", "gsi1pk = :pk", map[":pk" := "INVOICE"], limit, false, None)
  }

  /**
   * The parameters `queryInvoices` sends. `decodeToken` is
   * `JSON.parse(Buffer.from(token, "base64").toString("utf-8"))`; its `Err` is
   * the exception that escapes.
   */
  function QueryParamsFor(tableName: string, limit: real, nextToken: Option<string>, decodeToken: string -> Result<Value>): Result<QueryParams> {
    if nextToken.Some? && nextToken.value != "" then
      match decodeToken(nextToken.value)
      case Err(m) => Err(m)
      case Ok(k) => Ok(BaseParams(tableName, limit).(exclusiveStartKey := Some(k)))
    else Ok(BaseParams(tableName, limit))
  }

  /** Index, key condition, order and limit never depend on the token; the start key is set only for a non-empty token. */
  lemma QueryParamsShape(tableName: string, limit: real, nextToken: Option<string>, decodeToken: string -> Result<Value>)
    ensures var r := QueryParamsFor(tableName, limit, nextToken, decodeToken);
      && (r.Ok? ==>
            && r.value.tableName == tableName && r.value.indexName == "gsi1"
            && r.value.keyCondition == "gsi1pk = :pk" && r.value.attributeValues == map[":pk" := "INVOICE"]
            && r.value.limit == limit && !r.value.scanForward
            && (r.value.exclusiveStartKey.Some? <==> nextToken.Some? && nextToken.value != ""))
      && (r.Err? <==> nextToken.Some? && nextToken.value != "" && decodeToken(nextToken.value).Err?)
  {
  }

  /**
   * The page returned: `Items ?? []` and a token when `LastEvaluatedKey` is
   * present. `encodeToken` is the base64 of `JSON.stringify`.
   */
  function PageOf(res: QueryResult, encodeToken: Value -> string): (p: Page)
    ensures p.nextToken.None? <==> !Truthy(res.lastEvaluatedKey)
    ensures res.items.None? ==> p.items == []
    ensures res.items.Some? ==> p.items == res.items.value
  {
    Page(res.items.GetOr([]), if Truthy(res.lastEvaluatedKey) then Some(encodeToken(res.lastEvaluatedKey)) else None)
  }

  /**
   * Paging resumes where the last page stopped: when the token codec
   * round-trips, the token of one page makes the next query start at that
   * page's `LastEvaluatedKey`.
   */
  lemma TokenResumes(tableName: string, limit: real, res: QueryResult, encodeToken: Value -> string, decodeToken: string -> Result<Value>)
    requires Truthy(res.lastEvaluatedKey)
    requires encodeToken(res.lastEvaluatedKey) != ""
    requires decodeToken(encodeToken(res.lastEvaluatedKey)) == Ok(res.lastEvaluatedKey)
    ensures QueryParamsFor(tableName, limit, PageOf(res, encodeToken).nextToken, decodeToken)
         == Ok(BaseParams(tableName, limit).(exclusiveStartKey := Some(res.lastEvaluatedKey)))
  {
  }

  /**
   * The table's query side. Every parameter set sent is appended to
   * `queries`; `answer` gives, for the n-th query, the result DynamoDB
   * returns or the exception `docClient.send` throws.
   */
  class QueryClient {
    var queries: seq<QueryParams>
    const answer: (nat, QueryParams) -> Result<QueryResult>

    constructor (answer: (nat, QueryParams) -> Result<QueryResult>)
      ensures queries == [] && this.answer == answer
    {
      queries := [];
      this.answer := answer;
    }

    method Query(params: QueryParams) returns (res: Result<QueryResult>)
      modifies this
      ensures queries == old(queries) + [params]
      ensures res == answer(|old(queries)|, params)
    {
      res := answer(|queries|, params);
      queries := queries + [params];
    }
  }

  /**
   * `queryInvoices`: the parameters are built, the start key set only for a
   * token; a token that does not decode throws before any query, and a
   * refused query throws its own exception.
   */
  method QueryInvoices(client: QueryClient, tableName: string, limit: real, nextToken: Option<string>,
                       decodeToken: string -> Result<Value>, encodeToken: Value -> string)
    returns (r: Result<Page>)
    modifies client
    ensures var params := QueryParamsFor(tableName, limit, nextToken, decodeToken);
      && (params.Err? ==> client.queries == old(client.queries) && r == Err(params.message))
      && (params.Ok? ==>
            var res := client.answer(|old(client.queries)|, params.value);
            && client.queries == old(client.queries) + [params.value]
            && (res.Err? ==> r == Err(res.message))
            && (res.Ok? ==> r == Ok(PageOf(res.value, encodeToken))))
  {
    var params := BaseParams(tableName, limit);
    if nextToken.Some? && nextToken.value != "" {
      var start := decodeToken(nextToken.value);
      if start.Err? {
        return Err(start.message);
      }
      params := params.(exclusiveStartKey := Some(start.value));
    }
    var res := client.Query(params);
    if res.Err? {
      return Err(res.message);
    }
    var token := if Truthy(res.value.lastEvaluatedKey) then Some(encodeToken(res.value.lastEvaluatedKey)) else None;
    r := Ok(Page(res.value.items.GetOr([]), token));
  }
}
