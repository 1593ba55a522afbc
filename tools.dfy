// Stored HTTP tools: their definition for the assistant, the request they
// send, and how a parameter names itself.

module Tools {
  import opened Wrappers
  import opened PyValues
  import opened Http
  import opened FunctionSchemas

  /** A tool parameter; `typeCode` is the stored choice (`s`, `i` or `o`). */
  datatype Parameter = Parameter(toolName: string, name: string, typeCode: string, description: string, required: bool)

  /** `get_type_display()`: the label of a known choice, else the stored
    * value itself. */
  function TypeDisplay(code: string): string {
    if code == "s" then "string"
    else if code == "i" then "integer"
    else if code == "o" then "object"
    else code
  }

  /** `Parameter.__str__`: `<tool name>::<parameter name>`. */
  function ParameterLabel(p: Parameter): (r: string)
    ensures StartsWith(r, p.toolName + "::") && EndsWith(r, p.name)
    ensures |r| == |p.toolName| + 2 + |p.name|
  {
    var r := p.toolName + "::" + p.name;
    assert r[..|p.toolName + "::"|] == p.toolName + "::";
    assert r[|r| - |p.name|..] == p.name;
    r
  }

  function RowOf(p: Parameter): PropertyRow {
    PropertyRow(p.name, PropertySpec(TypeDisplay(p.typeCode), StrVal(p.description)), p.required)
  }

  function RowsOf(params: seq<Parameter>): (r: seq<PropertyRow>)
    ensures |r| == |params| && forall i :: 0 <= i < |params| ==> r[i] == RowOf(params[i])
  {
    if params == [] then [] else RowsOf(params[..|params| - 1]) + [RowOf(params[|params| - 1])]
  }

  /** The definition `get_description` builds. */
  function DescriptionOf(name: string, description: string, params: seq<Parameter>): Py {
    var rows := RowsOf(params);
    DictVal([Entry("name", StrVal(name)), Entry("description", StrVal(description)), Entry("strict", BoolVal(true)),
             Entry("parameters", ObjectSchema(PropertiesOf(rows), RequiredOf(rows)))])
  }

  /** `Tool.get_description`: the loop over the tool's parameters. */
  method GetDescription(name: string, description: string, params: seq<Parameter>) returns (r: Py)
    ensures r == DescriptionOf(name, description, params)
  {
    var properties: seq<Entry> := [];
    var required: seq<string> := [];
    var i := 0;
    while i < |params|
      invariant 0 <= i <= |params|
      invariant properties == PropertiesOf(RowsOf(params[..i]))
      invariant required == RequiredOf(RowsOf(params[..i]))
    {
      var p := params[i];
      assert params[..i + 1][..i] == params[..i];
      RowsSnoc(RowsOf(params[..i]), RowOf(p));
      properties := DictSet(properties, p.name, PropertySpec(TypeDisplay(p.typeCode), StrVal(p.description)));
      if p.required {
        required := required + [p.name];
      }
      i := i + 1;
    }
    assert params[..i] == params;
    r := DictVal([Entry("name", StrVal(name)), Entry("description", StrVal(description)), Entry("strict", BoolVal(true)),
                  Entry("parameters", ObjectSchema(properties, required))]);
  }

  /** The definition always names the tool, is strict, and describes an
    * object. */
  lemma DescriptionShape(name: string, description: string, params: seq<Parameter>)
    ensures var d := DescriptionOf(name, description, params).entries;
      Keys(d) == ["name", "description", "strict", "parameters"] &&
      d[0].val == StrVal(name) && d[2].val == BoolVal(true) &&
      d[3].val.entries[0] == Entry("type", StrVal("object"))
  {
    var d := DescriptionOf(name, description, params).entries;
    assert Keys(d)[3] == "parameters";
  }

  /** The properties are keyed by exactly the parameters' names. */
  lemma ParametersListed(params: seq<Parameter>, k: string)
    ensures HasKey(PropertiesOf(RowsOf(params)), k) <==> exists i :: 0 <= i < |params| && params[i].name == k
  {
    var rows := RowsOf(params);
    PropertiesKeys(rows, k);
    if exists i :: 0 <= i < |params| && params[i].name == k {
      var i :| 0 <= i < |params| && params[i].name == k;
      assert rows[i].name == k;
    }
  }

  /** `required` lists exactly the required parameters. */
  lemma RequiredParameters(params: seq<Parameter>, x: string)
    ensures x in RequiredOf(RowsOf(params)) <==> exists i :: 0 <= i < |params| && params[i].required && params[i].name == x
  {
    var rows := RowsOf(params);
    RequiredExactly(rows);
    if exists i :: 0 <= i < |params| && params[i].required && params[i].name == x {
      var i :| 0 <= i < |params| && params[i].required && params[i].name == x;
      assert rows[i].required && rows[i].name == x;
    }
  }

  /** A parameter's property is its type label and description, taken from
    * the last parameter of that name. */
  lemma PropertyOfParameter(params: seq<Parameter>, i: nat)
    requires i < |params|
    requires forall j :: i < j < |params| ==> params[j].name != params[i].name
    ensures Lookup(PropertiesOf(RowsOf(params)), params[i].name)
         == Some(PropertySpec(TypeDisplay(params[i].typeCode), StrVal(params[i].description)))
  {
    PropertiesLastWins(RowsOf(params), i);
  }

  /** What `requests` does with the request: a decoded JSON answer, a
    * `RequestException` (which covers an error status), or another
    * exception. */
  datatype RequestsOutcome = JsonAnswer(value: Py) | RequestException(message: string) | OtherException(exceptionType: string, message: string)

  /** `Tool.execute`: always to the stored endpoint, with the arguments as
    * query parameters for GET and as a JSON body otherwise; a request
    * failure is re-raised as a `RuntimeError`. */
  method Execute(endpoint: string, httpMethod: string, bearerToken: Option<string>, kwargs: seq<Entry>,
                 send: HttpRequest -> RequestsOutcome) returns (r: CallResult, sent: HttpRequest)
    ensures sent.url == StrVal(endpoint) && sent.httpMethod == httpMethod
    ensures bearerToken.Some? && bearerToken.value != "" <==> sent.headers != []
    ensures sent.headers != [] ==> sent.headers == [Header("Authorization", "Bearer " + bearerToken.value)]
    ensures httpMethod == "GET" ==> sent.params == Some(kwargs) && sent.json.None?
    ensures httpMethod != "GET" ==> sent.json == Some(kwargs) && sent.params.None?
    ensures send(sent).JsonAnswer? ==> r == Returned(send(sent).value)
    ensures send(sent).RequestException? ==> r == Raised("RuntimeError", "API request failed: " + send(sent).message)
    ensures send(sent).OtherException? ==> r == Raised(send(sent).exceptionType, send(sent).message)
  {
    var headers := BuildHeaders(bearerToken);
    sent := ArgumentsPlacement(httpMethod, StrVal(endpoint), headers, kwargs);
    match send(sent) {
      case JsonAnswer(value) => r := Returned(value);
      case RequestException(message) => r := Raised("RuntimeError", "API request failed: " + message);
      case OtherException(t, message) => r := Raised(t, message);
    }
  }
}
