// The JSON-schema object both tool definitions build: `properties` filled
// by name and `required` appended to, one parameter at a time.

module FunctionSchemas {
  import opened Wrappers
  import opened PyValues

  /** One parameter as the loop sees it: its name, its property (type and
    * description) and whether it goes in `required`. */
  datatype PropertyRow = PropertyRow(name: string, spec: Py, required: bool)

  /** `{"type": <type>, "description": <description>}`. */
  function PropertySpec(typeName: string, description: Py): Py {
    DictVal([Entry("type", StrVal(typeName)), Entry("description", description)])
  }

  /** `properties` after the rows: each row sets its name, so a repeated
    * name keeps its first position and takes its last row's property. */
  function PropertiesOf(rows: seq<PropertyRow>): seq<Entry> {
    if rows == [] then []
    else DictSet(PropertiesOf(rows[..|rows| - 1]), rows[|rows| - 1].name, rows[|rows| - 1].spec)
  }

  /** `required` after the rows. */
  function RequiredOf(rows: seq<PropertyRow>): seq<string> {
    if rows == [] then []
    else RequiredOf(rows[..|rows| - 1]) + (if rows[|rows| - 1].required then [rows[|rows| - 1].name] else [])
  }

  function StrList(xs: seq<string>): (r: seq<Py>)
    ensures |r| == |xs| && forall i :: 0 <= i < |xs| ==> r[i] == StrVal(xs[i])
  {
    if xs == [] then [] else [StrVal(xs[0])] + StrList(xs[1..])
  }

  /** `{"type": "object", "properties": {…}, "required": […]}`. */
  function ObjectSchema(properties: seq<Entry>, required: seq<string>): Py {
    DictVal([Entry("type", StrVal("object")), Entry("properties", DictVal(properties)), Entry("required", ListVal(StrList(required)))])
  }

  /** One more row: its name set in `properties`, and appended to
    * `required` when it is required. */
  lemma RowsSnoc(rows: seq<PropertyRow>, r: PropertyRow)
    ensures PropertiesOf(rows + [r]) == DictSet(PropertiesOf(rows), r.name, r.spec)
    ensures RequiredOf(rows + [r]) == RequiredOf(rows) + (if r.required then [r.name] else [])
  {
    assert (rows + [r])[..|rows|] == rows;
  }

  /** The properties have one key per distinct parameter name, and no
    * other key. */
  lemma {:induction false} PropertiesKeys(rows: seq<PropertyRow>, k: string)
    ensures HasKey(PropertiesOf(rows), k) <==> exists i :: 0 <= i < |rows| && rows[i].name == k
  {
    if rows != [] {
      var init := rows[..|rows| - 1];
      var last := rows[|rows| - 1];
      PropertiesKeys(init, k);
      DictSetHasKey(PropertiesOf(init), last.name, last.spec, k);
      if (exists i :: 0 <= i < |init| && init[i].name == k) {
        var i :| 0 <= i < |init| && init[i].name == k;
        assert rows[i].name == k;
      }
      if (exists i :: 0 <= i < |rows| && rows[i].name == k) && last.name != k {
        var i :| 0 <= i < |rows| && rows[i].name == k;
        assert init[i].name == k;
      }
    }
  }

  /** No key of the properties occurs twice. */
  lemma {:induction false} PropertiesUnique(rows: seq<PropertyRow>)
    ensures UniqueKeys(PropertiesOf(rows))
  {
    if rows != [] {
      var init := rows[..|rows| - 1];
      PropertiesUnique(init);
      DictSetUnique(PropertiesOf(init), rows[|rows| - 1].name, rows[|rows| - 1].spec);
    }
  }

  /** A parameter's property is the one of the last row with its name. */
  lemma {:induction false} PropertiesLastWins(rows: seq<PropertyRow>, i: nat)
    requires i < |rows|
    requires forall j :: i < j < |rows| ==> rows[j].name != rows[i].name
    ensures Lookup(PropertiesOf(rows), rows[i].name) == Some(rows[i].spec)
  {
    var init := rows[..|rows| - 1];
    var last := rows[|rows| - 1];
    DictSetLookup(PropertiesOf(init), last.name, last.spec, rows[i].name);
    if i < |rows| - 1 {
      assert init[i] == rows[i];
      PropertiesLastWins(init, i);
    }
  }

  /** `required` is exactly the names of the required rows, in row order. */
  lemma {:induction false} RequiredExactly(rows: seq<PropertyRow>)
    ensures forall x :: x in RequiredOf(rows) <==> exists i :: 0 <= i < |rows| && rows[i].required && rows[i].name == x
    ensures |RequiredOf(rows)| <= |rows|
  {
    if rows != [] {
      var init := rows[..|rows| - 1];
      RequiredExactly(init);
      forall x
        ensures x in RequiredOf(rows) <==> exists i :: 0 <= i < |rows| && rows[i].required && rows[i].name == x
      {
        if x in RequiredOf(init) {
          var i :| 0 <= i < |init| && init[i].required && init[i].name == x;
          assert rows[i] == init[i];
        }
        if exists i :: 0 <= i < |rows| && rows[i].required && rows[i].name == x {
          var i :| 0 <= i < |rows| && rows[i].required && rows[i].name == x;
          if i < |init| {
            assert init[i] == rows[i];
          }
        }
      }
    }
  }
}
