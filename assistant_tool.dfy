// Python-class tools: running one, and deriving its definition from the
// class name, its docstring and the signature of its constructor.

module AssistantTools {
  import opened Wrappers
  import opened PyValues
  import opened FunctionSchemas

  /** What the tool's `main` does. */
  datatype MainOutcome = MainReturned(value: Py) | MainRaised(message: string)

  /** `AssistantTool.execute`: `{'Error': str(e)}` when `main` raises and
    * `None` otherwise; what `main` returns is dropped. */
  function Execute(outcome: MainOutcome): (r: Py)
    ensures r == NoneVal <==> outcome.MainReturned?
    ensures outcome.MainRaised? ==> r.DictVal? && r.entries == [Entry("Error", StrVal(outcome.message))]
  {
    match outcome
    case MainReturned(_) => NoneVal
    case MainRaised(message) => DictVal([Entry("Error", StrVal(message))])
  }

  /** A parameter's annotation: none, a string, a class (its `__name__`),
    * or an object without `__name__`, such as the union `int | None`. */
  datatype Annotation = NoAnnotation | StrAnnotation(text: string) | ClassAnnotation(className: string) | NamelessAnnotation

  /** One parameter of the constructor's signature, in signature order. */
  datatype SigParam = SigParam(name: string, annotation: Annotation, hasDefault: bool)

  /** The parameter's type name: "string" without an annotation, the text
    * of a string annotation, the class name for a class, and the
    * `AttributeError` of reading `__name__` for any other object. */
  function TypeName(a: Annotation): (r: Result<string, string>)
    ensures r.Failure? <==> a.NamelessAnnotation?
    ensures r.Failure? ==> r.error == "AttributeError"
    ensures a.NoAnnotation? ==> r == Success("string")
    ensures a.StrAnnotation? ==> r == Success(a.text)
    ensures a.ClassAnnotation? ==> r == Success(a.className)
  {
    match a
    case NoAnnotation => Success("string")
    case StrAnnotation(t) => Success(t)
    case ClassAnnotation(n) => Success(n)
    case NamelessAnnotation => Failure("AttributeError")
  }

  /** The type name that goes into the schema; only used for annotations
    * that have one. */
  function TypeLabel(a: Annotation): string {
    match TypeName(a)
    case Success(t) => t
    case Failure(_) => ""
  }

  /** `param_descriptions.get(name, "")`; a documented parameter without a
    * description gives `None`. */
  function DescriptionFor(docs: map<string, Option<string>>, name: string): Py {
    if name in docs then (if docs[name].Some? then StrVal(docs[name].value) else NoneVal) else StrVal("")
  }

  function RowOf(p: SigParam, docs: map<string, Option<string>>): PropertyRow {
    PropertyRow(p.name, PropertySpec(TypeLabel(p.annotation), DescriptionFor(docs, p.name)), !p.hasDefault)
  }

  /** The rows of the parameters other than `self`. */
  function RowsOf(sig: seq<SigParam>, docs: map<string, Option<string>>): (r: seq<PropertyRow>)
    ensures |r| <= |sig|
  {
    if sig == [] then []
    else RowsOf(sig[..|sig| - 1], docs)
         + (if sig[|sig| - 1].name == "self" then [] else [RowOf(sig[|sig| - 1], docs)])
  }

  predicate HasNonSelf(sig: seq<SigParam>) {
    exists i :: 0 <= i < |sig| && sig[i].name != "self"
  }

  /** Some parameter other than `self` has an annotation without `__name__`. */
  predicate HasNameless(sig: seq<SigParam>) {
    exists i :: 0 <= i < |sig| && sig[i].name != "self" && sig[i].annotation.NamelessAnnotation?
  }

  /** The definition, or the `UnboundLocalError` raised when the constructor
    * has no docstring (so `param_descriptions` was never bound) and a
    * parameter other than `self` is reached, or else the `AttributeError`
    * raised when such a parameter's annotation has no `__name__`. */
  function DefinitionOf(className: string, classDoc: Option<string>, docs: Option<map<string, Option<string>>>,
                        sig: seq<SigParam>): Result<Py, string>
  {
    if docs.None? && HasNonSelf(sig) then Failure("UnboundLocalError")
    else if HasNameless(sig) then Failure("AttributeError")
    else
      var rows := RowsOf(sig, docs.GetOr(map[]));
      Success(DictVal([Entry("name", StrVal(className)),
                       Entry("description", if classDoc.Some? then StrVal(classDoc.value) else NoneVal),
                       Entry("parameters", ObjectSchema(PropertiesOf(rows), RequiredOf(rows)))]))
  }

  lemma RowsOfStep(sig: seq<SigParam>, i: nat, docs: map<string, Option<string>>)
    requires i < |sig|
    ensures RowsOf(sig[..i + 1], docs) == RowsOf(sig[..i], docs) + (if sig[i].name == "self" then [] else [RowOf(sig[i], docs)])
  {
    assert sig[..i + 1][..i] == sig[..i];
  }

  lemma NonSelfStep(sig: seq<SigParam>, i: nat)
    requires i < |sig|
    ensures HasNonSelf(sig[..i + 1]) <==> HasNonSelf(sig[..i]) || sig[i].name != "self"
  {
    var a, b := sig[..i], sig[..i + 1];
    if HasNonSelf(b) {
      var j :| 0 <= j < |b| && b[j].name != "self";
      if j < i {
        assert a[j] == b[j];
      }
    }
    if HasNonSelf(a) {
      var j :| 0 <= j < |a| && a[j].name != "self";
      assert b[j] == a[j];
    }
    if sig[i].name != "self" {
      assert b[i] == sig[i];
    }
  }

  lemma NamelessStep(sig: seq<SigParam>, i: nat)
    requires i < |sig|
    ensures HasNameless(sig[..i + 1]) <==> HasNameless(sig[..i]) || (sig[i].name != "self" && sig[i].annotation.NamelessAnnotation?)
  {
    var a, b := sig[..i], sig[..i + 1];
    if HasNameless(b) {
      var j :| 0 <= j < |b| && b[j].name != "self" && b[j].annotation.NamelessAnnotation?;
      if j < i {
        assert a[j] == b[j];
      }
    }
    if HasNameless(a) {
      var j :| 0 <= j < |a| && a[j].name != "self" && a[j].annotation.NamelessAnnotation?;
      assert b[j] == a[j];
    }
  }

  /** `AssistantTool.definition`: the loop over the constructor's
    * parameters. `docs` is what the constructor's docstring documents, or
    * `None` when it has no docstring. */
  method Definition(className: string, classDoc: Option<string>, docs: Option<map<string, Option<string>>>,
                    sig: seq<SigParam>) returns (r: Result<Py, string>)
    ensures r == DefinitionOf(className, classDoc, docs, sig)
  {
    var properties: seq<Entry> := [];
    var required: seq<string> := [];
    var d := docs.GetOr(map[]);
    var i := 0;
    while i < |sig|
      invariant 0 <= i <= |sig|
      invariant docs.None? ==> !HasNonSelf(sig[..i])
      invariant !HasNameless(sig[..i])
      invariant properties == PropertiesOf(RowsOf(sig[..i], d))
      invariant required == RequiredOf(RowsOf(sig[..i], d))
    {
      var p := sig[i];
      RowsOfStep(sig, i, d);
      NonSelfStep(sig, i);
      NamelessStep(sig, i);
      if p.name != "self" {
        if docs.None? {
          assert sig[i].name != "self";
          return Failure("UnboundLocalError");
        }
        var typeName := TypeName(p.annotation);
        if typeName.Failure? {
          assert sig[i].name != "self" && sig[i].annotation.NamelessAnnotation?;
          return Failure(typeName.error);
        }
        RowsSnoc(RowsOf(sig[..i], d), RowOf(p, d));
        properties := DictSet(properties, p.name, PropertySpec(typeName.value, DescriptionFor(d, p.name)));
        if !p.hasDefault {
          required := required + [p.name];
        }
      } else {
        assert RowsOf(sig[..i], d) + [] == RowsOf(sig[..i], d);
      }
      i := i + 1;
    }
    assert sig[..i] == sig;
    r := Success(DictVal([Entry("name", StrVal(className)),
                          Entry("description", if classDoc.Some? then StrVal(classDoc.value) else NoneVal),
                          Entry("parameters", ObjectSchema(properties, required))]));
  }

  /** The rows are the parameters other than `self`, in order. */
  lemma {:induction false} RowsAreNonSelf(sig: seq<SigParam>, docs: map<string, Option<string>>)
    ensures forall r :: r in RowsOf(sig, docs) <==> exists i :: 0 <= i < |sig| && sig[i].name != "self" && r == RowOf(sig[i], docs)
  {
    if sig != [] {
      var init := sig[..|sig| - 1];
      RowsAreNonSelf(init, docs);
      forall r
        ensures r in RowsOf(sig, docs) <==> exists i :: 0 <= i < |sig| && sig[i].name != "self" && r == RowOf(sig[i], docs)
      {
        if r in RowsOf(init, docs) {
          var i :| 0 <= i < |init| && init[i].name != "self" && r == RowOf(init[i], docs);
          assert sig[i] == init[i];
        }
        if exists i :: 0 <= i < |sig| && sig[i].name != "self" && r == RowOf(sig[i], docs) {
          var i :| 0 <= i < |sig| && sig[i].name != "self" && r == RowOf(sig[i], docs);
          if i < |init| {
            assert init[i] == sig[i];
          }
        }
      }
    }
  }

  /** `self` is never a property nor required; every other parameter is a
    * property, and it is required exactly when it has no default. */
  lemma SelfNeverListed(sig: seq<SigParam>, docs: map<string, Option<string>>, k: string, x: string)
    ensures var rows := RowsOf(sig, docs);
      (HasKey(PropertiesOf(rows), k) <==> k != "self" && exists i :: 0 <= i < |sig| && sig[i].name == k) &&
      (x in RequiredOf(rows) <==> x != "self" && exists i :: 0 <= i < |sig| && sig[i].name == x && !sig[i].hasDefault)
  {
    var rows := RowsOf(sig, docs);
    RowsAreNonSelf(sig, docs);
    PropertiesKeys(rows, k);
    RequiredExactly(rows);
    if k != "self" && exists i :: 0 <= i < |sig| && sig[i].name == k {
      var i :| 0 <= i < |sig| && sig[i].name == k;
      assert RowOf(sig[i], docs) in rows;
    }
    if HasKey(PropertiesOf(rows), k) {
      var j :| 0 <= j < |rows| && rows[j].name == k;
      assert rows[j] in rows;
    }
    if x != "self" && exists i :: 0 <= i < |sig| && sig[i].name == x && !sig[i].hasDefault {
      var i :| 0 <= i < |sig| && sig[i].name == x && !sig[i].hasDefault;
      assert RowOf(sig[i], docs) in rows;
    }
    if x in RequiredOf(rows) {
      var j :| 0 <= j < |rows| && rows[j].required && rows[j].name == x;
      assert rows[j] in rows;
    }
  }
}
