/** The Project resource (pyattask/project.py). */
module Project {
  import opened Values
  import opened Text
  import opened Objects

  /** The API fields a Project recognises, in declared order. */
  const Fields: seq<string> := ["ID", "name", "objCode", "ownerID", "priority",
                                "status", "groupID", "description", "condition",
                                "percentComplete", "projectedCompletionDate"]

  /** No two of the 11 fields differ only in case. */
  lemma FieldsCaseDistinct()
    ensures CaseDistinct(Fields)
  {
    forall a, b | a in Fields && b in Fields && Lower(a) == Lower(b)
      ensures a == b
    {
      assert |a| == |b| && Lower(a)[0] == Lower(b)[0] && Lower(a)[1] == Lower(b)[1];
    }
  }

  const Kind: Descriptor := (FieldsCaseDistinct(); ResourceKind("project", "PROJ", Fields, "Project"))

  lemma KindConstants(url: string)
    ensures Kind.endpoint == "project" && Kind.objCode == "PROJ" && |Kind.fields| == 11
    ensures SearchUrl(url, Kind) == url + "/project/search"
  {
  }

  /** The `fields` parameter names exactly the 11 fields, in declared order. */
  lemma FieldsParamNamesFields()
    ensures Split(FieldsParam(Kind), ',') == Fields
  {
    FieldsWithoutComma();
    FieldsParamLists(Kind);
  }

  lemma FieldsWithoutComma()
    ensures forall i :: 0 <= i < |Fields| ==> ',' !in Fields[i]
  {
    assert forall f :: f in Fields ==> ',' !in f;
  }

  /** `Project(attrs=...)`. */
  method New(attrs: map<string, Json>) returns (p: Resource)
    ensures fresh(p) && p.desc == Kind && p.attrs == attrs && !p.dirty
  {
    p := new Resource(Kind, attrs);
  }

  /** Any payload with an objCode converts, whatever that objCode is, and its
      objCode is kept under "objcode". */
  lemma ObjCodeAlwaysKept(payload: map<string, Json>)
    requires "objCode" in payload
    ensures var r := FromJsonSpec(Kind, JObj(payload));
            r.Success? && "objcode" in r.value && r.value["objcode"] == payload["objCode"]
  {
    assert "objCode" in Fields && Lower("objCode") == "objcode";
  }

  /** In particular a payload of another kind converts. */
  lemma ForeignObjCodeConverted(payload: map<string, Json>)
    requires "objCode" in payload && payload["objCode"] != JStr(Kind.objCode)
    ensures FromJsonSpec(Kind, JObj(payload)).Success?
  {
  }
}
