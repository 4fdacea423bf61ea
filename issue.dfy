/** The Issue resource (pyattask/issue.py). */
module Issue {
  import opened Values
  import opened Text
  import opened Objects

  /** The API fields an Issue recognises, in declared order. The list spells
      "owenerID", not "ownerID". */
  const Fields: seq<string> := ["ID", "name", "objCode", "isComplete", "assignedToID",
                                "owenerID", "description", "priority", "projectID",
                                "teamID", "status", "statusUpdate", "submittedByID",
                                "workRequired", "severity"]

  /** No two of the 15 fields differ only in case. */
  lemma FieldsCaseDistinct()
    ensures CaseDistinct(Fields)
  {
    forall a, b | a in Fields && b in Fields && Lower(a) == Lower(b)
      ensures a == b
    {
      assert |a| == |b| && Lower(a)[0] == Lower(b)[0];
    }
  }

  const Kind: Descriptor := (FieldsCaseDistinct(); ResourceKind("issue", "ISSUE", Fields, "Issue"))

  lemma KindConstants(url: string)
    ensures Kind.endpoint == "issue" && Kind.objCode == "ISSUE" && |Kind.fields| == 15
    ensures SearchUrl(url, Kind) == url + "/issue/search"
  {
  }

  /** The `fields` parameter names exactly the 15 fields, in declared order. */
  lemma FieldsParamNamesFields()
    ensures Split(FieldsParam(Kind), ',') == Fields
  {
    FieldsWithoutComma();
    FieldsParamLists(Kind);
  }

  lemma FieldsWithoutComma()
    ensures forall i :: 0 <= i < |Fields| ==> ',' !in Fields[i]
  {
    assert forall f :: f in Fields ==> ',' !in f;
  }

  /** `Issue(attrs=...)`. */
  method New(attrs: map<string, Json>) returns (i: Resource)
    ensures fresh(i) && i.desc == Kind && i.attrs == attrs && !i.dirty
  {
    i := new Resource(Kind, attrs);
  }

  /** A server "ownerID" field never reaches an issue: no field lowers to "ownerid". */
  lemma OwnerIdDropped(payload: map<string, Json>)
    ensures "ownerid" !in Recognised(Kind, payload)
  {
    assert forall k :: k in Fields && k != "objCode" ==> |k| != 7;
    assert Lower("objCode") != "ownerid" by {
      assert Lower("objCode")[1] == 'b';
    }
  }

  /** A field spelled "owenerID" is kept, as "owenerid". */
  lemma OwenerIdKept(payload: map<string, Json>)
    requires "owenerID" in payload
    ensures var attrs := Recognised(Kind, payload);
            "owenerid" in attrs && attrs["owenerid"] == payload["owenerID"]
  {
    assert "owenerID" in Fields && Lower("owenerID") == "owenerid";
  }
}
