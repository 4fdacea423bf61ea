/** The Task resource (pyattask/task.py). */
module Task {
  import opened Values
  import opened Text
  import opened Objects

  /** The API fields a Task recognises, in declared order. */
  const Fields: seq<string> := ["ID", "name", "objCode", "percentComplete",
                                "plannedCompletionDate", "plannedStartDate", "priority",
                                "progressStatus", "projectedCompletionDate",
                                "projectedStartDate", "status", "taskNumber", "wbs",
                                "workRequired"]

  /** No two of the 14 fields differ only in case. */
  lemma FieldsCaseDistinct()
    ensures CaseDistinct(Fields)
  {
    forall a, b | a in Fields && b in Fields && Lower(a) == Lower(b)
      ensures a == b
    {
      assert |a| == |b| && Lower(a)[0] == Lower(b)[0];
    }
  }

  const Kind: Descriptor := (FieldsCaseDistinct(); ResourceKind("task", "TASK", Fields, "Task"))

  lemma KindConstants(url: string)
    ensures Kind.endpoint == "task" && Kind.objCode == "TASK" && |Kind.fields| == 14
    ensures SearchUrl(url, Kind) == url + "/task/search"
  {
  }

  /** The `fields` parameter names exactly the 14 fields, in declared order. */
  lemma FieldsParamNamesFields()
    ensures Split(FieldsParam(Kind), ',') == Fields
  {
    FieldsWithoutComma();
    FieldsParamLists(Kind);
  }

  lemma FieldsWithoutComma()
    ensures forall i :: 0 <= i < |Fields| ==> ',' !in Fields[i]
  {
    assert forall f :: f in Fields ==> ',' !in f;
  }

  /** `Task(attrs=...)`. */
  method New(attrs: map<string, Json>) returns (t: Resource)
    ensures fresh(t) && t.desc == Kind && t.attrs == attrs && !t.dirty
  {
    t := new Resource(Kind, attrs);
  }

  /** A payload with objCode "TASK", ID "123" and name "Foo" gives a task whose
      `id` is "123" and whose `name` is "Foo". */
  lemma FromJsonExample()
    ensures var payload := map["objCode" := JStr("TASK"), "ID" := JStr("123"), "name" := JStr("Foo")];
            var r := FromJsonSpec(Kind, JObj(payload));
            && r.Success?
            && "id" in r.value && r.value["id"] == JStr("123")
            && "name" in r.value && r.value["name"] == JStr("Foo")
  {
    assert Lower("ID") == "id" && Lower("name") == "name";
  }

  /** A server key "id" (differing from "ID" only in case) is dropped: the
      result holds "id" only when the payload holds "ID". */
  lemma LowerCaseIdDropped(payload: map<string, Json>)
    requires "ID" !in payload
    ensures "id" !in Recognised(Kind, payload)
  {
    assert forall k :: k in Fields && k != "ID" ==> |k| != 2;
    assert forall k :: k in payload && k in Fields ==> |Lower(k)| != 2;
  }
}
