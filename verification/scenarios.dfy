/** Concrete documents run through the projection: the standalone and the
    three-instance cluster, and the label column with and without labels. */
module Scenarios {
  import opened Wrappers
  import opened Unstructured
  import opened Projection
  import Labels

  function Spec(instances: int64): Value {
    Object([
      ("version", Str("8.0.30")),
      ("instances", Int(instances)),
      ("baseServerId", Int(1)),
      ("secretName", Str("s1"))])
  }

  const Status: Value :=
    Object([
      ("createTime", Str("t0")),
      ("cluster", Object([("status", Str("Running")), ("onlineInstances", Int(1))]))])

  function Document(instances: int64, labels: seq<(string, Value)>): Entries {
    [("metadata", Object([("labels", Object(labels))])), ("spec", Spec(instances)), ("status", Status)]
  }

  /** A one-instance cluster with one label projects to a standalone summary. */
  lemma StandaloneDocument(d: Defaults)
    ensures var r := BuildClusterInfo(Document(1, [("env", Str("prod"))]), Base(d, "ns", "c1"), d);
      && r.Success?
      && r.value == ClusterInfo("ns", "c1", d.rootUser, d.port, "8.0.30", 1, 1, "s1", "t0", "Running", 1,
                                "Standalone", d.engine, 2, "env:prod ")
  {
    var obj := Document(1, [("env", Str("prod"))]);
    assert LabelsOf(obj) == [("env", "prod")];
    assert Labels.Render([("env", "prod")]) == "env:prod ";
  }

  /** Three instances and no labels: a cluster topology and an empty label column. */
  lemma ThreeInstanceDocument(d: Defaults)
    ensures var r := BuildClusterInfo(Document(3, []), Base(d, "ns", "c2"), d);
      && r.Success?
      && r.value.topology == "Cluster"
      && r.value.instances == 3
      && r.value.labels == ""
  {
    assert LabelsOf(Document(3, [])) == [];
  }

  /** A fractional instance count decodes as a float and panics at `spec.instances`. */
  lemma FloatInstancesPanic(d: Defaults)
    ensures var obj := [("spec", Object([("version", Str("8.0.30")), ("instances", Float(1.5))])), ("status", Status)];
      BuildClusterInfo(obj, Base(d, "ns", "c3"), d) == Failure(TypeAssertion(["spec", "instances"], Int64Kind, Float64Kind))
  {
    var spec := Object([("version", Str("8.0.30")), ("instances", Float(1.5))]);
    var obj := [("spec", spec), ("status", Status)];
    assert Field(obj, "status") == Status;
    assert Field(obj, "spec") == spec;
    assert Field(spec.entries, "version") == Str("8.0.30");
    assert Field(spec.entries, "instances") == Float(1.5);
  }
}
