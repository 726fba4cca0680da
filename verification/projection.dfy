/** `buildClusterInfo`: the projection of one fetched database-cluster
    document onto the flat summary record the command prints. */
module Projection {
  import opened Wrappers
  import opened Unstructured
  import Labels

  /** Constants the projection and the loop fill in without looking at the
      document: the playground defaults for root user, port and engine. */
  datatype Defaults = Defaults(rootUser: string, port: string, engine: string)

  /** The storage column is a placeholder constant, not a measurement. */
  const StorageSize: int := 2

  /** The summary record printed for one database cluster. */
  datatype ClusterInfo = ClusterInfo(
    dbNamespace: string,
    dbCluster: string,
    rootUser: string,
    dbPort: string,
    version: string,
    instances: int64,
    serverId: int64,
    secret: string,
    startTime: string,
    status: string,
    onlineInstances: int64,
    topology: string,
    engine: string,
    storage: int,
    labels: string)

  /** The record as the loop pre-fills it before fetching: defaults for
      root user and port, the located namespace and name, Go zero values
      everywhere else. */
  function Base(d: Defaults, namespace: string, name: string): ClusterInfo {
    ClusterInfo(namespace, name, d.rootUser, d.port, "", 0, 0, "", "", "", 0, "", "", 0, "")
  }

  /** One type assertion of the projection: the document path and the Go
      type it must hold. */
  datatype Check = Check(path: seq<string>, want: Kind)

  /** The assertions the projection makes, in the order it makes them. */
  const Checks: seq<Check> := [
    Check(["status"], MapKind),
    Check(["status", "cluster"], MapKind),
    Check(["spec"], MapKind),
    Check(["spec", "version"], StringKind),
    Check(["spec", "instances"], Int64Kind),
    Check(["spec", "baseServerId"], Int64Kind),
    Check(["spec", "secretName"], StringKind),
    Check(["status", "createTime"], StringKind),
    Check(["status", "cluster", "status"], StringKind),
    Check(["status", "cluster", "onlineInstances"], Int64Kind)
  ]

  predicate Passes(obj: Entries, c: Check) {
    KindOf(At(Object(obj), c.path)) == c.want
  }

  /** The document has the shape a database-cluster summary needs. */
  predicate Conforms(obj: Entries) {
    forall i :: 0 <= i < |Checks| ==> Passes(obj, Checks[i])
  }

  /** The index of the first check from `i` on that the document fails,
      or `|Checks|` when it passes them all. */
  function FirstFailingFrom(obj: Entries, i: nat): (j: nat)
    requires i <= |Checks|
    ensures i <= j <= |Checks|
    ensures forall k :: i <= k < j ==> Passes(obj, Checks[k])
    ensures j < |Checks| ==> !Passes(obj, Checks[j])
    decreases |Checks| - i
  {
    if i == |Checks| then i
    else if !Passes(obj, Checks[i]) then i
    else FirstFailingFrom(obj, i + 1)
  }

  function FirstFailing(obj: Entries): nat {
    FirstFailingFrom(obj, 0)
  }

  /** The panic a document that fails check `i` raises. */
  function PanicAt(obj: Entries, i: nat): Panic
    requires i < |Checks|
  {
    TypeAssertion(Checks[i].path, Checks[i].want, KindOf(At(Object(obj), Checks[i].path)))
  }

  /** The three sub-maps, asserted in the order the source asserts them:
      `status`, then `status.cluster`, then `spec`. */
  function SubMaps(obj: Entries): Result<(Entries, Entries, Entries), Panic> {
    var status :- AsMap(Field(obj, "status"), ["status"]);
    var cluster :- AsMap(Field(status, "cluster"), ["status", "cluster"]);
    var spec :- AsMap(Field(obj, "spec"), ["spec"]);
    Success((status, cluster, spec))
  }

  /** The leaves read from `spec`: version, instances, base server id and
      secret name. */
  datatype SpecLeaves = SpecLeaves(version: string, instances: int64, serverId: int64, secret: string)

  function ReadSpec(spec: Entries): Result<SpecLeaves, Panic> {
    var version :- AsString(Field(spec, "version"), ["spec", "version"]);
    var instances :- AsInt64(Field(spec, "instances"), ["spec", "instances"]);
    var serverId :- AsInt64(Field(spec, "baseServerId"), ["spec", "baseServerId"]);
    var secret :- AsString(Field(spec, "secretName"), ["spec", "secretName"]);
    Success(SpecLeaves(version, instances, serverId, secret))
  }

  /** The leaves read from `status` and `status.cluster`: creation time,
      cluster status and online instance count. */
  datatype StatusLeaves = StatusLeaves(startTime: string, status: string, onlineInstances: int64)

  function ReadStatus(status: Entries, cluster: Entries): Result<StatusLeaves, Panic> {
    var startTime :- AsString(Field(status, "createTime"), ["status", "createTime"]);
    var clusterStatus :- AsString(Field(cluster, "status"), ["status", "cluster", "status"]);
    var online :- AsInt64(Field(cluster, "onlineInstances"), ["status", "cluster", "onlineInstances"]);
    Success(StatusLeaves(startTime, clusterStatus, online))
  }

  /** `buildClusterInfo(obj, &info)`: labels appended to whatever `info`
      already holds, then the three sub-maps and the seven leaves taken by
      unchecked type assertion, a panic at the first that does not hold. */
  function BuildClusterInfo(obj: Entries, info: ClusterInfo, d: Defaults): (r: Result<ClusterInfo, Panic>)
    ensures r.Success? ==> r.value.dbNamespace == info.dbNamespace && r.value.dbCluster == info.dbCluster
    ensures r.Success? ==> r.value.rootUser == info.rootUser && r.value.dbPort == info.dbPort
    ensures r.Success? ==> r.value.engine == d.engine && r.value.storage == StorageSize
    ensures r.Success? ==> (r.value.topology == "Standalone" <==> r.value.instances == 1)
    ensures r.Success? ==> r.value.topology in {"Standalone", "Cluster"}
  {
    var labels := info.labels + Labels.Render(LabelsOf(obj));
    var (status, cluster, spec) :- SubMaps(obj);
    var sp :- ReadSpec(spec);
    var st :- ReadStatus(status, cluster);
    var topology := if sp.instances == 1 then "Standalone" else "Cluster";
    Success(info.(
      labels := labels,
      version := sp.version,
      instances := sp.instances,
      serverId := sp.serverId,
      secret := sp.secret,
      startTime := st.startTime,
      status := st.status,
      onlineInstances := st.onlineInstances,
      topology := topology,
      engine := d.engine,
      storage := StorageSize))
  }

  lemma At1(v: Value, a: string)
    ensures At(v, [a]) == if v.Object? then Field(v.entries, a) else Null
  {
    if v.Object? {
      assert [a][1..] == [];
    }
  }

  lemma At2(v: Value, a: string, b: string)
    ensures At(v, [a, b]) == if v.Object? then At(Field(v.entries, a), [b]) else Null
  {
    if v.Object? {
      assert [a, b][1..] == [b];
    }
  }

  lemma At3(v: Value, a: string, b: string, c: string)
    ensures At(v, [a, b, c]) == if v.Object? then At(Field(v.entries, a), [b, c]) else Null
  {
    if v.Object? {
      assert [a, b, c][1..] == [b, c];
    }
  }

  function Sub(v: Value, key: string): Value {
    if v.Object? then Field(v.entries, key) else Null
  }

  /** The value each check inspects, written as the chain of map lookups
      the projection performs. */
  lemma CheckedValues(obj: Entries)
    ensures var status, spec := Field(obj, "status"), Field(obj, "spec");
      var cluster := Sub(status, "cluster");
      && At(Object(obj), Checks[0].path) == status
      && At(Object(obj), Checks[1].path) == cluster
      && At(Object(obj), Checks[2].path) == spec
      && At(Object(obj), Checks[3].path) == Sub(spec, "version")
      && At(Object(obj), Checks[4].path) == Sub(spec, "instances")
      && At(Object(obj), Checks[5].path) == Sub(spec, "baseServerId")
      && At(Object(obj), Checks[6].path) == Sub(spec, "secretName")
      && At(Object(obj), Checks[7].path) == Sub(status, "createTime")
      && At(Object(obj), Checks[8].path) == Sub(cluster, "status")
      && At(Object(obj), Checks[9].path) == Sub(cluster, "onlineInstances")
  {
    var root := Object(obj);
    var status, spec := Field(obj, "status"), Field(obj, "spec");
    At1(root, "status");
    At1(root, "spec");
    At2(root, "status", "cluster");
    At2(root, "spec", "version");
    At2(root, "spec", "instances");
    At2(root, "spec", "baseServerId");
    At2(root, "spec", "secretName");
    At2(root, "status", "createTime");
    At1(status, "cluster");
    At1(status, "createTime");
    At1(spec, "version");
    At1(spec, "instances");
    At1(spec, "baseServerId");
    At1(spec, "secretName");
    At3(root, "status", "cluster", "status");
    At3(root, "status", "cluster", "onlineInstances");
    At2(status, "cluster", "status");
    At2(status, "cluster", "onlineInstances");
    var cluster := Sub(status, "cluster");
    At1(cluster, "status");
    At1(cluster, "onlineInstances");
  }

  lemma PassedStep(obj: Entries, i: nat)
    requires i < |Checks| && Passes(obj, Checks[i])
    ensures FirstFailingFrom(obj, i) == FirstFailingFrom(obj, i + 1)
  {
  }

  lemma FailedStep(obj: Entries, i: nat)
    requires i < |Checks| && !Passes(obj, Checks[i])
    ensures FirstFailingFrom(obj, i) == i
  {
  }

  /** The sub-map assertions fail exactly when one of the first three
      checks does, with that check's panic. */
  lemma SubMapsFollowChecks(obj: Entries)
    ensures SubMaps(obj).Success? <==> FirstFailingFrom(obj, 0) >= 3
    ensures SubMaps(obj).Failure? ==> SubMaps(obj).error == PanicAt(obj, FirstFailingFrom(obj, 0))
    ensures SubMaps(obj).Success? ==> FirstFailingFrom(obj, 0) == FirstFailingFrom(obj, 3)
    ensures SubMaps(obj).Success? ==>
      SubMaps(obj).value == (Field(obj, "status").entries, Sub(Field(obj, "status"), "cluster").entries, Field(obj, "spec").entries)
  {
    CheckedValues(obj);
    var status, spec := Field(obj, "status"), Field(obj, "spec");
    var cluster := Sub(status, "cluster");
    if !status.Object? {
      FailedStep(obj, 0);
    } else {
      PassedStep(obj, 0);
      if !cluster.Object? {
        FailedStep(obj, 1);
      } else {
        PassedStep(obj, 1);
        if !spec.Object? {
          FailedStep(obj, 2);
        } else {
          PassedStep(obj, 2);
        }
      }
    }
  }

  /** With the sub-maps in place, the `spec` leaves fail exactly when one
      of checks 3 to 6 does, with that check's panic. */
  lemma ReadSpecFollowsChecks(obj: Entries)
    requires SubMaps(obj).Success?
    ensures var spec := SubMaps(obj).value.2;
      && (ReadSpec(spec).Success? <==> FirstFailingFrom(obj, 3) >= 7)
      && (ReadSpec(spec).Failure? ==> ReadSpec(spec).error == PanicAt(obj, FirstFailingFrom(obj, 3)))
      && (ReadSpec(spec).Success? ==> FirstFailingFrom(obj, 3) == FirstFailingFrom(obj, 7))
  {
    SubMapsFollowChecks(obj);
    CheckedValues(obj);
    var spec := Field(obj, "spec");
    if !Sub(spec, "version").Str? {
      FailedStep(obj, 3);
    } else {
      PassedStep(obj, 3);
      if !Sub(spec, "instances").Int? {
        FailedStep(obj, 4);
      } else {
        PassedStep(obj, 4);
        if !Sub(spec, "baseServerId").Int? {
          FailedStep(obj, 5);
        } else {
          PassedStep(obj, 5);
          if !Sub(spec, "secretName").Str? {
            FailedStep(obj, 6);
          } else {
            PassedStep(obj, 6);
          }
        }
      }
    }
  }

  /** With the sub-maps in place, the `status` leaves fail exactly when
      one of checks 7 to 9 does, with that check's panic. */
  lemma ReadStatusFollowsChecks(obj: Entries)
    requires SubMaps(obj).Success?
    ensures var (status, cluster, _) := SubMaps(obj).value;
      && (ReadStatus(status, cluster).Success? <==> FirstFailingFrom(obj, 7) == |Checks|)
      && (ReadStatus(status, cluster).Failure? ==> ReadStatus(status, cluster).error == PanicAt(obj, FirstFailingFrom(obj, 7)))
  {
    SubMapsFollowChecks(obj);
    CheckedValues(obj);
    var status := Field(obj, "status");
    var cluster := Sub(status, "cluster");
    if !Sub(status, "createTime").Str? {
      FailedStep(obj, 7);
    } else {
      PassedStep(obj, 7);
      if !Sub(cluster, "status").Str? {
        FailedStep(obj, 8);
      } else {
        PassedStep(obj, 8);
        if !Sub(cluster, "onlineInstances").Int? {
          FailedStep(obj, 9);
        } else {
          PassedStep(obj, 9);
        }
      }
    }
  }

  /** The projection succeeds exactly on conforming documents, and a
      failure is the panic of the first assertion that does not hold. */
  lemma ProjectionFailsAtFirstFailingCheck(obj: Entries, info: ClusterInfo, d: Defaults)
    ensures BuildClusterInfo(obj, info, d).Success? <==> Conforms(obj)
    ensures BuildClusterInfo(obj, info, d).Failure? ==>
      FirstFailing(obj) < |Checks| && BuildClusterInfo(obj, info, d).error == PanicAt(obj, FirstFailing(obj))
  {
    SubMapsFollowChecks(obj);
    if SubMaps(obj).Success? {
      ReadSpecFollowsChecks(obj);
      ReadStatusFollowsChecks(obj);
    }
  }

  /** On success every projected field is the document's value at its
      path, unchanged, and the labels are the rendered label pairs appended
      to what the record already held. */
  lemma ProjectedFieldsMatchDocument(obj: Entries, info: ClusterInfo, d: Defaults)
    requires BuildClusterInfo(obj, info, d).Success?
    ensures var r := BuildClusterInfo(obj, info, d).value;
      && At(Object(obj), ["spec", "version"]) == Str(r.version)
      && At(Object(obj), ["spec", "instances"]) == Int(r.instances)
      && At(Object(obj), ["spec", "baseServerId"]) == Int(r.serverId)
      && At(Object(obj), ["spec", "secretName"]) == Str(r.secret)
      && At(Object(obj), ["status", "createTime"]) == Str(r.startTime)
      && At(Object(obj), ["status", "cluster", "status"]) == Str(r.status)
      && At(Object(obj), ["status", "cluster", "onlineInstances"]) == Int(r.onlineInstances)
      && r.labels == info.labels + Labels.Render(LabelsOf(obj))
  {
    var root := Object(obj);
    var status, spec := Field(obj, "status"), Field(obj, "spec");
    var cluster := Field(status.entries, "cluster");
    At2(root, "spec", "version");
    At2(root, "spec", "instances");
    At2(root, "spec", "baseServerId");
    At2(root, "spec", "secretName");
    At2(root, "status", "createTime");
    At1(spec, "version");
    At1(spec, "instances");
    At1(spec, "baseServerId");
    At1(spec, "secretName");
    At1(status, "createTime");
    At3(root, "status", "cluster", "status");
    At3(root, "status", "cluster", "onlineInstances");
    At2(status, "cluster", "status");
    At2(status, "cluster", "onlineInstances");
    At1(cluster, "status");
    At1(cluster, "onlineInstances");
  }
}
