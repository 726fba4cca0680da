/** The describe command of the database-cluster CLI: argument completion
    (`Complete`) and the per-resource fetch/print loop (`Run`). The
    resource builder, the dynamic client and the printer are external: the
    builder's outcome is an input, the client's `Get` is an oracle and the
    printer and error stream are sequences the run appends to. */
module Describe {
  import opened Wrappers
  import opened Unstructured
  import opened Projection

  type Error = string

  /** The fields of the command's options that completion fills in and the
      run reads. `hasClient` records whether a dynamic client was set. */
  datatype Options = Options(
    namespace: string,
    enforceNamespace: bool,
    allNamespaces: bool,
    builderArgs: seq<string>,
    hasClient: bool)

  /** What the configuration layer answers while completing: the kubeconfig
      namespace (with its "enforce" flag), whether a REST config could be
      built, and whether a dynamic client could be made from it. */
  datatype Environment = Environment(
    namespace: Result<(string, bool), Error>,
    restConfigErr: Option<Error>,
    clientErr: Option<Error>)

  const MissingNameError: Error := "You must specify the database cluster name to describe."

  /** `Complete`: refuses an empty argument list, takes the namespace from the
      kubeconfig, drops namespace enforcement under all-namespaces and puts
      the playground resource type in front of the arguments. A failing REST
      config ends completion WITHOUT an error and without a client. */
  function Complete(o: Options, args: seq<string>, env: Environment, sourceName: string): (r: Result<Options, Error>)
    ensures |args| == 0 ==> r == Failure(MissingNameError)
    ensures |args| > 0 && env.namespace.Failure? ==> r == Failure(env.namespace.error)
    ensures |args| > 0 && env.namespace.Success? && env.restConfigErr.None? && env.clientErr.Some? ==>
      r == Failure(env.clientErr.value)
    ensures r.Failure? <==>
      (|args| == 0 || env.namespace.Failure? || (env.restConfigErr.None? && env.clientErr.Some?))
    ensures r.Success? ==>
      && |r.value.builderArgs| == |args| + 1
      && r.value.builderArgs[0] == sourceName
      && r.value.builderArgs[1..] == args
    ensures r.Success? ==>
      && r.value.namespace == env.namespace.value.0
      && r.value.allNamespaces == o.allNamespaces
      && (r.value.enforceNamespace <==> env.namespace.value.1 && !o.allNamespaces)
    ensures r.Success? ==> (env.restConfigErr.None? ==> r.value.hasClient)
    ensures r.Success? ==> (env.restConfigErr.Some? ==> r.value.hasClient == o.hasClient)
  {
    if |args| == 0 then Failure(MissingNameError)
    else
      var (ns, enforce) :- env.namespace;
      var enforce' := if o.allNamespaces then false else enforce;
      var o' := o.(namespace := ns, enforceNamespace := enforce', builderArgs := [sourceName] + args);
      if env.restConfigErr.Some? then Success(o')
      else if env.clientErr.Some? then Failure(env.clientErr.value)
      else Success(o'.(hasClient := true))
  }

  /** A resource the builder located: its namespace, name and the resource
      part of its REST mapping. */
  datatype Info = Info(namespace: string, name: string, resource: string)

  /** What the builder produced: `r.Err()`, the located infos and the error
      `r.Infos()` returned alongside them. */
  datatype Located = Located(err: Option<Error>, infos: seq<Info>, infosErr: Option<Error>)

  /** The arguments of one dynamic-client `Get`. */
  datatype FetchKey = FetchKey(resource: string, namespace: string, name: string)

  /** The dynamic client's `Get`: the object, or the error it returned. */
  type Fetch = FetchKey -> Result<Entries, Error>

  /** Which namespace a fetch is keyed by: the command's own namespace, as
      the source does, or the namespace the builder located the info in. */
  datatype Scope = OptionsNamespace | InfoNamespace

  function KeyOf(o: Options, scope: Scope, info: Info): FetchKey {
    match scope
    case OptionsNamespace => FetchKey(info.resource, o.namespace, info.name)
    case InfoNamespace => FetchKey(info.resource, info.namespace, info.name)
  }

  /** The projection a run applies to each fetched object. */
  type Project = (Entries, ClusterInfo) -> Result<ClusterInfo, Panic>

  /** Everything one run's loop reads. `pending[k]` is the error the loop
      checks while handling `infos[k]`; `project` is `buildClusterInfo`. */
  datatype Ctx = Ctx(
    o: Options,
    scope: Scope,
    infos: seq<Info>,
    pending: seq<Option<Error>>,
    fetch: Fetch,
    project: Project,
    d: Defaults)

  predicate Valid(c: Ctx) {
    |c.pending| == |c.infos|
  }

  /** The context projects with `buildClusterInfo` and the run's defaults. */
  ghost predicate Builds(c: Ctx) {
    forall obj, info :: c.project(obj, info) == BuildClusterInfo(obj, info, c.d)
  }

  /** The loop's state: the message set `errs`, the error list `allErrs`, the
      summaries printed so far and the trace of `Get` calls made. */
  datatype St = St(errs: set<Error>, allErrs: seq<Error>, printed: seq<ClusterInfo>, fetched: seq<FetchKey>)

  const Empty: St := St({}, [], [], [])

  /** What a run returns: nil, the aggregate of the soft errors, an error
      returned early, or a panic out of the projection. */
  datatype Ret = Nil | Aggregate(errs: seq<Error>) | Returned(err: Error) | Panicked(panic: Panic)

  /** The loop's state after some iterations, and the abort that ended it, if any. */
  datatype Outcome = Outcome(st: St, stop: Option<Ret>)

  predicate NoDup(s: seq<Error>) {
    forall i, j :: 0 <= i < j < |s| ==> s[i] != s[j]
  }

  function Elements(s: seq<Error>): set<Error> {
    set m | m in s
  }

  /** The soft-error bookkeeping: `errs` is exactly the set of messages in
      `allErrs`, and no message is in `allErrs` twice. */
  predicate Inv(st: St) {
    st.errs == Elements(st.allErrs) && NoDup(st.allErrs)
  }

  /** One iteration of the loop over infos. */
  function Step(c: Ctx, k: nat, st: St): (r: Outcome)
    requires Valid(c) && k < |c.infos|
    ensures Inv(st) ==> Inv(r.st)
    ensures r.stop.None? || r.stop.value.Returned? || r.stop.value.Panicked?
    ensures st.printed <= r.st.printed && st.fetched <= r.st.fetched && st.allErrs <= r.st.allErrs
    ensures |r.st.printed| <= |st.printed| + 1 && |r.st.fetched| <= |st.fetched| + 1
  {
    var info := c.infos[k];
    match c.pending[k]
    case Some(e) =>
      // In the source this branch checks the error `r.Infos()` returned, and
      // that error has already ended the run before the loop starts: it is
      // never taken. It is kept general here as the per-info soft error.
      if e in st.errs then Outcome(st, None)
      else Outcome(st.(allErrs := st.allErrs + [e], errs := st.errs + {e}), None)
    case None =>
      var key := KeyOf(c.o, c.scope, info);
      var st' := st.(fetched := st.fetched + [key]);
      match c.fetch(key)
      case Failure(e) => Outcome(st', Some(Returned(e)))
      case Success(obj) =>
        match c.project(obj, Base(c.d, info.namespace, info.name))
        case Failure(p) => Outcome(st', Some(Panicked(p)))
        case Success(ci) => Outcome(st'.(printed := st'.printed + [ci]), None)
  }

  /** The loop over `infos[k..]`, in order, ending at the first abort. */
  function Loop(c: Ctx, k: nat, st: St): (r: Outcome)
    requires Valid(c) && k <= |c.infos|
    ensures Inv(st) ==> Inv(r.st)
    ensures st.printed <= r.st.printed && st.fetched <= r.st.fetched && st.allErrs <= r.st.allErrs
    ensures |r.st.fetched| <= |st.fetched| + |c.infos| - k
    decreases |c.infos| - k
  {
    if k == |c.infos| then Outcome(st, None)
    else
      var r := Step(c, k, st);
      if r.stop.Some? then r else Loop(c, k + 1, r.st)
  }

  /** What `Run` produces: the printed summaries, the lines written to the
      error stream, the `Get` calls made and the returned error. */
  datatype RunResult = RunResult(printed: seq<ClusterInfo>, errOut: seq<string>, fetched: seq<FetchKey>, ret: Ret)

  function NoResourcesMessage(o: Options): string {
    if o.allNamespaces then "No resources found"
    else "No resources found in " + o.namespace + " namespace."
  }

  /** The loop context of a run over the builder's infos: the error checked in
      every iteration is the one `r.Infos()` returned. */
  function RunCtx(o: Options, scope: Scope, located: Located, fetch: Fetch, d: Defaults): (c: Ctx)
    ensures Valid(c) && Builds(c) && c.infos == located.infos && c.o == o && c.scope == scope && c.fetch == fetch
  {
    Ctx(o, scope, located.infos, seq(|located.infos|, _ => located.infosErr), fetch,
        (obj, info) => BuildClusterInfo(obj, info, d), d)
  }

  function RunWith(o: Options, scope: Scope, located: Located, fetch: Fetch, d: Defaults): RunResult {
    if located.err.Some? then RunResult([], [], [], Returned(located.err.value))
    else if located.infosErr.Some? then RunResult([], [], [], Returned(located.infosErr.value))
    else
      Finish(RunCtx(o, scope, located, fetch, d))
  }

  /** The loop over the infos and what follows it: the "No resources found"
      line and the aggregate of the soft errors. */
  function Finish(c: Ctx): RunResult
    requires Valid(c)
  {
    var out := Loop(c, 0, Empty);
    if out.stop.Some? then RunResult(out.st.printed, [], out.st.fetched, out.stop.value)
    else
      var errOut := if |c.infos| == 0 && |out.st.allErrs| == 0 then [NoResourcesMessage(c.o)] else [];
      var ret := if |out.st.allErrs| == 0 then Nil else Aggregate(out.st.allErrs);
      RunResult(out.st.printed, errOut, out.st.fetched, ret)
  }

  /** `Run` as written: every object is fetched from the command's namespace. */
  function Run(o: Options, located: Located, fetch: Fetch, d: Defaults): RunResult {
    RunWith(o, OptionsNamespace, located, fetch, d)
  }

  /** `Run` with each object fetched from the namespace it was located in. */
  function RunCorrected(o: Options, located: Located, fetch: Fetch, d: Defaults): RunResult {
    RunWith(o, InfoNamespace, located, fetch, d)
  }

  // ---------------------------------------------------------------------
  // Reference semantics of the loop, written without the loop.

  /** Info `j` goes through: it is skipped as a soft error, or its fetch and
      its projection both succeed. */
  predicate Good(c: Ctx, j: nat)
    requires Valid(c) && j < |c.infos|
  {
    c.pending[j].Some? ||
    (var got := c.fetch(KeyOf(c.o, c.scope, c.infos[j]));
     got.Success? && c.project(got.value, Base(c.d, c.infos[j].namespace, c.infos[j].name)).Success?)
  }

  predicate GoodBefore(c: Ctx, n: nat)
    requires Valid(c) && n <= |c.infos|
  {
    forall j :: 0 <= j < n ==> Good(c, j)
  }

  /** The summary of a good info that is not skipped. */
  function Summary(c: Ctx, j: nat): ClusterInfo
    requires Valid(c) && j < |c.infos| && Good(c, j) && c.pending[j].None?
  {
    var info := c.infos[j];
    c.project(c.fetch(KeyOf(c.o, c.scope, info)).value, Base(c.d, info.namespace, info.name)).value
  }

  /** The summaries of the first `n` infos, in order, skipped ones left out. */
  function Summaries(c: Ctx, n: nat): seq<ClusterInfo>
    requires Valid(c) && n <= |c.infos| && GoodBefore(c, n)
  {
    if n == 0 then []
    else Summaries(c, n - 1) + (if c.pending[n - 1].Some? then [] else [Summary(c, n - 1)])
  }

  /** The `Get` calls for the first `n` infos, skipped ones left out. */
  function FetchedKeys(c: Ctx, n: nat): seq<FetchKey>
    requires Valid(c) && n <= |c.infos|
  {
    if n == 0 then []
    else FetchedKeys(c, n - 1) + (if c.pending[n - 1].Some? then [] else [KeyOf(c.o, c.scope, c.infos[n - 1])])
  }

  /** The soft errors of the first `n` infos, repeats included. */
  function SoftErrors(c: Ctx, n: nat): seq<Error>
    requires Valid(c) && n <= |c.infos|
  {
    if n == 0 then []
    else SoftErrors(c, n - 1) + (if c.pending[n - 1].Some? then [c.pending[n - 1].value] else [])
  }

  /** The first occurrence of every message, in order of first occurrence. */
  function Dedup(s: seq<Error>): seq<Error> {
    if |s| == 0 then []
    else
      var p := Dedup(s[..|s| - 1]);
      if s[|s| - 1] in p then p else p + [s[|s| - 1]]
  }

  function RefState(c: Ctx, n: nat): St
    requires Valid(c) && n <= |c.infos| && GoodBefore(c, n)
  {
    var soft := Dedup(SoftErrors(c, n));
    St(Elements(soft), soft, Summaries(c, n), FetchedKeys(c, n))
  }

  /** The first info from `k` on that does not go through, or `|infos|`. */
  function FirstBadFrom(c: Ctx, k: nat): (i: nat)
    requires Valid(c) && k <= |c.infos|
    ensures k <= i <= |c.infos|
    ensures forall j :: k <= j < i ==> Good(c, j)
    ensures i < |c.infos| ==> !Good(c, i)
    decreases |c.infos| - k
  {
    if k == |c.infos| then k
    else if !Good(c, k) then k
    else FirstBadFrom(c, k + 1)
  }

  /** How a bad info ends the run: the fetch error, or the projection's panic. */
  function AbortAt(c: Ctx, i: nat): Ret
    requires Valid(c) && i < |c.infos| && !Good(c, i)
  {
    var info := c.infos[i];
    match c.fetch(KeyOf(c.o, c.scope, info))
    case Failure(e) => Returned(e)
    case Success(obj) => Panicked(c.project(obj, Base(c.d, info.namespace, info.name)).error)
  }

  /** The outcome the loop must have when info `i` is the first bad one
      (`i == |infos|`: none is bad). */
  function Expected(c: Ctx, i: nat): Outcome
    requires Valid(c) && i <= |c.infos| && GoodBefore(c, i)
    requires i < |c.infos| ==> !Good(c, i)
  {
    if i == |c.infos| then Outcome(RefState(c, i), None)
    else Outcome(RefState(c, i).(fetched := FetchedKeys(c, i + 1)), Some(AbortAt(c, i)))
  }

  // ---------------------------------------------------------------------
  // Properties.

  /** The deduplicated list holds each message once and exactly the
      messages of the original list. */
  lemma {:induction false} DedupSpec(s: seq<Error>)
    ensures NoDup(Dedup(s))
    ensures forall m :: m in Dedup(s) <==> m in s
    decreases |s|
  {
    if |s| > 0 {
      var init := s[..|s| - 1];
      DedupSpec(init);
      assert s == init + [s[|s| - 1]];
    }
  }

  lemma GoodBeforeExtend(c: Ctx, n: nat)
    requires Valid(c) && n < |c.infos| && GoodBefore(c, n) && Good(c, n)
    ensures GoodBefore(c, n + 1)
  {
  }

  lemma DedupSnoc(s: seq<Error>, e: Error)
    ensures Dedup(s + [e]) == if e in Dedup(s) then Dedup(s) else Dedup(s) + [e]
  {
    assert (s + [e])[..|s|] == s;
  }

  lemma ElementsSnoc(s: seq<Error>, e: Error)
    ensures Elements(s + [e]) == Elements(s) + {e}
  {
  }

  lemma SoftStepFollowsReference(c: Ctx, k: nat)
    requires Valid(c) && k < |c.infos| && GoodBefore(c, k + 1) && c.pending[k].Some?
    ensures Step(c, k, RefState(c, k)) == Outcome(RefState(c, k + 1), None)
  {
    var e := c.pending[k].value;
    var p := Dedup(SoftErrors(c, k));
    assert SoftErrors(c, k + 1) == SoftErrors(c, k) + [e];
    DedupSnoc(SoftErrors(c, k), e);
    ElementsSnoc(p, e);
    assert e in Elements(p) <==> e in p;
    assert Summaries(c, k + 1) == Summaries(c, k);
    assert FetchedKeys(c, k + 1) == FetchedKeys(c, k);
  }

  lemma FetchStepFollowsReference(c: Ctx, k: nat)
    requires Valid(c) && k < |c.infos| && GoodBefore(c, k + 1) && c.pending[k].None?
    ensures Step(c, k, RefState(c, k)) == Outcome(RefState(c, k + 1), None)
  {
    assert Good(c, k);
    assert SoftErrors(c, k + 1) == SoftErrors(c, k);
    assert Summaries(c, k + 1) == Summaries(c, k) + [Summary(c, k)];
    assert FetchedKeys(c, k + 1) == FetchedKeys(c, k) + [KeyOf(c.o, c.scope, c.infos[k])];
  }

  /** One good iteration moves the reference state from `k` to `k + 1`. */
  lemma StepFollowsReference(c: Ctx, k: nat)
    requires Valid(c) && k < |c.infos| && GoodBefore(c, k + 1)
    ensures Step(c, k, RefState(c, k)) == Outcome(RefState(c, k + 1), None)
  {
    if c.pending[k].Some? {
      SoftStepFollowsReference(c, k);
    } else {
      FetchStepFollowsReference(c, k);
    }
  }

  /** A bad info ends the loop with the abort the reference predicts. */
  lemma StepAbortsAtBad(c: Ctx, i: nat)
    requires Valid(c) && i < |c.infos| && GoodBefore(c, i) && !Good(c, i)
    ensures Step(c, i, RefState(c, i)) == Expected(c, i)
  {
  }

  /** The loop started at `k` in the reference state ends as the reference
      semantics predicts. */
  predicate FollowsFrom(c: Ctx, k: nat)
    requires Valid(c) && k <= |c.infos| && GoodBefore(c, k)
  {
    Loop(c, k, RefState(c, k)) == Expected(c, FirstBadFrom(c, k))
  }

  /** A good info hands the loop on to the next one unchanged in outcome. */
  lemma {:induction false} LoopGoodStep(c: Ctx, k: nat)
    requires Valid(c) && k < |c.infos| && GoodBefore(c, k + 1)
    ensures FollowsFrom(c, k)
    decreases |c.infos| - k, 0
  {
    LoopFollowsReference(c, k + 1);
    StepFollowsReference(c, k);
    var i := FirstBadFrom(c, k + 1);
    assert FirstBadFrom(c, k) == i;
    assert Loop(c, k, RefState(c, k)) == Loop(c, k + 1, RefState(c, k + 1));
  }

  /** A bad info ends the loop there. */
  lemma LoopBadStep(c: Ctx, k: nat)
    requires Valid(c) && k < |c.infos| && GoodBefore(c, k) && !Good(c, k)
    ensures FollowsFrom(c, k)
  {
    StepAbortsAtBad(c, k);
    assert FirstBadFrom(c, k) == k;
  }

  lemma LoopEnd(c: Ctx)
    requires Valid(c) && GoodBefore(c, |c.infos|)
    ensures FollowsFrom(c, |c.infos|)
  {
  }

  /** The loop from `k` agrees with the reference semantics: it runs to the
      first bad info, and its state is the reference state there. */
  lemma {:induction false} LoopFollowsReference(c: Ctx, k: nat)
    requires Valid(c) && k <= |c.infos| && GoodBefore(c, k)
    ensures FollowsFrom(c, k)
    decreases |c.infos| - k, 1
  {
    if k == |c.infos| {
      LoopEnd(c);
    } else if Good(c, k) {
      GoodBeforeExtend(c, k);
      LoopGoodStep(c, k);
    } else {
      LoopBadStep(c, k);
    }
  }

  /** The whole loop, from the empty state, is the reference semantics at
      the first bad info. */
  lemma LoopMatchesReference(c: Ctx)
    requires Valid(c)
    ensures Loop(c, 0, Empty) == Expected(c, FirstBadFrom(c, 0))
  {
    assert RefState(c, 0) == Empty;
    LoopFollowsReference(c, 0);
  }

  /** Soft errors: `errs` always equals the set of messages in `allErrs`,
      each message is recorded at most once, and the recorded list is the
      first occurrence of every soft error met before the loop ended. */
  lemma LoopDedupsSoftErrors(c: Ctx)
    requires Valid(c)
    ensures var r := Loop(c, 0, Empty);
      && r.st.errs == Elements(r.st.allErrs)
      && NoDup(r.st.allErrs)
      && r.st.allErrs == Dedup(SoftErrors(c, FirstBadFrom(c, 0)))
  {
    LoopMatchesReference(c);
  }

  /** Two infos that carry the same soft error record it once. */
  lemma SameSoftErrorRecordedOnce(o: Options, a: Info, b: Info, e: Error, fetch: Fetch, project: Project, d: Defaults)
    ensures var c := Ctx(o, OptionsNamespace, [a, b], [Some(e), Some(e)], fetch, project, d);
      Loop(c, 0, Empty) == Outcome(St({e}, [e], [], []), None)
  {
    var c := Ctx(o, OptionsNamespace, [a, b], [Some(e), Some(e)], fetch, project, d);
    var once := St({e}, [e], [], []);
    assert Step(c, 0, Empty) == Outcome(once, None);
    assert Step(c, 1, once) == Outcome(once, None);
    assert Loop(c, 2, once) == Outcome(once, None);
    assert Loop(c, 1, once) == Outcome(once, None);
  }

  lemma RunCtxPending(o: Options, scope: Scope, located: Located, fetch: Fetch, d: Defaults)
    requires located.infosErr.None?
    ensures var c := RunCtx(o, scope, located, fetch, d);
      forall j :: 0 <= j < |c.infos| ==> c.pending[j].None?
  {
  }

  lemma {:induction false} NothingSkipped(c: Ctx, n: nat)
    requires Valid(c) && n <= |c.infos| && GoodBefore(c, n)
    requires forall j :: 0 <= j < |c.infos| ==> c.pending[j].None?
    ensures |Summaries(c, n)| == n
    ensures forall j :: 0 <= j < n ==> Summaries(c, n)[j] == Summary(c, j)
    decreases n
  {
    if n > 0 {
      NothingSkipped(c, n - 1);
    }
  }

  lemma {:induction false} FetchedEvery(c: Ctx, n: nat)
    requires Valid(c) && n <= |c.infos|
    requires forall j :: 0 <= j < |c.infos| ==> c.pending[j].None?
    ensures SoftErrors(c, n) == []
    ensures |FetchedKeys(c, n)| == n
    ensures forall j :: 0 <= j < n ==> FetchedKeys(c, n)[j] == KeyOf(c.o, c.scope, c.infos[j])
    decreases n
  {
    if n > 0 {
      FetchedEvery(c, n - 1);
    }
  }

  /** A run whose every fetch and projection succeed prints one summary per
      located info, in order, fetches each exactly once, in order, and
      returns nil. */
  lemma RunAllSucceed(o: Options, scope: Scope, located: Located, fetch: Fetch, d: Defaults)
    requires located.err.None? && located.infosErr.None?
    requires GoodBefore(RunCtx(o, scope, located, fetch, d), |located.infos|)
    ensures var c := RunCtx(o, scope, located, fetch, d);
      var r := RunWith(o, scope, located, fetch, d);
      && r.ret == Nil
      && |r.printed| == |located.infos|
      && (forall j :: 0 <= j < |located.infos| ==> r.printed[j] == Summary(c, j))
      && |r.fetched| == |located.infos|
      && (forall j :: 0 <= j < |located.infos| ==> r.fetched[j] == KeyOf(o, scope, located.infos[j]))
  {
    var c := RunCtx(o, scope, located, fetch, d);
    RunCtxPending(o, scope, located, fetch, d);
    LoopMatchesReference(c);
    FirstBadIs(c, |c.infos|);
    NothingSkipped(c, |c.infos|);
    FetchedEvery(c, |c.infos|);
  }

  lemma FirstBadIs(c: Ctx, i: nat)
    requires Valid(c) && i <= |c.infos| && GoodBefore(c, i)
    requires i < |c.infos| ==> !Good(c, i)
    ensures FirstBadFrom(c, 0) == i
  {
  }

  /** With no soft errors, the loop stopped by info `i` has recorded none,
      printed the summaries before `i` and fetched up to `i`. */
  lemma LoopStopsAtFirstBad(c: Ctx, i: nat)
    requires Valid(c) && i < |c.infos| && GoodBefore(c, i) && !Good(c, i)
    requires forall j :: 0 <= j < |c.infos| ==> c.pending[j].None?
    ensures Loop(c, 0, Empty) == Outcome(St({}, [], Summaries(c, i), FetchedKeys(c, i + 1)), Some(AbortAt(c, i)))
  {
    LoopMatchesReference(c);
    FirstBadIs(c, i);
    FetchedEvery(c, i);
    assert Dedup([]) == [];
    assert Elements([]) == {};
  }

  lemma FinishStopsAtFirstBad(c: Ctx, i: nat)
    requires Valid(c) && i < |c.infos| && GoodBefore(c, i) && !Good(c, i)
    requires forall j :: 0 <= j < |c.infos| ==> c.pending[j].None?
    ensures var r := Finish(c);
      && r.ret == AbortAt(c, i)
      && r.errOut == []
      && |r.printed| == i
      && (forall j :: 0 <= j < i ==> r.printed[j] == Summary(c, j))
      && |r.fetched| == i + 1
      && (forall j :: 0 <= j <= i ==> r.fetched[j] == KeyOf(c.o, c.scope, c.infos[j]))
  {
    LoopStopsAtFirstBad(c, i);
    NothingSkipped(c, i);
    FetchedEvery(c, i + 1);
  }

  /** When info `i` is the first whose fetch or projection fails, the run
      returns that fetch error or panic, has printed the summaries of infos
      `0..i-1` in order, and has fetched infos `0..i` and nothing after. */
  lemma RunStopsAtFirstFailure(o: Options, scope: Scope, located: Located, fetch: Fetch, d: Defaults, i: nat)
    requires located.err.None? && located.infosErr.None?
    requires i < |located.infos|
    requires GoodBefore(RunCtx(o, scope, located, fetch, d), i)
    requires !Good(RunCtx(o, scope, located, fetch, d), i)
    ensures var c := RunCtx(o, scope, located, fetch, d);
      var r := RunWith(o, scope, located, fetch, d);
      && r.ret == AbortAt(c, i)
      && r.errOut == []
      && |r.printed| == i
      && (forall j :: 0 <= j < i ==> r.printed[j] == Summary(c, j))
      && |r.fetched| == i + 1
      && (forall j :: 0 <= j <= i ==> r.fetched[j] == KeyOf(o, scope, located.infos[j]))
  {
    var c := RunCtx(o, scope, located, fetch, d);
    RunCtxPending(o, scope, located, fetch, d);
    FinishStopsAtFirstBad(c, i);
  }

  /** The soft-error branch is dead in the source: the error it checks has
      already ended the run, so a run never returns an aggregate. */
  lemma RunNeverAggregates(o: Options, scope: Scope, located: Located, fetch: Fetch, d: Defaults)
    ensures !RunWith(o, scope, located, fetch, d).ret.Aggregate?
  {
    if located.err.None? && located.infosErr.None? {
      var c := RunCtx(o, scope, located, fetch, d);
      LoopMatchesReference(c);
      RunCtxPending(o, scope, located, fetch, d);
      FetchedEvery(c, FirstBadFrom(c, 0));
    }
  }

  /** "No resources found" is written exactly when the builder located
      nothing and reported no error; it names the namespace unless the
      run spans all namespaces. */
  lemma NoResourcesIff(o: Options, scope: Scope, located: Located, fetch: Fetch, d: Defaults)
    ensures var r := RunWith(o, scope, located, fetch, d);
      r.errOut != [] <==> located.err.None? && located.infosErr.None? && |located.infos| == 0
    ensures var r := RunWith(o, scope, located, fetch, d);
      r.errOut != [] ==> r.errOut == [NoResourcesMessage(o)] && r.ret == Nil && r.printed == [] && r.fetched == []
    ensures o.allNamespaces ==> NoResourcesMessage(o) == "No resources found"
    ensures !o.allNamespaces ==> NoResourcesMessage(o) == "No resources found in " + o.namespace + " namespace."
  {
  }

  /** An error from the builder, or from listing its infos, is returned
      before anything is fetched or printed. */
  lemma BuilderErrorReturnedFirst(o: Options, scope: Scope, located: Located, fetch: Fetch, d: Defaults)
    requires located.err.Some? || located.infosErr.Some?
    ensures var r := RunWith(o, scope, located, fetch, d);
      && r.ret == Returned(if located.err.Some? then located.err.value else located.infosErr.value)
      && r.printed == [] && r.fetched == [] && r.errOut == []
  {
  }

  /** Every summary carries the playground defaults, the located namespace
      and name, the engine default and the fixed storage size, none of them
      read from the document. */
  lemma SummaryCarriesIdentity(c: Ctx, j: nat)
    requires Valid(c) && Builds(c) && j < |c.infos| && Good(c, j) && c.pending[j].None?
    ensures var s := Summary(c, j);
      && s.rootUser == c.d.rootUser && s.dbPort == c.d.port
      && s.engine == c.d.engine && s.storage == StorageSize
      && s.dbNamespace == c.infos[j].namespace && s.dbCluster == c.infos[j].name
  {
    var info := c.infos[j];
    var obj := c.fetch(KeyOf(c.o, c.scope, info)).value;
    assert c.project(obj, Base(c.d, info.namespace, info.name)) == BuildClusterInfo(obj, Base(c.d, info.namespace, info.name), c.d);
  }

  lemma {:induction false} FetchedKeysScope(c: Ctx, n: nat)
    requires Valid(c) && n <= |c.infos|
    ensures c.scope == OptionsNamespace ==> forall x :: x in FetchedKeys(c, n) ==> x.namespace == c.o.namespace
    ensures c.scope == InfoNamespace ==> forall x :: x in FetchedKeys(c, n) ==>
      exists j :: 0 <= j < n && x == FetchKey(c.infos[j].resource, c.infos[j].namespace, c.infos[j].name)
    decreases n
  {
    if n > 0 {
      FetchedKeysScope(c, n - 1);
    }
  }

  lemma RunFetched(o: Options, scope: Scope, located: Located, fetch: Fetch, d: Defaults)
    ensures var r := RunWith(o, scope, located, fetch, d);
      var c := RunCtx(o, scope, located, fetch, d);
      r.fetched == [] || exists n :: 0 <= n <= |c.infos| && r.fetched == FetchedKeys(c, n)
  {
    if located.err.None? && located.infosErr.None? {
      var c := RunCtx(o, scope, located, fetch, d);
      LoopMatchesReference(c);
      var i := FirstBadFrom(c, 0);
      if i < |c.infos| {
        assert RunWith(o, scope, located, fetch, d).fetched == FetchedKeys(c, i + 1);
      } else {
        assert RunWith(o, scope, located, fetch, d).fetched == FetchedKeys(c, i);
      }
    }
  }

  /** As written, every `Get` goes to the command's namespace, whichever
      namespace the builder located the resource in. */
  lemma RunFetchesFromOptionsNamespace(o: Options, located: Located, fetch: Fetch, d: Defaults)
    ensures forall x :: x in Run(o, located, fetch, d).fetched ==> x.namespace == o.namespace
  {
    RunFetched(o, OptionsNamespace, located, fetch, d);
    var c := RunCtx(o, OptionsNamespace, located, fetch, d);
    forall n | 0 <= n <= |c.infos| {
      FetchedKeysScope(c, n);
    }
  }

  /** Corrected, every `Get` asks for a located resource in the namespace
      it was located in. */
  lemma RunCorrectedFetchesLocatedResources(o: Options, located: Located, fetch: Fetch, d: Defaults)
    ensures forall x :: x in RunCorrected(o, located, fetch, d).fetched ==>
      exists j :: 0 <= j < |located.infos| &&
        x == FetchKey(located.infos[j].resource, located.infos[j].namespace, located.infos[j].name)
  {
    RunFetched(o, InfoNamespace, located, fetch, d);
    var c := RunCtx(o, InfoNamespace, located, fetch, d);
    forall n | 0 <= n <= |c.infos| {
      FetchedKeysScope(c, n);
    }
  }

  /** A resource located in another namespace under all-namespaces is
      fetched from the command's namespace as written, and from its own
      namespace when corrected. */
  lemma AllNamespacesFetchesWrongNamespace(fetch: Fetch, d: Defaults)
    ensures var o := Options("default", false, true, ["dbcluster", "c1"], true);
      var located := Located(None, [Info("prod", "c1", "dbclusters")], None);
      && Run(o, located, fetch, d).fetched == [FetchKey("dbclusters", "default", "c1")]
      && RunCorrected(o, located, fetch, d).fetched == [FetchKey("dbclusters", "prod", "c1")]
  {
    var o := Options("default", false, true, ["dbcluster", "c1"], true);
    var located := Located(None, [Info("prod", "c1", "dbclusters")], None);
    FetchesTheOneInfo(RunCtx(o, OptionsNamespace, located, fetch, d));
    FetchesTheOneInfo(RunCtx(o, InfoNamespace, located, fetch, d));
  }

  /** With a single located info and no soft error, the run makes exactly
      that info's `Get`, whether it then succeeds or aborts. */
  lemma FetchesTheOneInfo(c: Ctx)
    requires Valid(c) && |c.infos| == 1 && c.pending[0].None?
    ensures Finish(c).fetched == [KeyOf(c.o, c.scope, c.infos[0])]
  {
    LoopMatchesReference(c);
    assert FetchedKeys(c, 1) == [KeyOf(c.o, c.scope, c.infos[0])];
  }

  lemma {:induction false} ScopesAgreeLoop(c: Ctx, k: nat, st: St)
    requires Valid(c) && k <= |c.infos|
    requires forall j :: 0 <= j < |c.infos| ==> c.infos[j].namespace == c.o.namespace
    ensures Loop(c, k, st) == Loop(c.(scope := InfoNamespace), k, st)
    decreases |c.infos| - k
  {
    if k < |c.infos| {
      var c' := c.(scope := InfoNamespace);
      assert KeyOf(c.o, c.scope, c.infos[k]) == KeyOf(c'.o, c'.scope, c'.infos[k]);
      assert Step(c, k, st) == Step(c', k, st);
      ScopesAgreeLoop(c, k + 1, Step(c, k, st).st);
    }
  }

  /** When every located resource lives in the command's namespace (the
      builder's default when all-namespaces is off), the run as written and
      the corrected run agree. */
  lemma RunAgreesWithCorrectedInOwnNamespace(o: Options, located: Located, fetch: Fetch, d: Defaults)
    requires forall j :: 0 <= j < |located.infos| ==> located.infos[j].namespace == o.namespace
    ensures Run(o, located, fetch, d) == RunCorrected(o, located, fetch, d)
  {
    var c := RunCtx(o, OptionsNamespace, located, fetch, d);
    assert c.(scope := InfoNamespace) == RunCtx(o, InfoNamespace, located, fetch, d);
    ScopesAgreeLoop(c, 0, Empty);
  }
}
