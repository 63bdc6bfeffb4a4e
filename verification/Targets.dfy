/** The targets over whole runs: what the database and the Go executor hold, and what the
    comparisons against them can show. */
module Targets {
  import opened Text
  import opened Identities
  import opened Comparison
  import opened Ledgers
  import opened Workflow
  import opened Invariants
  import opened History
  import Boundary
  import Schemas

  /** A target as an observation can name it. */
  ghost predicate NamesTarget(v: Identity) {
    Schemas.IsEnvironment(v.environment)
  }

  /** Every target row is held under its own project and environment, in the database and in the
      executor's store, and every update under way names a target. */
  ghost predicate TargetsInv(s: State) {
    && (forall name :: name in s.live ==>
          name == (s.live[name].project, s.live[name].environment) && NamesTarget(s.live[name]))
    && Boundary.HeldByKey(s.store)
    && (forall v :: v in s.undelivered ==> NamesTarget(v))
  }

  lemma NoNulInName(v: Identity)
    requires NamesTarget(v)
    ensures '\U{0}' !in v.environment
  {
    Schemas.EnvironmentPlain(v.environment);
    Schemas.PlainFacts(Go, v.environment);
  }

  lemma PutKeepsKeys(targets: Boundary.Targets, v: Identity)
    requires Boundary.HeldByKey(targets) && NamesTarget(v)
    ensures Boundary.HeldByKey(targets[Boundary.TargetKey(v) := v])
  {
    NoNulInName(v);
    hide NamesTarget;
    hide Boundary.TargetKey;
  }

  lemma PublishKeeps(cfg: Config, s: State, v: Identity, delivered: bool)
    requires TargetsInv(s) && NamesTarget(v)
    ensures TargetsInv(Publish(cfg, s, v, delivered).0)
  {
    hide NamesTarget;
    hide Boundary.TargetKey;
    PutKeepsKeys(s.store, v);
    hide Boundary.HeldByKey;
  }

  lemma DeliverKeeps(s: State, v: Identity)
    requires TargetsInv(s)
    ensures TargetsInv(StepDeliver(s, v).0)
  {
    hide NamesTarget;
    hide Boundary.TargetKey;
    if v in s.undelivered {
      PutKeepsKeys(s.store, v);
    }
    hide Boundary.HeldByKey;
  }

  lemma DriftKeeps(cfg: Config, s: State, id: string, f: Field, value: string, delivered: bool)
    requires TargetsInv(s)
    ensures TargetsInv(StepDrift(cfg, s, id, f, value, delivered).0)
  {
    hide Schemas.ParseText;
    hide Boundary.TargetKey;
    hide Publish;
    var text := Schemas.ParseText(value, 1, 256);
    if text.Some? && id in s.ledgers && f != Project && f != Environment && LiveOf(s, s.ledgers[id].identity).Some? {
      PublishKeeps(cfg, s, Set(LiveOf(s, s.ledgers[id].identity).value, f, text.value), delivered);
    }
  }

  lemma OthersLeaveTargets(cfg: Config, s: State, r: Request)
    requires !r.Observe? && !r.Drift? && !r.Deliver? && !r.RestartExecutor?
    ensures var s' := Next(cfg, s, r);
            s'.live == s.live && s'.store == s.store && s'.undelivered == s.undelivered
  {
    hide Schemas.ParseIdentity;
    hide Schemas.ParseText;
    hide Schemas.IsAction;
    hide Admit;
    hide IssueDecide;
    hide IssueWrite;
    hide IssueToken;
    hide ExecDecide;
    hide Answer;
    hide ApproveDecide;
    hide NewLedger;
    hide HookAll;
    hide IsPipelineHook;
  }

  lemma StepKeepsTargets(cfg: Config, s: State, r: Request)
    requires TargetsInv(s)
    ensures TargetsInv(Next(cfg, s, r))
  {
    hide Schemas.ParseIdentity;
    hide TargetsInv;
    hide Publish;
    hide StepDeliver;
    hide StepDrift;
    match r
    case Observe(raw, delivered) =>
      if Schemas.ParseIdentity(raw).Some? {
        Schemas.ParsedIsValid(raw);
        PublishKeeps(cfg, s, Schemas.ParseIdentity(raw).value, delivered);
      }
    case Drift(id, f, value, delivered) => DriftKeeps(cfg, s, id, f, value, delivered);
    case Deliver(v) => DeliverKeeps(s, v);
    case RestartExecutor => RestartKeeps(s);
    case _ =>
      OthersLeaveTargets(cfg, s, r);
      SameTargets(s, Next(cfg, s, r));
  }

  lemma RestartKeeps(s: State)
    requires TargetsInv(s)
    ensures TargetsInv(s.(store := map[]))
  {
  }

  lemma SameTargets(s: State, s': State)
    requires TargetsInv(s) && s'.live == s.live && s'.store == s.store && s'.undelivered == s.undelivered
    ensures TargetsInv(s')
  {
  }

  /** In every run every target is held under its own name, in the database and in the executor. */
  lemma {:induction false} RunKeepsTargets(cfg: Config, rs: seq<Request>)
    ensures TargetsInv(Run(cfg, START, rs))
  {
    if rs != [] {
      RunKeepsTargets(cfg, rs[..|rs| - 1]);
      StepKeepsTargets(cfg, Run(cfg, START, rs[..|rs| - 1]), rs[|rs| - 1]);
    }
  }

  // ---------------------------------------------------------------- the last one delivered

  /** The target a drift request would set, if it gets that far. */
  function Drifted(s: State, id: string, f: Field, value: string): Option<Identity> {
    var text := Schemas.ParseText(value, 1, 256);
    if text.None? || id !in s.ledgers || f == Project || f == Environment || LiveOf(s, s.ledgers[id].identity).None?
    then None
    else Some(Set(LiveOf(s, s.ledgers[id].identity).value, f, text.value))
  }

  /** The observation that reaches the Go executor with this request. */
  function DeliveredBy(cfg: Config, s: State, r: Request): Option<Identity> {
    match r
    case Observe(raw, true) => if cfg.mode == GoBoundary then Schemas.ParseIdentity(raw) else None
    case Drift(id, f, value, true) => if cfg.mode == GoBoundary then Drifted(s, id, f, value) else None
    case Deliver(v) => if v in s.undelivered then Some(v) else None
    case _ => None
  }

  /** The observations that reached the executor since it last started. */
  function Delivered(cfg: Config, rs: seq<Request>): seq<Identity> {
    if rs == [] then []
    else
      var init, r := rs[..|rs| - 1], rs[|rs| - 1];
      var v := DeliveredBy(cfg, Run(cfg, START, init), r);
      if r.RestartExecutor? then []
      else if v.Some? then Delivered(cfg, init) + [v.value]
      else Delivered(cfg, init)
  }

  function StoreAfter(store: Boundary.Targets, r: Request, v: Option<Identity>): Boundary.Targets {
    if r.RestartExecutor? then map[]
    else if v.Some? then store[Boundary.TargetKey(v.value) := v.value]
    else store
  }

  lemma StoreStep(cfg: Config, s: State, r: Request)
    ensures Next(cfg, s, r).store == StoreAfter(s.store, r, DeliveredBy(cfg, s, r))
  {
    hide Schemas.ParseIdentity;
    hide Schemas.ParseText;
    hide Boundary.TargetKey;
    if r.Observe? || r.Drift? || r.Deliver? || r.RestartExecutor? {
    } else {
      hide Next;
      OthersLeaveTargets(cfg, s, r);
    }
  }

  lemma DeliveredNamesTarget(cfg: Config, s: State, r: Request)
    requires TargetsInv(s) && DeliveredBy(cfg, s, r).Some?
    ensures '\U{0}' !in DeliveredBy(cfg, s, r).value.environment
  {
    hide Schemas.ParseIdentity;
    hide Schemas.ParseText;
    if r.Observe? {
      Schemas.ParsedIsValid(r.raw);
    }
    NoNulInName(DeliveredBy(cfg, s, r).value);
  }

  lemma {:induction false} StoreIsDelivered(cfg: Config, rs: seq<Request>)
    ensures Run(cfg, START, rs).store == Boundary.PutAll(map[], Delivered(cfg, rs))
    ensures forall v :: v in Delivered(cfg, rs) ==> '\U{0}' !in v.environment
  {
    hide Next;
    hide DeliveredBy;
    hide Boundary.TargetKey;
    hide TargetsInv;
    if rs != [] {
      var init, r := rs[..|rs| - 1], rs[|rs| - 1];
      StoreIsDelivered(cfg, init);
      RunKeepsTargets(cfg, init);
      StoreStep(cfg, Run(cfg, START, init), r);
      var v := DeliveredBy(cfg, Run(cfg, START, init), r);
      if v.Some? && !r.RestartExecutor? {
        DeliveredNamesTarget(cfg, Run(cfg, START, init), r);
        assert (Delivered(cfg, init) + [v.value])[..|Delivered(cfg, init)|] == Delivered(cfg, init);
      }
    }
  }

  /** In every run the executor answers for a release with the last observation delivered, since
      it last started, of that release's trimmed project and environment. */
  lemma HeldIsLastDelivered(cfg: Config, rs: seq<Request>, e: Identity)
    requires '\U{0}' !in e.environment
    ensures Boundary.Lookup(Run(cfg, START, rs).store, e) == Boundary.LastOf(Delivered(cfg, rs), e)
  {
    hide Run;
    hide Delivered;
    hide Boundary.Lookup;
    StoreIsDelivered(cfg, rs);
    Boundary.LookupIsLastPut(Delivered(cfg, rs), e);
  }

  // ---------------------------------------------------------------- the last one committed

  /** The row this request commits to the database, delivered or not. */
  function CommittedBy(s: State, r: Request): Option<Identity> {
    match r
    case Observe(raw, _) => Schemas.ParseIdentity(raw)
    case Drift(id, f, value, _) => Drifted(s, id, f, value)
    case _ => None
  }

  /** The last observation or drift of exactly this project and environment. */
  function LastCommitted(cfg: Config, rs: seq<Request>, v: Identity): Option<Identity> {
    if rs == [] then None
    else
      var init, r := rs[..|rs| - 1], rs[|rs| - 1];
      var row := CommittedBy(Run(cfg, START, init), r);
      if row.Some? && row.value.project == v.project && row.value.environment == v.environment then row
      else LastCommitted(cfg, init, v)
  }

  lemma PublishLive(cfg: Config, s: State, v: Identity, delivered: bool)
    ensures Publish(cfg, s, v, delivered).0.live == s.live[(v.project, v.environment) := v]
  {
    hide Boundary.TargetKey;
  }

  lemma DriftLive(cfg: Config, s: State, id: string, f: Field, value: string, delivered: bool)
    ensures StepDrift(cfg, s, id, f, value, delivered).0.live
            == match Drifted(s, id, f, value)
               case None => s.live
               case Some(row) => s.live[(row.project, row.environment) := row]
  {
    hide Schemas.ParseText;
    hide Publish;
    hide Set;
    if Drifted(s, id, f, value).Some? {
      PublishLive(cfg, s, Drifted(s, id, f, value).value, delivered);
    }
  }

  /** A request touches the row it commits and no other. */
  lemma LiveStep(cfg: Config, s: State, r: Request)
    ensures Next(cfg, s, r).live
            == match CommittedBy(s, r)
               case None => s.live
               case Some(row) => s.live[(row.project, row.environment) := row]
  {
    hide Schemas.ParseIdentity;
    hide Publish;
    hide StepDrift;
    hide Drifted;
    hide Boundary.TargetKey;
    match r
    case Observe(raw, delivered) =>
      if Schemas.ParseIdentity(raw).Some? {
        PublishLive(cfg, s, Schemas.ParseIdentity(raw).value, delivered);
      }
    case Drift(id, f, value, delivered) => DriftLive(cfg, s, id, f, value, delivered);
    case Deliver(_) =>
    case RestartExecutor =>
    case _ =>
      OthersLeaveTargets(cfg, s, r);
      hide Step;
  }

  /** In every run the database's row for a project and environment is the last one committed for
      exactly that project and environment, and there is none before the first. */
  lemma {:induction false} LiveIsLastCommitted(cfg: Config, rs: seq<Request>, v: Identity)
    ensures LiveOf(Run(cfg, START, rs), v) == LastCommitted(cfg, rs, v)
  {
    hide Next;
    hide CommittedBy;
    if rs != [] {
      var init, r := rs[..|rs| - 1], rs[|rs| - 1];
      LiveIsLastCommitted(cfg, init, v);
      LiveStep(cfg, Run(cfg, START, init), r);
    }
  }

  // ---------------------------------------------------------------- what receipts report

  lemma ReleaseHasNoNul(cfg: Config, l: Ledger)
    requires Frozen(cfg, l)
    ensures '\U{0}' !in l.identity.environment
  {
    NoNulInName(l.identity);
  }

  /** Every receipt of the Go executor compares the frozen release with the last observation of its
      target that had reached the executor when the receipt was written. */
  lemma EveryReceiptAgainstLastDelivered(cfg: Config, rs: seq<Request>, id: string, k: nat)
    requires cfg.mode == GoBoundary
    requires id in Run(cfg, START, rs).ledgers && k < |Run(cfg, START, rs).ledgers[id].receipts|
    ensures exists i: nat :: Wrote(cfg, rs, i, id, k)
              && var last, l := Boundary.LastOf(Delivered(cfg, rs[..i]), Run(cfg, START, rs).ledgers[id].identity),
                                Run(cfg, START, rs).ledgers[id];
                 last.Some? && CheckedAgainst(cfg, l, l.receipts[k], last.value)
  {
    hide Run;
    hide Wrote;
    hide Delivered;
    hide Frozen;
    hide CheckedAgainst;
    hide Boundary.Lookup;
    hide Boundary.LastOf;
    var i, held := GoReceipt(cfg, rs, id, k);
    var l := Run(cfg, START, rs).ledgers[id];
    RunFrozen(cfg, rs, id);
    ReleaseHasNoNul(cfg, l);
    HeldIsLastDelivered(cfg, rs[..i], l.identity);
  }

  /** In process every receipt compares the frozen release with the last row committed for exactly
      its project and environment before the execution. */
  lemma EveryReceiptAgainstLastCommitted(cfg: Config, rs: seq<Request>, id: string, k: nat)
    requires cfg.mode == InProcess
    requires id in Run(cfg, START, rs).ledgers && k < |Run(cfg, START, rs).ledgers[id].receipts|
    ensures exists i: nat :: Wrote(cfg, rs, i, id, k)
              && var l := Run(cfg, START, rs).ledgers[id];
                 var last := LastCommitted(cfg, rs[..i], l.identity);
                 last.Some? && CheckedLocally(cfg, l, l.receipts[k], last.value)
  {
    hide Run;
    hide Wrote;
    hide LastCommitted;
    hide CheckedLocally;
    hide LiveOf;
    var i, row := LocalReceipt(cfg, rs, id, k);
    LiveIsLastCommitted(cfg, rs[..i], Run(cfg, START, rs).ledgers[id].identity);
  }

  /** With either executor, every receipt of every run reports at most three differences, each in
      the commit, the digest or the configuration. */
  lemma EveryReceiptOnlyContent(cfg: Config, rs: seq<Request>, id: string, k: nat)
    requires id in Run(cfg, START, rs).ledgers && k < |Run(cfg, START, rs).ledgers[id].receipts|
    ensures Boundary.OnlyContent(Run(cfg, START, rs).ledgers[id].receipts[k].result.differences)
  {
    hide Run;
    hide Wrote;
    hide Frozen;
    hide Boundary.Lookup;
    hide Boundary.OnlyContent;
    hide Diff;
    hide Fingerprint;
    hide Canonical;
    hide CanonicalText;
    hide CommonAlphabet;
    hide TargetsInv;
    var l := Run(cfg, START, rs).ledgers[id];
    match cfg.mode
    case GoBoundary =>
      var i, held := GoReceipt(cfg, rs, id, k);
      RunFrozen(cfg, rs, id);
      ReleaseHasNoNul(cfg, l);
      RunKeepsTargets(cfg, rs[..i]);
      StoreHeldByKey(Run(cfg, START, rs[..i]));
      Boundary.StoredDifferences(Run(cfg, START, rs[..i]).store, l.identity, held);
    case InProcess =>
      var i, row := LocalReceipt(cfg, rs, id, k);
      RunKeepsTargets(cfg, rs[..i]);
      RowNamed(Run(cfg, START, rs[..i]), l.identity, row);
      Boundary.ContentDifferences(Python, l.identity, row);
  }

  lemma StoreHeldByKey(s: State)
    requires TargetsInv(s)
    ensures Boundary.HeldByKey(s.store)
  {
  }

  lemma RowNamed(s: State, v: Identity, row: Identity)
    requires TargetsInv(s) && LiveOf(s, v) == Some(row)
    ensures row.project == v.project && row.environment == v.environment
  {
  }
}
