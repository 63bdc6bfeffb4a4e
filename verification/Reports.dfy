/** The pipeline's word over whole runs: an epoch's status is what the last accepted delivery for
    its pipeline said, and approvals and grants are given on that word alone. */
module Reports {
  import opened Text
  import opened Identities
  import opened Ledgers
  import opened Workflow
  import opened Moves
  import opened Invariants
  import opened Effects
  import Policy
  import Schemas

  /** This request delivers a report that is taken, on the pipeline of this epoch. */
  predicate ReportsOn(cfg: Config, s: State, r: Request, id: string) {
    && r.Webhook? && Taken(cfg, s, r.body) && Schemas.Lower(r.header) == "pipeline hook"
    && id in s.ledgers && s.ledgers[id].pipelineId == cfg.parse(r.body).id
  }

  datatype Report = Report(status: string, sha: string)

  /** The last accepted report on the epoch's pipeline since the epoch was created. */
  function LastReport(cfg: Config, rs: seq<Request>, id: string): Option<Report> {
    if rs == [] then None
    else
      var init, r := rs[..|rs| - 1], rs[|rs| - 1];
      if ReportsOn(cfg, Run(cfg, START, init), r, id)
      then Some(Report(cfg.parse(r.body).status, cfg.parse(r.body).sha))
      else LastReport(cfg, init, id)
  }

  /** The status that report stands for. */
  function StatusOf(report: Option<Report>, v: Identity): string {
    match report
    case None => "pending"
    case Some(Report(status, sha)) => if sha == v.commitSha then status else "sha_mismatch"
  }

  lemma {:induction false} NoReportBefore(cfg: Config, rs: seq<Request>, id: string)
    requires id !in Run(cfg, START, rs).ledgers
    ensures LastReport(cfg, rs, id) == None
  {
    hide Next;
    hide Taken;
    if rs != [] {
      var init, r := rs[..|rs| - 1], rs[|rs| - 1];
      if id in Run(cfg, START, init).ledgers {
        Stays(cfg, Run(cfg, START, init), r, id);
        assert false;
      }
      NoReportBefore(cfg, init, id);
    }
  }

  lemma Stays(cfg: Config, s: State, r: Request, id: string)
    requires id in s.ledgers
    ensures id in Next(cfg, s, r).ledgers && Next(cfg, s, r).ledgers[id].identity == s.ledgers[id].identity
  {
    hide Step;
    hide MoveOf;
    hide ApplyMove;
    hide Enabled;
    StepIsMove(cfg, s, r, id);
    MoveKeepsIdentity(cfg, id, s.ledgers[id], MoveOf(cfg, s, r, id));
  }

  /** Requests other than deliveries leave the status. */
  lemma StatusStays(cfg: Config, s: State, r: Request, id: string)
    requires id in s.ledgers && !r.Webhook?
    ensures id in Next(cfg, s, r).ledgers && Next(cfg, s, r).ledgers[id].pipelineStatus == s.ledgers[id].pipelineStatus
  {
    hide Step;
    hide ApplyMove;
    hide Enabled;
    hide Admit;
    hide ExecDecide;
    hide CallExecutor;
    hide IssueDecide;
    hide IssueToken;
    StepIsMove(cfg, s, r, id);
    MoveAppends(id, s.ledgers[id], MoveOf(cfg, s, r, id));
  }

  /** A new epoch is pending. */
  lemma NewIsPending(cfg: Config, s: State, r: Request, id: string)
    requires id !in s.ledgers && id in Next(cfg, s, r).ledgers
    ensures Next(cfg, s, r).ledgers[id].pipelineStatus == "pending"
  {
    hide Step;
    hide Schemas.ParseIdentity;
    hide Schemas.ParseText;
    StepCreates(cfg, s, r, id);
  }

  lemma DeliveryStatus(cfg: Config, s: State, body: string, header: string, id: string)
    requires id in s.ledgers
    ensures var r := Webhook(body, header);
            && id in Next(cfg, s, r).ledgers
            && Next(cfg, s, r).ledgers[id].pipelineStatus
               == if ReportsOn(cfg, s, r, id)
                  then StatusAfter(s.ledgers[id], cfg.parse(body).status, cfg.parse(body).sha)
                  else s.ledgers[id].pipelineStatus
  {
    if Taken(cfg, s, body) {
      TakesDelivery(cfg, s, body, header);
    } else {
      RefusesDelivery(cfg, s, body, header);
    }
    hide Step;
    hide TransitionEvents;
  }

  /** In every state of every run an epoch's status is "pending" or what the last accepted delivery
      for its pipeline reported, with any commit but the epoch's own a mismatch. */
  lemma {:induction false} StatusIsLastReport(cfg: Config, rs: seq<Request>, id: string)
    requires id in Run(cfg, START, rs).ledgers
    ensures var l := Run(cfg, START, rs).ledgers[id];
            l.pipelineStatus == StatusOf(LastReport(cfg, rs, id), l.identity)
  {
    hide Next;
    hide Taken;
    assert rs != [];
    var init, r := rs[..|rs| - 1], rs[|rs| - 1];
    var s := Run(cfg, START, init);
    if id !in s.ledgers {
      NoReportBefore(cfg, init, id);
      NewIsPending(cfg, s, r, id);
    } else {
      StatusIsLastReport(cfg, init, id);
      Stays(cfg, s, r, id);
      if r.Webhook? {
        DeliveryStatus(cfg, s, r.body, r.header, id);
      } else {
        StatusStays(cfg, s, r, id);
      }
    }
  }

  /** Every approval and every grant is given while the last accepted report on the epoch's pipeline
      was success, for the epoch's own commit. */
  lemma GivenOnSuccess(cfg: Config, rs: seq<Request>, r: Request, id: string)
    requires id in Run(cfg, START, rs).ledgers && id in Next(cfg, Run(cfg, START, rs), r).ledgers
    requires var l, l' := Run(cfg, START, rs).ledgers[id], Next(cfg, Run(cfg, START, rs), r).ledgers[id];
             l'.approval != l.approval || l'.grants != l.grants
    ensures LastReport(cfg, rs, id) == Some(Report("success", Run(cfg, START, rs).ledgers[id].identity.commitSha))
  {
    hide Run;
    hide LastReport;
    StatusIsLastReport(cfg, rs, id);
    GivenVerified(cfg, Run(cfg, START, rs), r, id);
  }

  lemma GivenVerified(cfg: Config, s: State, r: Request, id: string)
    requires id in s.ledgers && id in Next(cfg, s, r).ledgers
    requires Next(cfg, s, r).ledgers[id].approval != s.ledgers[id].approval
             || Next(cfg, s, r).ledgers[id].grants != s.ledgers[id].grants
    ensures s.ledgers[id].pipelineStatus == "success"
  {
    hide Step;
    hide MoveOf;
    hide CallExecutor;
    hide AdmittedContext;
    hide Policy.EvaluatePolicy;
    StepIsMove(cfg, s, r, id);
    var m := MoveOf(cfg, s, r, id);
    assert m.Bless? || m.GrantTo?;
  }
}
