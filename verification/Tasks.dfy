/** The Celery task around one run: which ends make it send its message again. */
module Tasks {
  import opened Domain
  import opened RowParsing
  import opened Workbook
  import opened Database
  import opened Lifecycle
  import opened Journal
  import opened Undisturbed
  import opened RunJournal
  import opened ProcessImport
  import J = ImportJobs

  /**
   * How the message ends. It is acknowledged, unless it is rejected because its retry could not be sent; then it
   * is dead-lettered. `Resent` is a new message.
   */
  datatype TaskEnd = Succeeded | Resent(retries: nat) | Rejected | RetriesExceeded | Failed

  /** What Celery does with the message of a run that asks for a retry, as the protocol has it. */
  function Parting(end: TaskEnd): Exit {
    match end
    case Resent(_) => MessageResent
    case Rejected => MessageRejected
    case _ => RetriesUsedUp
  }

  /** The journal's last entry, which ends the worker's part. */
  lemma PartingLog(c: Config, log: Log, v: View, end: TaskEnd) returns (log': Log)
    requires Kept(c, log, v) && v.place.In? && (v.place.phase.Delivered? || v.place.phase.Requeued?)
    requires v.place.phase.Delivered? ==> IntakeFault(c, log.me, v) == Some(DatabaseFault)
    requires end.Resent? || end.Rejected? || end.RetriesExceeded?
    requires end.RetriesExceeded? <==> !MayRetry(c, log.me.message)
    requires end.Rejected? <==> Unsendable(c, log.me, v)
    ensures Continues(c, log, log', v.(place := Out(Parting(end))))
  {
    hide Kept, Continues, IntakeFault;
    if v.place.phase.Delivered? {
      log' := IntakeLog(c, log, v, if end.Rejected? then RetryBeforeClaimRejected else DatabaseErrorBeforeClaim);
    } else {
      log' := EndingLog(c, log, v, if end.Rejected? then ResendRejected else Resend);
    }
  }

  /** An error before the claim that asks for no retry. */
  lemma FailedLog(c: Config, log: Log, v: View) returns (log': Log)
    requires Kept(c, log, v)
    requires v.place.In? ==> v.place == In(Delivered) && IntakeFault(c, log.me, v) == Some(OtherFault)
    ensures Continues(c, log, log', v.(place := if v.place.In? then Out(IntakeFailed) else v.place))
  {
    hide Kept, IntakeFault;
    if v.place.In? {
      log' := IntakeLog(c, log, v, OtherErrorBeforeClaim);
    } else {
      log' := log;
    }
  }

  /** Where the delivery leaves the worker, by how the run and its message end. */
  predicate Parts(run: RunEnd, end: TaskEnd, place: Place) {
    match run
    case RetryRequested => place == Out(Parting(end))
    case Escaped => place == Out(IntakeFailed) || place == Out(HandlerRaised) || place == Out(ClaimLost)
    case _ => place.Out? && LeavesMessage(run, place)
  }

  /**
   * The message of a run that asks for a retry is sent again exactly when its retries allow it, or rejected if
   * it cannot be sent; no other message is. The import is then pending with an attempt left, or untouched.
   *
   * The journal leads from the delivery of the message until the worker is done with it, if the setting is still
   * the maximum that the import was created with. Among others that keep to the lifecycle, from whatever state of the
   * protocol they know the tables to show, the delivery is then a run of the protocol, and counters and tables agree.
   */
  method ProcessImportTask(session: Session, adapters: Adapters, parser: XlsxParser, id: ImportId, worker: string,
                           token: Token, retries: nat, maxAttempts: nat, ghost c: Config, ghost me: Me,
                           ghost s: State, ghost knows: (State, View) -> bool)
    returns (end: TaskEnd, ghost run: RunEnd, ghost log: Log, ghost place: Place)
    requires session.Valid() && !session.OwnedBy(id, token)
    requires WorksOn(c, adapters, id, parser)
    requires id in session.jobs ==> session.jobs[id].maxAttempts == c.maxAttempts
    requires me.token == token && me.message.retries == retries
    requires me.world == session.world && me.name == worker
    modifies session
    ensures log.me == me && log.start == old(Seen(session, In(Delivered)))
    ensures c.maxAttempts == maxAttempts ==> Kept(c, log, Seen(session, place)) && Parts(run, end, place)
    ensures (&& c.maxAttempts == maxAttempts
             && 1 <= c.maxAttempts && 1 <= c.outboxMaxAttempts && |c.delays| == 4
             && Lawful(c, me, knows) && Situation(c, me, knows, s, old(Seen(session, In(Delivered))))) ==>
              && (exists others, states :: IsARun(c, log, s, Seen(session, place), others, states))
              && CountersMatch(c, Seen(session, place))
    ensures run.RetryRequested? ==>
              end == if retries + 1 > maxAttempts - 1 then RetriesExceeded
                     else if session.world.unsent(session.turn) then Rejected else Resent(retries + 1)
    ensures run.RetryRequested? ==>
              session.jobs == old(session.jobs) || (id in session.jobs && J.Claimable(session.jobs[id]))
    ensures run.Escaped? <==> end == Failed
    ensures !run.RetryRequested? && !run.Escaped? <==> end == Succeeded
    ensures run.NotClaimed? ==>
              && session.jobs == old(session.jobs) && session.shipments == old(session.shipments)
              && session.errors == old(session.errors)
    ensures Kind(session.world, id, token) && old(Takable(c, me, Seen(session, In(Delivered)))) ==>
              run.Finished? && end == Succeeded
    ensures run.Finished? ==> id in session.jobs && session.jobs[id].status == J.COMPLETED
    ensures run.EndedFailed? ==>
              && id in session.jobs && session.jobs[id].status == J.FAILED
              && session.jobs[id].failureReason == Some(run.reason)
  {
    hide Kept, WorksOn, Kind, Lawful, Situation, IsARun, CountersMatch, Configured, IntakeFault;
    var service := new ProcessImportService(session, adapters, worker);
    var ended, log', place' := service.Run(id, parser, token, c, me);
    run := ended;
    if ended.Escaped? {
      end := Failed;
      log := FailedLog(c, log', Seen(session, place'));
      place := if place'.In? then Out(IntakeFailed) else place';
    } else if !ended.RetryRequested? {
      end, log, place := Succeeded, log', place';
    } else {
      end := if retries + 1 > maxAttempts - 1 then RetriesExceeded
             else if session.world.unsent(session.turn) then Rejected else Resent(retries + 1);
      log, place := log', Out(Parting(end));
      if c.maxAttempts == maxAttempts {
        log := PartingLog(c, log', Seen(session, place'), end);
      }
    }
    if 1 <= c.maxAttempts && 1 <= c.outboxMaxAttempts && |c.delays| == 4 {
      WorkbookIsConfigured(c, adapters, id, parser);
    }
    DeliveryLog(c, log, Seen(session, place), s, knows, c.maxAttempts == maxAttempts);
  }

  /** Among lawful others, the delivery just journalled is a run. */
  lemma DeliveryLog(c: Config, log: Log, v: View, s: State, knows: (State, View) -> bool, kept: bool)
    requires kept ==> Kept(c, log, v)
    ensures kept && Configured(c) && Lawful(c, log.me, knows) && Situation(c, log.me, knows, s, log.start) ==>
              (exists others, states :: IsARun(c, log, s, v, others, states)) && CountersMatch(c, v)
  {
    hide *;
    if kept && Configured(c) && Lawful(c, log.me, knows) && Situation(c, log.me, knows, s, log.start) {
      var others, states := DeliveryIsARun(c, log, v, s, knows);
    }
  }
}
