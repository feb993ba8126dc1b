/** What a deploy row's status says about the answers of its device. A result is handled by two
    statements (internal/storage/sqlite/commands.go, CommandResult), so a report is received
    first and resolved later, and other steps fall in between. */
module DeployReports {
  import opened DeployTables
  import opened DeployProtocol
  import opened DeploySafety
  import opened DeployContinuations
  import opened DeployProvenance

  // ---- every resolution was received ----

  /** Device d gave a terminal answer to command u. */
  predicate Speaks(e: Entry, d: DeviceId, u: Uuid) {
    e.Received? && e.device == d && e.uuid == u && Terminal(e.answer)
  }

  /** And the answer comes to st. */
  predicate Says(e: Entry, d: DeviceId, u: Uuid, st: Status) {
    Speaks(e, d, u) && VerdictOf(e.answer) == st
  }

  /** That happened before entry k. */
  predicate HeardBefore(log: seq<Entry>, k: int, d: DeviceId, u: Uuid, st: Status) {
    exists j :: 0 <= j < k && j < |log| && Says(log[j], d, u, st)
  }

  predicate EntryHeard(log: seq<Entry>, k: int)
    requires 0 <= k < |log|
  {
    log[k].Reported? ==> HeardBefore(log, k, log[k].device, log[k].uuid, log[k].status)
  }

  /** Every report, resolved or under way, was received from the device it names. */
  ghost predicate Heard(w: World) {
    && (forall k :: 0 <= k < |w.log| ==> EntryHeard(w.log, k))
    && (forall r :: r in w.reports ==> HeardBefore(w.log, |w.log|, r.device, r.uuid, r.status))
  }

  lemma HeardLater(log: seq<Entry>, log': seq<Entry>, k: int, d: DeviceId, u: Uuid, st: Status)
    requires log <= log' && HeardBefore(log, k, d, u, st)
    ensures HeardBefore(log', k, d, u, st) && HeardBefore(log', |log'|, d, u, st)
  {
    var j :| 0 <= j < k && j < |log| && Says(log[j], d, u, st);
    assert Says(log'[j], d, u, st);
  }

  lemma StepKeepsHeard(w: World, s: Step)
    requires Heard(w)
    ensures Heard(Apply(w, s))
  {
    var w' := Apply(w, s);
    StepGrowsLog(w, s);
    forall k | 0 <= k < |w'.log| ensures EntryHeard(w'.log, k) {
      if k < |w.log| {
        assert EntryHeard(w.log, k) && w'.log[k] == w.log[k];
        if w.log[k].Reported? { HeardLater(w.log, w'.log, k, w.log[k].device, w.log[k].uuid, w.log[k].status); }
      } else if w'.log[k].Reported? {
        ReportedComesFromResolve(w, s, k);
        HeardLater(w.log, w'.log, |w.log|, s.report.device, s.report.uuid, s.report.status);
      }
    }
    forall r | r in w'.reports ensures HeardBefore(w'.log, |w'.log|, r.device, r.uuid, r.status) {
      if r in w.reports {
        HeardLater(w.log, w'.log, |w.log|, r.device, r.uuid, r.status);
      } else {
        ReportComesFromReceive(w, s, r);
      }
    }
  }

  lemma ReportedComesFromResolve(w: World, s: Step, k: int)
    requires var log := Apply(w, s).log; |w.log| <= k < |log| && log[k].Reported?
    ensures s.Resolve? && s.report in w.reports && k == |w.log|
    ensures Apply(w, s).log[k] == Reported(s.report.device, s.report.uuid, s.report.status)
  {
  }

  lemma ReportComesFromReceive(w: World, s: Step, r: Report)
    requires r in Apply(w, s).reports && r !in w.reports
    ensures var log := Apply(w, s).log; HeardBefore(log, |log|, r.device, r.uuid, r.status)
  {
    var log := Apply(w, s).log;
    assert s.Receive? && r == Report(s.device, s.uuid, VerdictOf(s.answer));
    assert Says(log[|w.log|], r.device, r.uuid, r.status);
  }

  lemma {:induction false} RunKeepsHeard(w: World, steps: seq<Step>)
    requires Heard(w)
    ensures Heard(Run(w, steps))
    decreases |steps|
  {
    if steps != [] {
      StepKeepsHeard(w, steps[0]);
      RunKeepsHeard(Apply(w, steps[0]), steps[1..]);
    }
  }

  lemma ReceivedNow(w: World, s: Step, k: int)
    requires |w.log| <= k < |Apply(w, s).log| && Apply(w, s).log[k].Received?
    ensures var e := Apply(w, s).log[k]; s == Receive(e.device, e.uuid, e.answer, true) && Terminal(e.answer)
  {
  }

  /** What the history calls received is a step of the run: a terminal answer that got past
      the first statement. */
  lemma {:induction false} ReceivedIsAStep(w: World, steps: seq<Step>, k: int)
    requires |w.log| <= k < |Run(w, steps).log| && Run(w, steps).log[k].Received?
    ensures var e := Run(w, steps).log[k]; Receive(e.device, e.uuid, e.answer, true) in steps && Terminal(e.answer)
    decreases |steps|
  {
    assert steps != [];
    var w1, rest := Apply(w, steps[0]), steps[1..];
    LogGrows(w1, rest);
    if k < |w1.log| {
      ReceivedNow(w, steps[0], k);
    } else {
      ReceivedIsAStep(w1, rest, k);
    }
  }

  /** The answers that end a command. */
  predicate Settles(answer: Answer) {
    match answer
    case Acknowledged | Error | CommandFormatError => true
    case NotNow | OtherAnswer(_) => false
  }

  /** And every such step is on record: an answer that got past the first statement is received
      if and only if it is one of the three that end a command. */
  lemma {:induction false} EveryAnswerIsReceived(w: World, steps: seq<Step>, d: DeviceId, u: Uuid, answer: Answer)
    ensures Received(d, u, answer) in Run(w, steps).log
            <==> Received(d, u, answer) in w.log || (Settles(answer) && Receive(d, u, answer, true) in steps)
    decreases |steps|
  {
    if steps != [] {
      var w1, rest := Apply(w, steps[0]), steps[1..];
      EveryAnswerIsReceived(w1, rest, d, u, answer);
      ReceivedByStep(w, steps[0], Received(d, u, answer));
      assert Receive(d, u, answer, true) in steps <==>
             steps[0] == Receive(d, u, answer, true) || Receive(d, u, answer, true) in rest;
    }
  }

  lemma ReceivedByStep(w: World, s: Step, e: Entry)
    requires e.Received?
    ensures e in Apply(w, s).log
            <==> e in w.log || (Settles(e.answer) && s == Receive(e.device, e.uuid, e.answer, true))
  {
    var log := Apply(w, s).log;
    StepGrowsLog(w, s);
    if s == Receive(e.device, e.uuid, e.answer, true) && Settles(e.answer) {
      assert log == w.log + [e];
    }
    if e in log && e !in w.log {
      var k :| 0 <= k < |log| && log[k] == e;
      ReceivedNow(w, s, k);
    }
  }

  /** The device gave an answer to command u that comes to st. */
  ghost predicate Gave(steps: seq<Step>, d: DeviceId, u: Uuid, st: Status) {
    exists answer :: Terminal(answer) && VerdictOf(answer) == st && Receive(d, u, answer, true) in steps
  }

  lemma HeardIsAnswered(steps: seq<Step>, k: int, d: DeviceId, u: Uuid, st: Status)
    requires HeardBefore(Run(START, steps).log, k, d, u, st)
    ensures Gave(steps, d, u, st)
  {
    var log := Run(START, steps).log;
    var j :| 0 <= j < k && j < |log| && Says(log[j], d, u, st);
    ReceivedIsAStep(START, steps, j);
  }

  /** In every interleaving: a row shows installed or failed exactly as the last report of its
      own command resolved after the mark, sent if there was none; and it is installed only if
      its device acknowledged that very command, failed only if the device reported an error
      for it. */
  lemma StatusProvenance(steps: seq<Step>, i: int, d: DeviceId, p: int)
    requires Lawful(START, steps) && WrittenBy(Run(START, steps).log, i, d, p)
    ensures (d, p) in Run(START, steps).db.deploys
    ensures Tells(Run(START, steps).log, i, d, p, Run(START, steps).db.deploys[(d, p)])
    ensures var r := Run(START, steps).db.deploys[(d, p)];
            && (r.status.Installed? ==> Receive(d, r.uuid, Acknowledged, true) in steps)
            && (r.status.Failed? ==>
                  Receive(d, r.uuid, Error, true) in steps || Receive(d, r.uuid, CommandFormatError, true) in steps)
  {
    StatusFollowsResolution(steps, i, d, p);
    var w := Run(START, steps);
    var r := w.db.deploys[(d, p)];
    RunKeepsHeard(START, steps);
    if !r.status.Sent? {
      assert LastAnswer(w.log, i, d, r.uuid, r.status);
      var k :| 0 <= i < k < |w.log| && Answers(w.log[k], d, r.uuid) && w.log[k].status == r.status;
      assert EntryHeard(w.log, k);
      HeardIsAnswered(steps, k, d, r.uuid, r.status);
    }
  }

  // ---- the last answer since the mark ----

  /** The verdict of d's last received answer to command u since u was marked for it, or of
      its last answer at all if u was not; Sent if there is none. */
  function Word(log: seq<Entry>, d: DeviceId, u: Uuid): Status {
    if log == [] then Sent
    else
      var e := log[|log| - 1];
      if Speaks(e, d, u) then VerdictOf(e.answer)
      else if e.Marked? && e.device == d && e.uuid == u then Sent
      else Word(log[..|log| - 1], d, u)
  }

  lemma WordSnoc(log: seq<Entry>, e: Entry, d: DeviceId, u: Uuid)
    ensures Word(log + [e], d, u) ==
            if Speaks(e, d, u) then VerdictOf(e.answer)
            else if e.Marked? && e.device == d && e.uuid == u then Sent else Word(log, d, u)
  {
    assert (log + [e])[..|log|] == log;
  }

  /** The last answer received after entry i comes to st. */
  predicate LastHeard(log: seq<Entry>, i: int, d: DeviceId, u: Uuid, st: Status) {
    exists k :: 0 <= i < k < |log| && Says(log[k], d, u, st)
             && forall m :: k < m < |log| ==> !Speaks(log[m], d, u)
  }

  predicate NothingHeard(log: seq<Entry>, i: int, d: DeviceId, u: Uuid) {
    forall k :: 0 <= i < k < |log| ==> !Speaks(log[k], d, u)
  }

  /** Since the one mark of u, the word is the last answer heard. */
  lemma {:induction false} WordMeans(log: seq<Entry>, i: nat, d: DeviceId, u: Uuid)
    requires i < |log| && log[i].Marked? && log[i].device == d && log[i].uuid == u
    requires forall k :: i < k < |log| && log[k].Marked? ==> log[k].uuid != u
    ensures if Word(log, d, u).Sent? then NothingHeard(log, i, d, u) else LastHeard(log, i, d, u, Word(log, d, u))
    decreases |log|
  {
    var n := |log| - 1;
    var e := log[n];
    if n > i {
      if Speaks(e, d, u) {
        assert Says(log[n], d, u, VerdictOf(e.answer));
      } else {
        WordMeans(log[..n], i, d, u);
        WordCarries(log, i, d, u, Word(log, d, u));
      }
    }
  }

  /** An entry that says nothing of u leaves what was heard. */
  lemma WordCarries(log: seq<Entry>, i: nat, d: DeviceId, u: Uuid, st: Status)
    requires i < |log| - 1 && !Speaks(log[|log| - 1], d, u)
    ensures NothingHeard(log[..|log| - 1], i, d, u) ==> NothingHeard(log, i, d, u)
    ensures LastHeard(log[..|log| - 1], i, d, u, st) ==> LastHeard(log, i, d, u, st)
  {
    var most := log[..|log| - 1];
    if NothingHeard(most, i, d, u) {
      forall k | i < k < |log| ensures !Speaks(log[k], d, u) {
        if k < |most| { assert log[k] == most[k]; }
      }
    }
    if LastHeard(most, i, d, u, st) {
      var k :| 0 <= i < k < |most| && Says(most[k], d, u, st) && forall m :: k < m < |most| ==> !Speaks(most[m], d, u);
      assert Says(log[k], d, u, st);
      forall m | k < m < |log| ensures !Speaks(log[m], d, u) {
        if m < |most| { assert log[m] == most[m]; }
      }
    }
  }

  // ---- when a row shows it ----

  predicate Waiting(w: World, d: DeviceId, u: Uuid, st: Status) {
    Report(d, u, st) in w.reports
  }

  /** No report of command u by d is between its two statements. */
  predicate Quiet(w: World, d: DeviceId, u: Uuid) {
    forall st :: !Waiting(w, d, u, st)
  }

  predicate RowNames(w: World, k: (DeviceId, int), d: DeviceId, u: Uuid) {
    k in w.db.deploys && k.0 == d && w.db.deploys[k].uuid == u
  }

  /** Handling reports one at a time. A row is marked when no report of its command is under
      way. Once a row names the command, the only waiting report that comes to the last word is
      not resolved before one that does not, and not lost unless the row shows it already. */
  ghost predicate Prompt(w: World, s: Step) {
    match s
    case Mark(n, ok) =>
      ok && n in w.jobs && w.jobs[n].phase.Recorded? && w.jobs[n].todo != [] &&
          w.jobs[n].todo[0].id in w.db.profiles ==>
        Quiet(w, w.jobs[n].device, w.jobs[n].phase.uuid)
    case Resolve(r, ok) =>
      r in w.reports && w.reports[r] == 1 && r.status == Word(w.log, r.device, r.uuid) ==>
        forall k :: RowNames(w, k, r.device, r.uuid) ==>
          && (forall st :: st != r.status ==> !Waiting(w, r.device, r.uuid, st))
          && (ok || w.db.deploys[k].status == r.status)
    case _ => true
  }

  ghost predicate PromptRun(w: World, steps: seq<Step>)
    decreases |steps|
  {
    steps != [] ==> Legit(w, steps[0]) && Prompt(w, steps[0]) && PromptRun(Apply(w, steps[0]), steps[1..])
  }

  /** The row of k shows the last word on its command, or a report that comes to it waits. */
  predicate Settled(w: World, k: (DeviceId, int))
    requires k in w.db.deploys
  {
    var d, r := k.0, w.db.deploys[k];
    var word := Word(w.log, d, r.uuid);
    if Quiet(w, d, r.uuid) then r.status == word else !word.Sent? && Waiting(w, d, r.uuid, word)
  }

  ghost predicate AllSettled(w: World) {
    forall k :: k in w.db.deploys ==> Settled(w, k)
  }

  /** Nothing that bears on k changed. */
  lemma SettledStays(w: World, w': World, k: (DeviceId, int))
    requires k in w.db.deploys && k in w'.db.deploys && w'.db.deploys[k] == w.db.deploys[k] && Settled(w, k)
    requires Word(w'.log, k.0, w.db.deploys[k].uuid) == Word(w.log, k.0, w.db.deploys[k].uuid)
    requires forall st :: Waiting(w', k.0, w.db.deploys[k].uuid, st) <==> Waiting(w, k.0, w.db.deploys[k].uuid, st)
    ensures Settled(w', k)
  {
  }

  /** A step that neither marks nor receives nor resolves. */
  lemma OtherStepKeepsSettled(w: World, s: Step)
    requires AllSettled(w) && !s.Mark? && !s.Receive? && !s.Resolve?
    ensures AllSettled(Apply(w, s))
  {
    var w' := Apply(w, s);
    OtherStepLog(w, s);
    forall k | k in w'.db.deploys ensures Settled(w', k) {
      if w'.log != w.log { WordSnoc(w.log, w'.log[|w.log|], k.0, w'.db.deploys[k].uuid); }
      SettledStays(w, w', k);
    }
  }

  lemma OtherStepLog(w: World, s: Step)
    requires !s.Mark? && !s.Receive? && !s.Resolve?
    ensures var w' := Apply(w, s);
            && w'.reports == w.reports
            && (forall k :: k in w'.db.deploys ==> k in w.db.deploys && w'.db.deploys[k] == w.db.deploys[k])
            && (w'.log == w.log || (|w'.log| == |w.log| + 1 && w'.log == w.log + [w'.log[|w.log|]]
                                    && !w'.log[|w.log|].Marked? && !w'.log[|w.log|].Received?))
  {
  }

  lemma MarkKeepsSettled(w: World, n: int, ok: bool)
    requires AllSettled(w) && OneMark(w) && Traced(w) && Prompt(w, Mark(n, ok))
    ensures AllSettled(MarkStep(w, n, ok))
  {
    var w' := MarkStep(w, n, ok);
    if w' != w {
      var j := w.jobs[n];
      forall k | k in w'.db.deploys ensures Settled(w', k) {
        WordSnoc(w.log, w'.log[|w.log|], k.0, w'.db.deploys[k].uuid);
        if k in w.db.deploys && w'.db.deploys[k] == w.db.deploys[k] {
          assert RowTraced(w.log, k.0, k.1, w.db.deploys[k]);
          SettledStays(w, w', k);
        } else {
          assert w'.db.deploys[k].uuid == j.phase.uuid && k.0 == j.device;
          assert forall st :: Waiting(w', k.0, j.phase.uuid, st) <==> Waiting(w, k.0, j.phase.uuid, st);
        }
      }
    }
  }

  lemma ReceiveKeepsSettled(w: World, d: DeviceId, u: Uuid, answer: Answer, ok: bool)
    requires AllSettled(w)
    ensures AllSettled(ReceiveStep(w, d, u, answer, ok))
  {
    var w' := ReceiveStep(w, d, u, answer, ok);
    if w'.log != w.log {
      forall k | k in w'.db.deploys ensures Settled(w', k) {
        var v := w.db.deploys[k].uuid;
        WordSnoc(w.log, Received(d, u, answer), k.0, v);
        if k.0 == d && v == u {
          assert Waiting(w', d, u, VerdictOf(answer));
        } else {
          SettledStays(w, w', k);
        }
      }
    } else {
      forall k | k in w'.db.deploys ensures Settled(w', k) {
        SettledStays(w, w', k);
      }
    }
  }

  lemma ResolveKeepsSettled(w: World, r: Report, ok: bool)
    requires AllSettled(w) && Prompt(w, Resolve(r, ok))
    ensures AllSettled(ResolveStep(w, r, ok))
  {
    var w' := ResolveStep(w, r, ok);
    if r in w.reports {
      forall k | k in w'.db.deploys ensures Settled(w', k) {
        var v := w.db.deploys[k].uuid;
        if ok { WordSnoc(w.log, Reported(r.device, r.uuid, r.status), k.0, v); }
        if k.0 == r.device && v == r.uuid {
          OwnReportResolved(w, r, ok, k);
        } else {
          SettledStays(w, w', k);
        }
      }
    }
  }

  lemma OwnReportResolved(w: World, r: Report, ok: bool, k: (DeviceId, int))
    requires r in w.reports && RowNames(w, k, r.device, r.uuid) && Settled(w, k) && Prompt(w, Resolve(r, ok))
    requires Word(ResolveStep(w, r, ok).log, r.device, r.uuid) == Word(w.log, r.device, r.uuid)
    ensures Settled(ResolveStep(w, r, ok), k)
  {
    var w', word := ResolveStep(w, r, ok), Word(w.log, r.device, r.uuid);
    assert Waiting(w, r.device, r.uuid, r.status) && Waiting(w, r.device, r.uuid, word);
    if w.reports[r] > 1 || r.status != word {
      assert Waiting(w', r.device, r.uuid, word);
    } else {
      assert forall st :: st != r.status ==> !Waiting(w, r.device, r.uuid, st);
      assert r !in w'.reports;
      forall st
        ensures !Waiting(w', r.device, r.uuid, st)
      {
        if st != r.status { assert !Waiting(w, r.device, r.uuid, st); }
      }
    }
  }

  lemma StepKeepsSettled(w: World, s: Step)
    requires AllSettled(w) && OneMark(w) && Traced(w) && Prompt(w, s)
    ensures AllSettled(Apply(w, s))
  {
    match s
    case Mark(n, ok) => MarkKeepsSettled(w, n, ok);
    case Receive(d, u, answer, ok) => ReceiveKeepsSettled(w, d, u, answer, ok);
    case Resolve(r, ok) => ResolveKeepsSettled(w, r, ok);
    case _ => OtherStepKeepsSettled(w, s);
  }

  lemma StepKeepsProvenance(w: World, s: Step)
    requires Provenance(w) && Legit(w, s)
    ensures Provenance(Apply(w, s))
  {
    StepKeepsSound(w, s);
    StepKeepsOneMark(w, s);
    StepKeepsTraced(w, s);
  }

  lemma {:induction false} PromptRunKeepsSettled(w: World, steps: seq<Step>)
    requires Provenance(w) && AllSettled(w) && PromptRun(w, steps)
    ensures Provenance(Run(w, steps)) && AllSettled(Run(w, steps)) && Lawful(w, steps)
    decreases |steps|
  {
    if steps != [] {
      StepKeepsProvenance(w, steps[0]);
      StepKeepsSettled(w, steps[0]);
      PromptRunKeepsSettled(Apply(w, steps[0]), steps[1..]);
    }
  }

  /** When reports are handled promptly, a row whose command has no report under way shows the
      last answer its device gave to it since the mark: sent if there is none, otherwise
      installed for an acknowledgement and failed for an error. */
  lemma PromptStatusIsLastAnswer(steps: seq<Step>, i: int, d: DeviceId, p: int)
    requires PromptRun(START, steps) && WrittenBy(Run(START, steps).log, i, d, p)
    ensures var w := Run(START, steps);
            && (d, p) in w.db.deploys
            && var r := w.db.deploys[(d, p)];
               Quiet(w, d, r.uuid) ==>
                 if r.status.Sent? then NothingHeard(w.log, i, d, r.uuid) else LastHeard(w.log, i, d, r.uuid, r.status)
  {
    var w := Run(START, steps);
    PromptRunKeepsSettled(START, steps);
    TracedMeaning(w, i, d, p);
    assert Settled(w, (d, p));
    WordMeans(w.log, i, d, w.db.deploys[(d, p)].uuid);
  }

  // ---- and only then ----

  /** Some row with no report under way shows another status than the last word. */
  predicate Misleads(w: World, k: (DeviceId, int)) {
    k in w.db.deploys && Quiet(w, k.0, w.db.deploys[k].uuid) &&
        w.db.deploys[k].status != Word(w.log, k.0, w.db.deploys[k].uuid)
  }

  /** This prompt way on from w ends in a misleading row. */
  ghost predicate LeadsAstray(w: World, after: seq<Step>, k: (DeviceId, int)) {
    PromptRun(w, after) && Misleads(Run(w, after), k)
  }

  function WaitingFor(w: World, d: DeviceId, u: Uuid): nat {
    w.reports[Report(d, u, Installed)] + w.reports[Report(d, u, Failed)]
  }

  lemma OneFewer(w: World, w': World, d: DeviceId, u: Uuid, st: Status)
    requires Waiting(w, d, u, st) && !st.Sent? && w'.reports == w.reports - multiset{Report(d, u, st)}
    ensures WaitingFor(w', d, u) < WaitingFor(w, d, u)
    ensures forall r :: r in w'.reports ==> r in w.reports
  {
  }

  lemma RowResolved(w: World, k: (DeviceId, int), r: Report)
    requires r in w.reports && RowNames(w, k, r.device, r.uuid)
    ensures var w' := ResolveStep(w, r, true);
            RowNames(w', k, r.device, r.uuid) && w'.db.deploys[k].status == r.status &&
                Word(w'.log, r.device, r.uuid) == Word(w.log, r.device, r.uuid)
  {
    WordSnoc(w.log, Reported(r.device, r.uuid, r.status), r.device, r.uuid);
  }

  lemma DrainOne(w: World, k: (DeviceId, int), d: DeviceId, u: Uuid, st: Status)
    requires RowNames(w, k, d, u) && ReportsTerminal(w) && Waiting(w, d, u, st) && !Waiting(w, d, u, Word(w.log, d, u))
    ensures Prompt(w, Resolve(Report(d, u, st), true))
    ensures var w' := ResolveStep(w, Report(d, u, st), true);
            && RowNames(w', k, d, u) && ReportsTerminal(w') && w'.db.deploys[k].status == st
            && Word(w'.log, d, u) == Word(w.log, d, u) && !Waiting(w', d, u, Word(w.log, d, u))
            && WaitingFor(w', d, u) < WaitingFor(w, d, u)
  {
    RowResolved(w, k, Report(d, u, st));
    OneFewer(w, ResolveStep(w, Report(d, u, st), true), d, u, st);
  }

  lemma AstrayAfter(w: World, s: Step, after: seq<Step>, k: (DeviceId, int))
    requires Legit(w, s) && Prompt(w, s) && LeadsAstray(Apply(w, s), after, k)
    ensures LeadsAstray(w, [s] + after, k)
  {
    assert ([s] + after)[1..] == after;
  }

  /** The reports of command u that do not come to the last word can be resolved one by one,
      which leaves the row at one of them. */
  lemma Drain(w: World, k: (DeviceId, int), d: DeviceId, u: Uuid) returns (after: seq<Step>)
    requires RowNames(w, k, d, u) && ReportsTerminal(w) && !Waiting(w, d, u, Word(w.log, d, u))
    requires Quiet(w, d, u) ==> w.db.deploys[k].status != Word(w.log, d, u)
    ensures LeadsAstray(w, after, k)
    decreases WaitingFor(w, d, u)
  {
    if Quiet(w, d, u) {
      after := [];
    } else {
      var st :| Waiting(w, d, u, st);
      DrainOne(w, k, d, u, st);
      var r := Report(d, u, st);
      var rest := Drain(ResolveStep(w, r, true), k, d, u);
      AstrayAfter(w, Resolve(r, true), rest, k);
      after := [Resolve(r, true)] + rest;
    }
  }

  lemma UnpromptMarkMisleads(w: World, n: int) returns (after: seq<Step>, k: (DeviceId, int))
    requires Provenance(w) && !Prompt(w, Mark(n, true))
    ensures LeadsAstray(MarkStep(w, n, true), after, k)
  {
    var j, w' := w.jobs[n], MarkStep(w, n, true);
    var st :| Waiting(w, j.device, j.phase.uuid, st);
    k := (j.device, j.todo[0].id);
    WordSnoc(w.log, w'.log[|w.log|], j.device, j.phase.uuid);
    assert Waiting(w', j.device, j.phase.uuid, st);
    assert !Waiting(w', j.device, j.phase.uuid, Sent);
    after := Drain(w', k, j.device, j.phase.uuid);
  }

  lemma UnpromptResolveMisleads(w: World, r: Report, ok: bool) returns (after: seq<Step>, k: (DeviceId, int))
    requires Provenance(w) && !Prompt(w, Resolve(r, ok))
    ensures LeadsAstray(ResolveStep(w, r, ok), after, k)
  {
    var w' := ResolveStep(w, r, ok);
    k :| RowNames(w, k, r.device, r.uuid)
         && ((exists st :: st != r.status && Waiting(w, r.device, r.uuid, st)) ||
             !(ok || w.db.deploys[k].status == r.status));
    if ok { WordSnoc(w.log, Reported(r.device, r.uuid, r.status), r.device, r.uuid); }
    if st :| st != r.status && Waiting(w, r.device, r.uuid, st) {
      assert Waiting(w', r.device, r.uuid, st);
    }
    after := Drain(w', k, r.device, r.uuid);
  }

  /** In a state where every row is settled, a step is prompt if and only if no prompt way on
      from it ends in a row that shows something else than its device's last answer. */
  lemma PromptExactly(w: World, s: Step)
    requires Provenance(w) && AllSettled(w) && Legit(w, s)
    ensures Prompt(w, s) <==> forall after, k :: !LeadsAstray(Apply(w, s), after, k)
  {
    var w' := Apply(w, s);
    if Prompt(w, s) {
      StepKeepsProvenance(w, s);
      StepKeepsSettled(w, s);
      forall after, k
        ensures !LeadsAstray(w', after, k)
      {
        if PromptRun(w', after) {
          PromptRunKeepsSettled(w', after);
          if k in Run(w', after).db.deploys { assert Settled(Run(w', after), k); }
        }
      }
    } else if s.Mark? {
      var after, k := UnpromptMarkMisleads(w, s.job);
      assert LeadsAstray(w', after, k);
    } else {
      var after, k := UnpromptResolveMisleads(w, s.report, s.ok);
      assert LeadsAstray(w', after, k);
    }
  }
}
