/** What the reconciler class does to the tables is a run of the step machine, so what every
    run keeps holds of the class too. */
module ReconcileRun {
  import opened DeployTables
  import opened DeployProtocol
  import opened DeploySafety
  import opened DeployContinuations
  import opened Reconcile

  /** The steps of one round of reconcile n, its command being u. */
  function RoundSteps(n: int, u: Uuid, line: Line): seq<Step> {
    match line.outcome
    case EnqueueFailed => [Enqueue(n, u, false)]
    case PushFailed(_) => [Enqueue(n, u, true), Push(n, false)]
    case MarkFailed(_) => [Enqueue(n, u, true), Push(n, true), Record(n, line.recorded), Mark(n, false)]
    case Done(_) => [Enqueue(n, u, true), Push(n, true), Record(n, line.recorded), Mark(n, true)]
  }

  /** w after that round. */
  predicate Rounded(w: World, w': World, n: int, u: Uuid, line: Line)
    requires n in w.jobs && w.jobs[n].todo != []
  {
    var j := w.jobs[n];
    w' == w.(db := LineTables(w.db, j.device, line), jobs := w.jobs[n := Advance(j)], log := w'.log,
             queue := if line.outcome.EnqueueFailed? then w.queue
                 else w.queue[u := Command(j.device, line.profile.data)])
  }

  lemma AcceptedRound(w: World, n: int, u: Uuid) returns (w': World)
    requires n in w.jobs && w.jobs[n].phase.Idle? && w.jobs[n].todo != [] && u !in w.queue
    ensures Reaches(w, [Enqueue(n, u, true), Push(n, true)], w')
    ensures var j := w.jobs[n];
            w' == w.(jobs := w.jobs[n := j.(phase := Pushed(u))], log := w'.log,
                     queue := w.queue[u := Command(j.device, j.todo[0].data)])
  {
    var a, b := Enqueue(n, u, true), Push(n, true);
    var w1 := EnqueueStep(w, n, u, true);
    w' := PushStep(w1, n, true);
    One(w, a);
    ThenOne(w, [a], w1, b);
    assert [a] + [b] == [Enqueue(n, u, true), Push(n, true)];
    assert w'.jobs == w.jobs[n := w.jobs[n].(phase := Pushed(u))];
  }

  lemma SentRound(w: World, n: int, u: Uuid, line: Line) returns (w': World)
    requires n in w.jobs && w.jobs[n].phase.Idle? && w.jobs[n].todo != [] && w.jobs[n].todo[0] == line.profile
    requires u !in w.queue && line.profile.id in w.db.profiles
    requires line.outcome == MarkFailed(u) || line.outcome == Done(u)
    ensures Reaches(w, RoundSteps(n, u, line), w') && Rounded(w, w', n, u, line)
  {
    var a, c, e := [Enqueue(n, u, true), Push(n, true)], Record(n, line.recorded), Mark(n, line.outcome.Done?);
    var w2 := AcceptedRound(w, n, u);
    var w3 := RecordStep(w2, n, line.recorded);
    w' := MarkStep(w3, n, line.outcome.Done?);
    ThenOne(w, a, w2, c);
    ThenOne(w, a + [c], w3, e);
    assert a + [c] + [e] == RoundSteps(n, u, line);
    assert w'.jobs == w.jobs[n := Advance(w.jobs[n])];
  }

  lemma UnsentRound(w: World, n: int, u: Uuid, line: Line) returns (w': World)
    requires n in w.jobs && w.jobs[n].phase.Idle? && w.jobs[n].todo != [] && w.jobs[n].todo[0] == line.profile
    requires u !in w.queue
    requires line.outcome == EnqueueFailed || line.outcome == PushFailed(u)
    ensures Reaches(w, RoundSteps(n, u, line), w') && Rounded(w, w', n, u, line)
  {
    var a := Enqueue(n, u, line.outcome.PushFailed?);
    var w1 := EnqueueStep(w, n, u, line.outcome.PushFailed?);
    One(w, a);
    if line.outcome.PushFailed? {
      ThenOne(w, [a], w1, Push(n, false));
      w' := PushStep(w1, n, false);
      assert [a] + [Push(n, false)] == RoundSteps(n, u, line);
      assert w'.jobs == w.jobs[n := Advance(w.jobs[n])];
    } else {
      w' := w1;
    }
  }

  /** Reconcile n with rows still to send, at the tables and with the commands of these rounds. */
  predicate Came(w: World, w': World, n: int, d: DeviceId, rows: seq<Profile>, lines: seq<Line>, first: Uuid)
    requires |lines| <= |rows|
  {
    && w' == w.(db := TablesAfter(w.db, d, lines), jobs := w.jobs[n := Job(d, rows[|lines|..], Idle)],
                queue := w'.queue, log := w'.log)
    && (forall u :: u in w.queue ==> u in w'.queue && w'.queue[u] == w.queue[u])
    && (forall u :: u in w'.queue ==> u < first + |lines|)
    && (forall k :: 0 <= k < |lines| && !lines[k].outcome.EnqueueFailed? ==>
          first + k in w'.queue && w'.queue[first + k] == Command(d, lines[k].profile.data))
  }

  lemma {:induction false} TablesKeepProfiles(t: Tables, d: DeviceId, lines: seq<Line>)
    ensures TablesAfter(t, d, lines).profiles == t.profiles
  {
    if lines != [] { TablesKeepProfiles(t, d, lines[..|lines| - 1]); }
  }

  lemma CameFurther(w: World, w1: World, w2: World, n: int, d: DeviceId, rows: seq<Profile>, lines: seq<Line>,
                    first: Uuid)
    requires lines != [] && |lines| <= |rows| && Came(w, w1, n, d, rows, lines[..|lines| - 1], first)
    requires Rounded(w1, w2, n, first + |lines| - 1, lines[|lines| - 1])
    ensures Came(w, w2, n, d, rows, lines, first)
  {
    var k := |lines| - 1;
    assert rows[k..][1..] == rows[|lines|..];
    assert w2.jobs == w.jobs[n := Job(d, rows[|lines|..], Idle)];
    forall i | 0 <= i < |lines| && !lines[i].outcome.EnqueueFailed?
      ensures first + i in w2.queue && w2.queue[first + i] == Command(d, lines[i].profile.data)
    {
      if i < k { assert lines[..k][i] == lines[i]; }
    }
  }

  /** The rounds one after the other. */
  lemma {:induction false} Rounds(w: World, n: int, d: DeviceId, rows: seq<Profile>, lines: seq<Line>, first: Uuid)
    returns (steps: seq<Step>, w': World)
    requires n in w.jobs && w.jobs[n] == Job(d, rows, Idle)
    requires |lines| <= |rows| && (forall k :: 0 <= k < |lines| ==> lines[k].profile == rows[k]) &&
             Numbered(lines, first)
    requires (forall k :: 0 <= k < |rows| ==> rows[k].id in w.db.profiles) && forall u :: u in w.queue ==> u < first
    ensures Reaches(w, steps, w') && Came(w, w', n, d, rows, lines, first)
    decreases |lines|
  {
    if lines == [] {
      Stay(w);
      assert rows[0..] == rows && w.jobs[n := Job(d, rows, Idle)] == w.jobs;
      steps, w' := [], w;
    } else {
      var k := |lines| - 1;
      var before, w1 := Rounds(w, n, d, rows, lines[..k], first);
      TablesKeepProfiles(w.db, d, lines[..k]);
      var line, u := lines[k], first + k;
      if line.outcome.EnqueueFailed? || line.outcome.PushFailed? {
        w' := UnsentRound(w1, n, u, line);
      } else {
        w' := SentRound(w1, n, u, line);
      }
      steps := before + RoundSteps(n, u, line);
      Then(w, before, w1, RoundSteps(n, u, line), w');
      CameFurther(w, w1, w', n, d, rows, lines, first);
    }
  }

  /** Any reconcile of the class, as its lines tell it, is a lawful run of the step machine from
      any world over the same tables: begin, one round a line, end. */
  lemma ReconcileIsARun(w: World, n: int, d: DeviceId, lines: seq<Line>, first: Uuid) returns (steps: seq<Step>)
    requires n !in w.jobs && IsListing(w.db, d, ProfilesOf(lines)) && Numbered(lines, first)
    requires forall u :: u in w.queue ==> u < first
    ensures Lawful(w, steps) && Run(w, steps).db == TablesAfter(w.db, d, lines) && Run(w, steps).jobs == w.jobs
    ensures forall k :: 0 <= k < |lines| && !lines[k].outcome.EnqueueFailed? ==>
              first + k in Run(w, steps).queue && Run(w, steps).queue[first + k] == Command(d, lines[k].profile.data)
  {
    var rows := ProfilesOf(lines);
    var b, e := Begin(n, d, rows), End(n);
    var w1 := Apply(w, b);
    forall k | 0 <= k < |rows| ensures rows[k].id in w1.db.profiles { assert Pending(w.db, d, rows[k].id); }
    var rest, w2 := Rounds(w1, n, d, rows, lines, first);
    ThenOne(w1, rest, w2, e);
    steps := [b] + (rest + [e]);
    assert steps[1..] == rest + [e];
    assert Apply(w2, e).jobs == w.jobs;
  }

  /** A result taken by itself is its two statements one after the other. */
  lemma ResultIsTwoSteps(w: World, r: Result)
    ensures var w1 := Apply(w, Receive(r.device, r.uuid, r.answer, true));
            match r.answer
            case Acknowledged =>
              Apply(w1, Resolve(Report(r.device, r.uuid, Installed), true)).db == AfterResult(w.db, r)
            case Error | CommandFormatError =>
              Apply(w1, Resolve(Report(r.device, r.uuid, Failed), true)).db == AfterResult(w.db, r)
            case NotNow | OtherAnswer(_) => w1.db == AfterResult(w.db, r) && w1.reports == w.reports
  {
  }

  /** The reconciler on the tables of any lawful run: what it leaves are the tables of a longer
      lawful run, in which every assigned pair is pending or went out with the current bytes. */
  method ReconcileAfterRun(r: Reconciler, d: DeviceId, fates: nat -> Fate, ghost before: seq<Step>, ghost n: int)
    returns (lines: seq<Line>, ghost after: seq<Step>)
    requires r.cmd.db == r.db && Lawful(START, before) && Run(START, before).db == r.db.View()
    requires n !in Run(START, before).jobs && forall u :: u in Run(START, before).queue ==> u < r.cmd.next
    modifies r.db, r.cmd
    ensures Lawful(START, before + after) && Run(START, before + after).db == r.db.View()
    ensures forall p :: Assigned(r.db.View(), d, p) ==>
            Pending(r.db.View(), d, p) || Carries(Run(START, before + after), d, p)
    ensures IsListing(old(r.db.View()), d, ProfilesOf(lines)) && Settled(r.db.View(), d, lines)
  {
    ghost var w, first := Run(START, before), r.cmd.next;
    StartIsSound();
    RunKeepsSound(START, before);
    lines := r.ReconcileDevice(d, true, fates);
    after := ReconcileIsARun(w, n, d, lines, first);
    RunSplit(START, before, after);
    forall p | Assigned(r.db.View(), d, p)
      ensures Pending(r.db.View(), d, p) || Carries(Run(START, before + after), d, p)
    {
      NoUpdateIsLost(before + after, d, p);
    }
  }
}
