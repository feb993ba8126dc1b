/** Runs of overlapping requests that end a session too early, and runs of requests that do not
    overlap, which are those of SessionRules. */
module SessionRaceRuns {
  import opened Clock
  import opened SessionRaces
  import SessionRules
  import opened Wrappers

  // ---- the two ways a session goes astray, and one more ----

  /** No cap, idle timeout of one minute. */
  function Minute(): Origin {
    Origin(SessionRules.Config(60 * SEC, 0), 0, 0)
  }

  function Crossed(): seq<Step> {
    [Select(1, 10 * SEC), Judge(1, 10 * SEC), Select(2, 20 * SEC), Judge(2, 20 * SEC), Write(2, 20 * SEC, true)]
  }

  /** Two renewals in the other order than their reads: the session counts 20 s as its last
      activity, and a Get at 75 s is refused. */
  lemma LateRenewalMovesBack()
    ensures var o, late := Minute(), Write(1, 21 * SEC, true);
            var w := Run(o, Begin(o), Crossed());
            && InTurnRun(o, Begin(o), Crossed()) && OnTime(w, late)
            && w.row == Some(SessionRules.Session(80, 0)) && Apply(o, w, late).row == Some(SessionRules.Session(70, 0))
            && !InTurn(o, w, late) && LeadsAstray(o, Apply(o, w, late), [], 75 * SEC)
            && !SessionRules.Answers(o.cfg, Apply(o, w, late).row, 75 * SEC)
  {
    var o, steps := Minute(), Crossed();
    assert steps[1..][1..][1..][1..][1..] == [];
    var end := Apply(o, Run(o, Begin(o), steps), Write(1, 21 * SEC, true));
    assert end.log[2] == Counted(20 * SEC);
    LastBounds(o, end.log, 20 * SEC);
    StoredGrows(o, 20 * SEC, Last(o, end.log));
  }

  function AcrossTheEnd(): seq<Step> {
    [Select(1, 60 * SEC), Select(2, 60 * SEC), Judge(2, 60 * SEC), Judge(1, 61 * SEC), Write(2, 61 * SEC, true)]
  }

  /** A request accepted in the last second and one refused in the next, both on the row of the
      creation: the renewal of the one lands, and the DELETE of the other takes the session. */
  lemma LateDeleteEndsSession()
    ensures var o, late := Minute(), Drop(1, 62 * SEC, true);
            var w := Run(o, Begin(o), AcrossTheEnd());
            && InTurnRun(o, Begin(o), AcrossTheEnd()) && OnTime(w, late)
            && w.row == Some(SessionRules.Session(120, 0)) && Apply(o, w, late).row == None
            && !InTurn(o, w, late) && LeadsAstray(o, Apply(o, w, late), [], 62 * SEC)
  {
    var o, steps := Minute(), AcrossTheEnd();
    assert steps[1..][1..][1..][1..][1..] == [];
  }

  function GoneBefore(): seq<Step> {
    [Select(1, 59 * SEC), Judge(1, 59 * SEC), Select(2, 61 * SEC), Judge(2, 61 * SEC), Drop(2, 61 * SEC, true)]
  }

  /** The DELETE of the refused request comes first: the renewal of the accepted one finds no
      row, and a session active at 59 s is gone at 61 s. */
  lemma LateRenewalFindsNothing()
    ensures var o, late := Minute(), Write(1, 61 * SEC, true);
            var w := Run(o, Begin(o), GoneBefore());
            && InTurnRun(o, Begin(o), GoneBefore()) && OnTime(w, late)
            && w.row == None && Apply(o, w, late).row == None
            && !InTurn(o, w, late) && LeadsAstray(o, Apply(o, w, late), [], 61 * SEC)
  {
    var o, steps := Minute(), GoneBefore();
    assert steps[1..][1..][1..][1..][1..] == [];
  }

  // ---- one request at a time ----

  /** The steps are the events of SessionRules one after the other: a Get is its SELECT, its
      reading of the clock and whichever of UPDATE and DELETE it comes to. */
  predicate Serial(events: seq<SessionRules.Event>, steps: seq<Step>)
    decreases |events|
  {
    if events == [] then steps == []
    else
      match events[0]
      case Get(t, wrote, deleted) =>
        && |steps| >= 4
        && steps[0].Select? && steps[2].Write? && steps[3].Drop?
        && steps[..4] == Alone(steps[0].id, steps[0].t, t, steps[2].t, wrote, steps[3].t, deleted)
        && Serial(events[1..], steps[4..])
      case Purge(t) => |steps| >= 1 && steps[0].Sweep? && steps[0].clock == t && Serial(events[1..], steps[1..])
      case End(t) => |steps| >= 1 && steps[0] == SignOut(t) && Serial(events[1..], steps[1..])
  }

  /** Between requests. */
  ghost predicate Quiet(o: Origin, w: World) {
    Kept(o, w) && w.requests == map[]
  }

  lemma {:induction false} RunInParts(o: Origin, w: World, steps: seq<Step>, rest: seq<Step>)
    ensures Run(o, w, steps + rest) == Run(o, Run(o, w, steps), rest)
    ensures Timely(o, w, steps + rest) <==> Timely(o, w, steps) && Timely(o, Run(o, w, steps), rest)
    ensures InTurnRun(o, w, steps + rest) <==> InTurnRun(o, w, steps) && InTurnRun(o, Run(o, w, steps), rest)
    decreases |steps|
  {
    if steps == [] {
      assert steps + rest == rest;
    } else {
      assert (steps + rest)[0] == steps[0] && (steps + rest)[1..] == steps[1..] + rest;
      RunInParts(o, Apply(o, w, steps[0]), steps[1..], rest);
    }
  }

  /** One request's statements in a row, the clock read at t. */
  function Alone(id: int, from: nat, t: nat, wrote: nat, written: bool, dropped: nat, deleted: bool): (steps: seq<Step>)
    ensures |steps| == 4
  {
    [Select(id, from), Judge(id, t), Write(id, wrote, written), Drop(id, dropped, deleted)]
  }

  /** The steps of one request after its SELECT. */
  function AfterJudge(o: Origin, w: World, id: int, from: nat, t: nat): World {
    Apply(o, Apply(o, w, Select(id, from)), Judge(id, t))
  }

  lemma GetAloneKeeps(o: Origin, w: World, id: int, from: nat, t: nat, wrote: nat, written: bool, dropped: nat,
                      deleted: bool)
    requires Quiet(o, w) && w.now <= from <= t <= wrote <= dropped
    ensures var judged := AfterJudge(o, w, id, from, t);
            var renewed := Apply(o, judged, Write(id, wrote, written));
            && InTurn(o, judged, Write(id, wrote, written)) && InTurn(o, renewed, Drop(id, dropped, deleted))
            && Kept(o, Apply(o, renewed, Drop(id, dropped, deleted)))
  {
    var read := Apply(o, w, Select(id, from));
    var judged := AfterJudge(o, w, id, from, t);
    var renewed := Apply(o, judged, Write(id, wrote, written));
    StepKeepsKept(o, w, Select(id, from));
    StepKeepsKept(o, read, Judge(id, t));
    StepKeepsKept(o, judged, Write(id, wrote, written));
    StepKeepsKept(o, renewed, Drop(id, dropped, deleted));
    if id in judged.requests { UndisturbedIsInTurn(o, judged, Write(id, wrote, written)); }
    if id in renewed.requests { UndisturbedIsInTurn(o, renewed, Drop(id, dropped, deleted)); }
  }

  lemma GetAloneSteps(o: Origin, w: World, id: int, from: nat, t: nat, wrote: nat, written: bool, dropped: nat,
                      deleted: bool)
    requires w.requests == map[]
    ensures var judged := AfterJudge(o, w, id, from, t);
            var end := Apply(o, Apply(o, judged, Write(id, wrote, written)), Drop(id, dropped, deleted));
            && end.row == SessionRules.Step(o.cfg, w.row, SessionRules.Event.Get(t, written, deleted))
            && end.requests == map[]
  {
    var read := Apply(o, w, Select(id, from));
    assert read.requests == map[id := Taken(w.row)];
    var judged := AfterJudge(o, w, id, from, t);
    assert judged.requests == map[] || judged.requests == map[id := Renewing(w.row.value, t)] ||
           judged.requests == map[id := Dropping(w.row.value, t)];
  }

  lemma FourRun(o: Origin, w: World, a: Step, b: Step, c: Step, d: Step)
    ensures var w1 := Apply(o, w, a);
            var w2 := Apply(o, w1, b);
            var w3 := Apply(o, w2, c);
            && Run(o, w, [a, b, c, d]) == Apply(o, w3, d)
            && (Timely(o, w, [a, b, c, d]) <==> OnTime(w, a) && OnTime(w1, b) && OnTime(w2, c) && OnTime(w3, d))
            && (InTurnRun(o, w, [a, b, c, d]) <==>
                  Timely(o, w, [a, b, c, d]) && InTurn(o, w, a) && InTurn(o, w1, b) && InTurn(o, w2, c) &&
                  InTurn(o, w3, d))
  {
    RunInParts(o, w, [a, b], [c, d]);
    assert [a, b] + [c, d] == [a, b, c, d];
    TwoRun(o, w, a, b);
    TwoRun(o, Run(o, w, [a, b]), c, d);
  }

  lemma TwoRun(o: Origin, w: World, a: Step, b: Step)
    ensures var next := Apply(o, w, a);
            && Run(o, w, [a, b]) == Apply(o, next, b)
            && (Timely(o, w, [a, b]) <==> OnTime(w, a) && OnTime(next, b))
            && (InTurnRun(o, w, [a, b]) <==> Timely(o, w, [a, b]) && InTurn(o, w, a) && InTurn(o, next, b))
  {
    var next := Apply(o, w, a);
    assert [a, b][1..] == [b] && [b][1..] == [];
    assert Run(o, next, [b]) == Apply(o, next, b);
    assert Timely(o, next, [b]) <==> OnTime(next, b);
    assert InTurnRun(o, next, [b]) <==> OnTime(next, b) && InTurn(o, next, b);
  }

  lemma AloneRuns(o: Origin, w: World, id: int, from: nat, t: nat, wrote: nat, written: bool, dropped: nat,
                  deleted: bool)
    requires Quiet(o, w) && Timely(o, w, Alone(id, from, t, wrote, written, dropped, deleted))
    ensures var end := Run(o, w, Alone(id, from, t, wrote, written, dropped, deleted));
            end.row == SessionRules.Step(o.cfg, w.row, SessionRules.Event.Get(t, written, deleted)) && Quiet(o, end)
    ensures InTurnRun(o, w, Alone(id, from, t, wrote, written, dropped, deleted))
  {
    FourRun(o, w, Select(id, from), Judge(id, t), Write(id, wrote, written), Drop(id, dropped, deleted));
    GetAloneKeeps(o, w, id, from, t, wrote, written, dropped, deleted);
    GetAloneSteps(o, w, id, from, t, wrote, written, dropped, deleted);
  }

  /** Requests that do not overlap: the rows are those of SessionRules, and every step is in turn. */
  lemma {:induction false} SerialRuns(o: Origin, w: World, events: seq<SessionRules.Event>, steps: seq<Step>)
    requires Quiet(o, w) && Serial(events, steps) && Timely(o, w, steps)
    ensures Run(o, w, steps).row == SessionRules.Run(o.cfg, w.row, events) && InTurnRun(o, w, steps)
    decreases |events|
  {
    if events != [] {
      var n := if events[0].Get? then 4 else 1;
      assert steps[..n] + steps[n..] == steps;
      RunInParts(o, w, steps[..n], steps[n..]);
      if events[0].Get? {
        var t, wrote, deleted := events[0].at, events[0].wrote, events[0].deleted;
        AloneRuns(o, w, steps[0].id, steps[0].t, t, steps[2].t, wrote, steps[3].t, deleted);
      } else {
        StepKeepsKept(o, w, steps[0]);
      }
      SerialRuns(o, Run(o, w, steps[..n]), events[1..], steps[n..]);
    }
  }
}
