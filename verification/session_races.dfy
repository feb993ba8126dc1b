/** Requests of one session that overlap. A Get is a SELECT, a reading of the clock and then an
    UPDATE or a DELETE, so the statements of several requests, of the cleanup job and of a
    sign-out fall between one another (internal/auth/session.go). */
module SessionRaces {
  import opened Clock
  import opened SessionRules
  import opened Wrappers

  /** A session created at instant at, its row stamped created. */
  datatype Origin = Origin(cfg: Config, at: nat, created: nat)

  /** How far a request has come. Taken: the SELECT returned found. Renewing, Dropping: accepted
      or refused at instant at on the row seen, the UPDATE or DELETE still to come. */
  datatype Request =
    | Taken(found: Option<Session>)
    | Renewing(seen: Session, at: nat)
    | Dropping(seen: Session, at: nat)

  /** The accesses, in order. Counted: an accepted access whose request is through, its renewal
      written or not needed. */
  datatype Entry = Accepted(at: nat) | Counted(at: nat)

  datatype World = World(row: Option<Session>, requests: map<int, Request>, now: nat, ended: bool, log: seq<Entry>)

  function Begin(o: Origin): World {
    World(Some(Start(o.cfg, o.at, o.created)), map[], o.at, false, [])
  }

  /** t is when the step happens; ok is false when its statement fails. clock is the instant the
      cleanup job read before its DELETE. SignOut is a logout or a forced sign-out. */
  datatype Step =
    | Select(id: int, t: nat)
    | Judge(id: int, t: nat)
    | Write(id: int, t: nat, ok: bool)
    | Drop(id: int, t: nat, ok: bool)
    | Sweep(clock: nat, t: nat)
    | SignOut(t: nat)

  function SelectStep(w: World, id: int): World {
    if id in w.requests then w else w.(requests := w.requests[id := Taken(w.row)])
  }

  function JudgeStep(o: Origin, w: World, id: int, t: nat): World {
    if id !in w.requests || !w.requests[id].Taken? then w
    else
      var found := w.requests[id].found;
      if found.None? then w.(requests := w.requests - {id})
      else if !Accepts(o.cfg, found.value, t) then w.(requests := w.requests[id := Dropping(found.value, t)])
      else if Target(o.cfg, found.value.created, t) > found.value.expires * SEC then
        w.(requests := w.requests[id := Renewing(found.value, t)], log := w.log + [Accepted(t)])
      else w.(requests := w.requests - {id}, log := w.log + [Accepted(t)] + [Counted(t)])
  }

  /** The UPDATE may find no row; it succeeds all the same. */
  function WriteStep(o: Origin, w: World, id: int, ok: bool): World {
    if id !in w.requests || !w.requests[id].Renewing? then w
    else if !ok then w.(requests := w.requests - {id})
    else
      var Renewing(seen, a) := w.requests[id];
      var expires := Floor(Target(o.cfg, seen.created, a));
      w.(row := if w.row.None? then None else Some(w.row.value.(expires := expires)),
         requests := w.requests - {id}, log := w.log + [Counted(a)])
  }

  function DropStep(w: World, id: int, ok: bool): World {
    if id !in w.requests || !w.requests[id].Dropping? then w
    else w.(row := if ok then None else w.row, requests := w.requests - {id})
  }

  function SweepStep(w: World, clock: nat): World {
    if w.row.Some? && w.row.value.expires < Floor(clock) then w.(row := None) else w
  }

  function Apply(o: Origin, w: World, s: Step): World {
    (match s
     case Select(id, _) => SelectStep(w, id)
     case Judge(id, t) => JudgeStep(o, w, id, t)
     case Write(id, _, ok) => WriteStep(o, w, id, ok)
     case Drop(id, _, ok) => DropStep(w, id, ok)
     case Sweep(clock, _) => SweepStep(w, clock)
     case SignOut(_) => w.(row := None, ended := true)).(now := s.t)
  }

  function Run(o: Origin, w: World, steps: seq<Step>): World
    decreases |steps|
  {
    if steps == [] then w else Run(o, Apply(o, w, steps[0]), steps[1..])
  }

  /** The clock never runs back, and the cleanup job's is read before its statement. */
  predicate OnTime(w: World, s: Step) {
    w.now <= s.t && (s.Sweep? ==> s.clock <= s.t)
  }

  predicate Timely(o: Origin, w: World, steps: seq<Step>)
    decreases |steps|
  {
    steps != [] ==> OnTime(w, steps[0]) && Timely(o, Apply(o, w, steps[0]), steps[1..])
  }

  // ---- what every interleaving keeps ----

  /** The expiry a renewal at instant a stores. */
  function Stored(o: Origin, a: nat): nat {
    Floor(Target(o.cfg, o.created, a))
  }

  function First(o: Origin): nat {
    Floor(o.at + o.cfg.ttl)
  }

  /** The expiry is the one of the creation or of some access in the log. */
  ghost predicate Stems(o: Origin, log: seq<Entry>, expires: nat) {
    expires == First(o) || exists a :: Counted(a) in log && expires == Stored(o, a)
  }

  ghost predicate Genuine(o: Origin, log: seq<Entry>, s: Session) {
    s.created == o.created && Stems(o, log, s.expires)
  }

  ghost predicate RequestOk(o: Origin, w: World, r: Request) {
    match r
    case Taken(found) => found.Some? ==> Genuine(o, w.log, found.value)
    case Renewing(seen, a) => Genuine(o, w.log, seen) && Accepted(a) in w.log && o.at <= a <= w.now &&
                              Accepts(o.cfg, seen, a) && Target(o.cfg, o.created, a) > seen.expires * SEC
    case Dropping(seen, a) => Genuine(o, w.log, seen) && a <= w.now && !Accepts(o.cfg, seen, a)
  }

  /** t is under the cap and no later than an expiry stored by the creation or an earlier access. */
  ghost predicate Covered(o: Origin, log: seq<Entry>, t: nat) {
    UnderCap(o.cfg, o.created, t) && exists e: nat :: Stems(o, log, e) && t <= e * SEC
  }

  ghost predicate EntryOk(o: Origin, w: World, k: nat)
    requires k < |w.log|
  {
    o.at <= w.log[k].at <= w.now && Covered(o, w.log[..k], w.log[k].at) &&
    (w.log[k].Counted? ==> Accepted(w.log[k].at) in w.log[..k])
  }

  ghost predicate Kept(o: Origin, w: World) {
    && o.at <= w.now
    && (w.row.Some? ==> Genuine(o, w.log, w.row.value))
    && (forall id :: id in w.requests ==> RequestOk(o, w, w.requests[id]))
    && (forall k :: 0 <= k < |w.log| ==> EntryOk(o, w, k))
    && (w.ended ==> w.row.None?)
  }

  /** A world whose log has grown and whose clock has moved on keeps its requests and entries. */
  lemma Grown(o: Origin, log: seq<Entry>, more: seq<Entry>, s: Session)
    requires Genuine(o, log, s)
    ensures Genuine(o, log + more, s)
  {
    if s.expires != First(o) {
      var a :| Counted(a) in log && s.expires == Stored(o, a);
      assert Counted(a) in log + more;
    }
  }

  lemma RequestGrown(o: Origin, w: World, next: World, more: seq<Entry>, r: Request)
    requires RequestOk(o, w, r) && next.log == w.log + more && w.now <= next.now
    ensures RequestOk(o, next, r)
  {
    match r
    case Taken(found) => if found.Some? { Grown(o, w.log, more, found.value); }
    case Renewing(seen, _) => Grown(o, w.log, more, seen);
    case Dropping(seen, _) => Grown(o, w.log, more, seen);
  }

  lemma LogGrown(o: Origin, w: World, next: World, more: seq<Entry>)
    requires Kept(o, w) && next.log == w.log + more && w.now <= next.now
    ensures forall k :: 0 <= k < |w.log| ==> EntryOk(o, next, k)
    ensures w.row.Some? ==> Genuine(o, next.log, w.row.value)
    ensures forall id :: id in w.requests ==> RequestOk(o, next, w.requests[id])
  {
    forall k | 0 <= k < |w.log| ensures EntryOk(o, next, k) {
      assert EntryOk(o, w, k);
      assert next.log[..k] == w.log[..k] && next.log[k] == w.log[k];
    }
    if w.row.Some? { Grown(o, w.log, more, w.row.value); }
    forall id | id in w.requests ensures RequestOk(o, next, w.requests[id]) {
      RequestGrown(o, w, next, more, w.requests[id]);
    }
  }

  /** An access at t was accepted on a row it read, and is through or not. */
  lemma AcceptedIsOk(o: Origin, w: World, next: World, seen: Session, t: nat)
    requires Genuine(o, w.log, seen) && Accepts(o.cfg, seen, t) && o.at <= t == next.now
    requires next.log == w.log + [Accepted(t)] || next.log == w.log + [Accepted(t)] + [Counted(t)]
    ensures forall k :: |w.log| <= k < |next.log| ==> EntryOk(o, next, k)
  {
    assert Stems(o, w.log, seen.expires) && Covered(o, w.log, t);
    assert next.log[..|w.log|] == w.log;
    if |next.log| == |w.log| + 2 {
      var most := w.log + [Accepted(t)];
      assert next.log[..|w.log| + 1] == most;
      Grown(o, w.log, [Accepted(t)], seen);
      assert Stems(o, most, seen.expires) && Covered(o, most, t);
    }
  }

  lemma JudgeKeepsKept(o: Origin, w: World, id: int, t: nat)
    requires Kept(o, w) && w.now <= t
    ensures Kept(o, JudgeStep(o, w, id, t).(now := t))
  {
    var next := JudgeStep(o, w, id, t).(now := t);
    var more := next.log[|w.log|..];
    assert next.log == w.log + more;
    LogGrown(o, w, next, more);
    if id in w.requests && w.requests[id].Taken? && w.requests[id].found.Some? {
      var seen := w.requests[id].found.value;
      assert RequestOk(o, w, w.requests[id]);
      Grown(o, w.log, more, seen);
      if Accepts(o.cfg, seen, t) { AcceptedIsOk(o, w, next, seen, t); }
    }
  }

  lemma WriteKeepsKept(o: Origin, w: World, id: int, t: nat, ok: bool)
    requires Kept(o, w) && w.now <= t
    ensures Kept(o, WriteStep(o, w, id, ok).(now := t))
  {
    var next := WriteStep(o, w, id, ok).(now := t);
    var more := next.log[|w.log|..];
    assert next.log == w.log + more;
    LogGrown(o, w, next, more);
    if id in w.requests && w.requests[id].Renewing? && ok {
      var Renewing(seen, a) := w.requests[id];
      assert RequestOk(o, w, w.requests[id]);
      assert Stems(o, w.log, seen.expires);
      assert next.log[..|w.log|] == w.log;
      assert Counted(a) in next.log;
    }
  }

  lemma StepKeepsKept(o: Origin, w: World, s: Step)
    requires Kept(o, w) && OnTime(w, s)
    ensures Kept(o, Apply(o, w, s))
  {
    var next := Apply(o, w, s);
    match s
    case Judge(id, t) => JudgeKeepsKept(o, w, id, t);
    case Write(id, t, ok) => WriteKeepsKept(o, w, id, t, ok);
    case _ => LogGrown(o, w, next, []);
  }

  lemma {:induction false} RunKeepsKept(o: Origin, w: World, steps: seq<Step>)
    requires Kept(o, w) && Timely(o, w, steps)
    ensures Kept(o, Run(o, w, steps))
    decreases |steps|
  {
    if steps != [] {
      StepKeepsKept(o, w, steps[0]);
      RunKeepsKept(o, Apply(o, w, steps[0]), steps[1..]);
    }
  }

  /** t is at most ttl after the creation or after an access accepted before. */
  predicate Lately(o: Origin, log: seq<Entry>, t: nat) {
    t <= o.at + o.cfg.ttl || exists i :: 0 <= i < |log| && log[i].Accepted? && t <= log[i].at + o.cfg.ttl
  }

  lemma CountedWasAccepted(o: Origin, w: World, k: nat, a: nat)
    requires Kept(o, w) && k <= |w.log| && Counted(a) in w.log[..k]
    ensures Accepted(a) in w.log[..k] && a <= w.now
  {
    var i :| 0 <= i < k && w.log[i] == Counted(a);
    assert EntryOk(o, w, i);
    assert w.log[..k][..i] == w.log[..i];
  }

  lemma CoveredIsLately(o: Origin, w: World, k: nat, t: nat)
    requires Kept(o, w) && k <= |w.log| && Covered(o, w.log[..k], t)
    ensures Lately(o, w.log[..k], t)
  {
    var e: nat :| Stems(o, w.log[..k], e) && t <= e * SEC;
    if e != First(o) {
      var a :| Counted(a) in w.log[..k] && e == Stored(o, a);
      CountedWasAccepted(o, w, k, a);
    }
  }

  predicate HasSignOut(steps: seq<Step>) {
    exists i :: 0 <= i < |steps| && steps[i].SignOut?
  }

  lemma {:induction false} SignOutLasts(o: Origin, w: World, steps: seq<Step>)
    ensures w.ended || HasSignOut(steps) ==> Run(o, w, steps).ended
    decreases |steps|
  {
    if steps != [] {
      SignOutLasts(o, Apply(o, w, steps[0]), steps[1..]);
      if i :| 0 < i < |steps| && steps[i].SignOut? {
        assert steps[1..][i - 1].SignOut?;
      }
    }
  }

  /** However the statements interleave: the creation time stays, the stored expiry is that of
      the creation or of an access that was accepted, every accepted access is under the cap and
      at most ttl after the creation or an earlier accepted one, and a signed-out session has
      no row. */
  lemma EveryInterleaving(o: Origin, steps: seq<Step>)
    requires Timely(o, Begin(o), steps)
    ensures var w := Run(o, Begin(o), steps);
            && (w.row.Some? ==> w.row.value.created == o.created &&
                                (w.row.value.expires == First(o) ||
                                 exists a :: Accepted(a) in w.log && w.row.value.expires == Stored(o, a)))
            && (forall k :: 0 <= k < |w.log| && w.log[k].Accepted? ==>
                  UnderCap(o.cfg, o.created, w.log[k].at) && Lately(o, w.log[..k], w.log[k].at))
            && (HasSignOut(steps) ==> w.row.None?)
  {
    RunKeepsKept(o, Begin(o), steps);
    SignOutLasts(o, Begin(o), steps);
    var w := Run(o, Begin(o), steps);
    if w.row.Some? && w.row.value.expires != First(o) {
      var a :| Counted(a) in w.log && w.row.value.expires == Stored(o, a);
      assert w.log[..|w.log|] == w.log;
      CountedWasAccepted(o, w, |w.log|, a);
    }
    forall k | 0 <= k < |w.log| && w.log[k].Accepted?
      ensures UnderCap(o.cfg, o.created, w.log[k].at) && Lately(o, w.log[..k], w.log[k].at)
    {
      assert EntryOk(o, w, k);
      CoveredIsLately(o, w, k, w.log[k].at);
    }
  }

  // ---- the rule a user sees ----

  /** The latest access that is through, at first the creation. */
  function Last(o: Origin, log: seq<Entry>): nat {
    if log == [] then o.at
    else
      var earlier, entry := Last(o, log[..|log| - 1]), log[|log| - 1];
      if entry.Counted? && entry.at > earlier then entry.at else earlier
  }

  /** The activity of the session, for the rule of SessionRules. */
  function Seen(o: Origin, w: World): Activity {
    Activity(Last(o, w.log), w.ended)
  }

  /** The last instant at which a row with this expiry is accepted. */
  function Until(o: Origin, expires: nat): nat {
    if UnderCap(o.cfg, o.created, expires * SEC) then expires * SEC else o.created * SEC + o.cfg.maxLifetime
  }

  /** The expiry of a row that no renewal and no deletion ever overtook. */
  function Best(o: Origin, log: seq<Entry>): nat {
    var stored := Stored(o, Last(o, log));
    if First(o) >= stored then First(o) else stored
  }

  lemma StoredGrows(o: Origin, a: nat, b: nat)
    requires a <= b
    ensures Stored(o, a) <= Stored(o, b)
  {
    FloorMonotone(Target(o.cfg, o.created, a), Target(o.cfg, o.created, b));
  }

  lemma AliveUntilBest(o: Origin, w: World, t: nat)
    ensures Alive(o.cfg, o.at, o.created, Seen(o, w), t) <==> !w.ended && t <= Until(o, Best(o, w.log))
  {
  }

  lemma RowUntil(o: Origin, row: Option<Session>, t: nat)
    requires row.Some? ==> row.value.created == o.created
    ensures Answers(o.cfg, row, t) <==> row.Some? && t <= Until(o, row.value.expires)
  {
  }

  lemma {:induction false} LastBounds(o: Origin, log: seq<Entry>, a: nat)
    requires Counted(a) in log
    ensures a <= Last(o, log)
  {
    var n := |log| - 1;
    if log[n] != Counted(a) {
      assert Counted(a) in log[..n];
      LastBounds(o, log[..n], a);
    }
  }

  lemma {:induction false} LastIsCounted(o: Origin, log: seq<Entry>)
    ensures Last(o, log) == o.at || Counted(Last(o, log)) in log
  {
    if log != [] { LastIsCounted(o, log[..|log| - 1]); }
  }

  /** No expiry in use lies beyond that of the latest access. */
  lemma StemsFromBest(o: Origin, log: seq<Entry>, e: nat)
    requires Stems(o, log, e)
    ensures e <= Best(o, log)
  {
    if e != First(o) {
      var a :| Counted(a) in log && e == Stored(o, a);
      LastBounds(o, log, a);
      StoredGrows(o, a, Last(o, log));
    }
  }

  lemma BestGrows(o: Origin, log: seq<Entry>, entry: Entry)
    ensures var best := Best(o, log);
            Best(o, log + [entry]) ==
            if entry.Counted? && Stored(o, entry.at) > best then Stored(o, entry.at) else best
  {
    assert (log + [entry])[..|log|] == log;
    if entry.Counted? {
      if entry.at > Last(o, log) { StoredGrows(o, Last(o, log), entry.at); }
      else { StoredGrows(o, entry.at, Last(o, log)); }
    }
  }

  /** From now on the row answers as the rule says. */
  ghost predicate Right(o: Origin, w: World) {
    forall t :: w.now <= t ==>
      (Answers(o.cfg, w.row, t) <==> Alive(o.cfg, o.at, o.created, Seen(o, w), t))
  }

  /** The same, as bounds on the expiry. */
  lemma RightIs(o: Origin, w: World)
    requires Kept(o, w)
    ensures Right(o, w) <==>
            w.ended || Until(o, Best(o, w.log)) < w.now ||
            (w.row.Some? && Until(o, Best(o, w.log)) <= Until(o, w.row.value.expires))
  {
    var best := Until(o, Best(o, w.log));
    forall t: nat ensures Answers(o.cfg, w.row, t) <==> w.row.Some? && t <= Until(o, w.row.value.expires) {
      RowUntil(o, w.row, t);
    }
    forall t: nat ensures Alive(o.cfg, o.at, o.created, Seen(o, w), t) <==> !w.ended && t <= best {
      AliveUntilBest(o, w, t);
    }
    if w.row.Some? { StemsFromBest(o, w.log, w.row.value.expires); }
    if Right(o, w) && !w.ended && w.now <= best {
      assert Answers(o.cfg, w.row, best) <==> Alive(o.cfg, o.at, o.created, Seen(o, w), best);
    }
  }

  // ---- in turn ----

  /** A renewal in turn does not cut short a row that is still good, nor renew one that is gone;
      a delete in turn finds no row that is still good. */
  predicate InTurn(o: Origin, w: World, s: Step) {
    match s
    case Write(id, t, ok) =>
      ok && !w.ended && id in w.requests && w.requests[id].Renewing? ==>
        var until := Until(o, Floor(Target(o.cfg, w.requests[id].seen.created, w.requests[id].at)));
        if w.row.None? then until < t
        else Until(o, w.row.value.expires) < t || Until(o, w.row.value.expires) <= until
    case Drop(id, t, ok) =>
      ok && w.row.Some? && id in w.requests && w.requests[id].Dropping? ==> Until(o, w.row.value.expires) < t
    case _ => true
  }

  predicate InTurnRun(o: Origin, w: World, steps: seq<Step>)
    decreases |steps|
  {
    steps != [] ==>
      OnTime(w, steps[0]) && InTurn(o, w, steps[0]) && InTurnRun(o, Apply(o, w, steps[0]), steps[1..])
  }

  lemma UntilGrows(o: Origin, e: nat, later: nat)
    requires e <= later
    ensures Until(o, e) <= Until(o, later)
  {
  }

  lemma JudgeKeepsBest(o: Origin, w: World, id: int, t: nat)
    requires Kept(o, w) && w.now <= t
    ensures Best(o, JudgeStep(o, w, id, t).log) == Best(o, w.log)
  {
    if id in w.requests && w.requests[id].Taken? && w.requests[id].found.Some? {
      var seen := w.requests[id].found.value;
      assert RequestOk(o, w, w.requests[id]);
      BestGrows(o, w.log, Accepted(t));
      BestGrows(o, w.log + [Accepted(t)], Counted(t));
      StemsFromBest(o, w.log, seen.expires);
      if Target(o.cfg, seen.created, t) <= seen.expires * SEC {
        FloorMonotone(Target(o.cfg, seen.created, t), seen.expires * SEC);
      }
    }
  }

  lemma WriteInTurn(o: Origin, w: World, id: int, t: nat, ok: bool)
    requires Kept(o, w) && Right(o, w) && w.now <= t
    ensures InTurn(o, w, Write(id, t, ok)) <==> Right(o, Apply(o, w, Write(id, t, ok)))
  {
    var next := Apply(o, w, Write(id, t, ok));
    StepKeepsKept(o, w, Write(id, t, ok));
    RightIs(o, w);
    RightIs(o, next);
    if id in w.requests && w.requests[id].Renewing? && ok {
      assert RequestOk(o, w, w.requests[id]);
      BestGrows(o, w.log, Counted(w.requests[id].at));
      UntilGrows(o, Best(o, w.log), Best(o, next.log));
      if w.row.Some? {
        StemsFromBest(o, w.log, w.row.value.expires);
        UntilGrows(o, w.row.value.expires, Best(o, w.log));
      }
    }
  }

  lemma DropInTurn(o: Origin, w: World, id: int, t: nat, ok: bool)
    requires Kept(o, w) && Right(o, w) && w.now <= t
    ensures InTurn(o, w, Drop(id, t, ok)) <==> Right(o, Apply(o, w, Drop(id, t, ok)))
  {
    StepKeepsKept(o, w, Drop(id, t, ok));
    RightIs(o, w);
    RightIs(o, Apply(o, w, Drop(id, t, ok)));
    if w.row.Some? {
      StemsFromBest(o, w.log, w.row.value.expires);
      UntilGrows(o, w.row.value.expires, Best(o, w.log));
    }
  }

  lemma SweepKeepsRight(o: Origin, w: World, clock: nat, t: nat)
    requires Kept(o, w) && Right(o, w) && w.now <= t && clock <= t
    ensures Right(o, Apply(o, w, Sweep(clock, t)))
  {
    StepKeepsKept(o, w, Sweep(clock, t));
    RightIs(o, w);
    RightIs(o, Apply(o, w, Sweep(clock, t)));
    if w.row.Some? && w.row.value.expires < Floor(clock) {
      FloorBounds(clock);
      assert Until(o, w.row.value.expires) < clock;
    }
  }

  /** A step keeps the row right if and only if it is in turn. */
  lemma InTurnIs(o: Origin, w: World, s: Step)
    requires Kept(o, w) && Right(o, w) && OnTime(w, s)
    ensures InTurn(o, w, s) <==> Right(o, Apply(o, w, s))
  {
    match s
    case Write(id, t, ok) => WriteInTurn(o, w, id, t, ok);
    case Drop(id, t, ok) => DropInTurn(o, w, id, t, ok);
    case Sweep(clock, t) => SweepKeepsRight(o, w, clock, t);
    case Judge(id, t) => JudgeKeepsBest(o, w, id, t); StillRight(o, w, s);
    case _ => StillRight(o, w, s);
  }

  lemma StillRight(o: Origin, w: World, s: Step)
    requires Kept(o, w) && Right(o, w) && OnTime(w, s) && (s.Select? || s.Judge? || s.SignOut?)
    requires Best(o, Apply(o, w, s).log) == Best(o, w.log)
    ensures Right(o, Apply(o, w, s))
  {
    StepKeepsKept(o, w, s);
    RightIs(o, w);
    RightIs(o, Apply(o, w, s));
  }

  lemma {:induction false} RunKeepsRight(o: Origin, w: World, steps: seq<Step>)
    requires Kept(o, w) && Right(o, w) && InTurnRun(o, w, steps)
    ensures var end := Run(o, w, steps); Kept(o, end) && Right(o, end) && w.now <= end.now
    ensures Timely(o, w, steps)
    decreases |steps|
  {
    if steps != [] {
      StepKeepsKept(o, w, steps[0]);
      InTurnIs(o, w, steps[0]);
      RunKeepsRight(o, Apply(o, w, steps[0]), steps[1..]);
    }
  }

  lemma BeginIsRight(o: Origin)
    ensures Kept(o, Begin(o)) && Right(o, Begin(o))
  {
    FloorMonotone(Target(o.cfg, o.created, o.at), o.at + o.cfg.ttl);
    RightIs(o, Begin(o));
  }

  /** As long as every renewal and delete is in turn, the session answers by its last activity,
      however else the requests overlap. */
  lemma InTurnFollowsActivity(o: Origin, steps: seq<Step>, t: nat)
    requires InTurnRun(o, Begin(o), steps) && Run(o, Begin(o), steps).now <= t
    ensures var w := Run(o, Begin(o), steps);
            Answers(o.cfg, w.row, t) <==> Alive(o.cfg, o.at, o.created, Seen(o, w), t)
  {
    BeginIsRight(o);
    RunKeepsRight(o, Begin(o), steps);
  }

  /** After more steps, all in turn, the session at t does not answer as the rule says. */
  predicate LeadsAstray(o: Origin, w: World, after: seq<Step>, t: nat) {
    var end := Run(o, w, after);
    && InTurnRun(o, w, after)
    && end.now <= t
    && !(Answers(o.cfg, end.row, t) <==> Alive(o.cfg, o.at, o.created, Seen(o, end), t))
  }

  /** Exactly the steps out of turn lead astray: a renewal that cuts a good row short or comes
      after its row went, and a delete of a row that is still good. */
  lemma InTurnExactly(o: Origin, before: seq<Step>, s: Step)
    requires InTurnRun(o, Begin(o), before) && OnTime(Run(o, Begin(o), before), s)
    ensures var w := Run(o, Begin(o), before);
            InTurn(o, w, s) <==> !exists after, t :: LeadsAstray(o, Apply(o, w, s), after, t)
  {
    BeginIsRight(o);
    RunKeepsRight(o, Begin(o), before);
    var w := Run(o, Begin(o), before);
    var next := Apply(o, w, s);
    InTurnIs(o, w, s);
    StepKeepsKept(o, w, s);
    if InTurn(o, w, s) {
      forall after, t ensures !LeadsAstray(o, next, after, t) {
        if InTurnRun(o, next, after) { RunKeepsRight(o, next, after); }
      }
    } else {
      var t :| next.now <= t && !(Answers(o.cfg, next.row, t) <==> Alive(o.cfg, o.at, o.created, Seen(o, next), t));
      assert LeadsAstray(o, next, [], t);
    }
  }

  // ---- what one request is told ----

  /** The request's read of the clock at t lets it in. */
  predicate Granted(o: Origin, w: World, id: int, t: nat) {
    var log := Apply(o, w, Judge(id, t)).log;
    |log| > |w.log| && log[|w.log|] == Accepted(t)
  }

  /** An access that is let in has its renewal under way or counts at once. */
  lemma GrantedCounts(o: Origin, w: World, id: int, t: nat)
    requires Granted(o, w, id, t)
    ensures var next := Apply(o, w, Judge(id, t));
            if id in next.requests then next.requests[id].Renewing? && next.requests[id].at == t
            else next.log == w.log + [Accepted(t), Counted(t)]
  {
  }

  predicate Waits(steps: seq<Step>, id: int) {
    forall i :: 0 <= i < |steps| && steps[i].Judge? ==> steps[i].id != id
  }

  /** Whatever else happens, a request judges the row it read. */
  lemma {:induction false} ReadIsKept(o: Origin, w: World, id: int, steps: seq<Step>)
    requires id in w.requests && w.requests[id].Taken? && Waits(steps, id)
    ensures var end := Run(o, w, steps); id in end.requests && end.requests[id] == w.requests[id]
    decreases |steps|
  {
    if steps != [] {
      assert steps[0].Judge? ==> steps[0].id != id;
      ReadIsKept(o, Apply(o, w, steps[0]), id, steps[1..]);
    }
  }

  lemma {:induction false} LaterIsLater(o: Origin, w: World, steps: seq<Step>)
    requires Timely(o, w, steps)
    ensures w.now <= Run(o, w, steps).now
    decreases |steps|
  {
    if steps != [] { LaterIsLater(o, Apply(o, w, steps[0]), steps[1..]); }
  }

  /** The row a request reads at from decides its answer at t, whatever falls in between. */
  lemma GrantedByRead(o: Origin, w: World, id: int, from: nat, during: seq<Step>, t: nat)
    requires Kept(o, w) && id !in w.requests && w.now <= from && Waits(during, id)
    ensures Granted(o, Run(o, Apply(o, w, Select(id, from)), during), id, t) <==> Answers(o.cfg, w.row, t)
  {
    ReadIsKept(o, Apply(o, w, Select(id, from)), id, during);
  }

  /** In every interleaving a Get is let in only within the idle time of the last access that
      was through before its read, under the cap, and never once it read after a sign-out. */
  lemma GrantedOnlyWhenActive(o: Origin, before: seq<Step>, id: int, from: nat, during: seq<Step>, t: nat)
    requires Timely(o, Begin(o), before)
    requires var w := Run(o, Begin(o), before); id !in w.requests && w.now <= from
    requires Waits(during, id)
    ensures var w := Run(o, Begin(o), before);
            Granted(o, Run(o, Apply(o, w, Select(id, from)), during), id, t) ==>
              IdleRule(o.cfg, o.created, Seen(o, w), t)
  {
    var w := Run(o, Begin(o), before);
    RunKeepsKept(o, Begin(o), before);
    GrantedByRead(o, w, id, from, during, t);
    AnswersKeepIdleRule(o, w, t);
  }

  lemma AnswersKeepIdleRule(o: Origin, w: World, t: nat)
    requires Kept(o, w)
    ensures Answers(o.cfg, w.row, t) ==> IdleRule(o.cfg, o.created, Seen(o, w), t)
  {
    if Answers(o.cfg, w.row, t) {
      StemsFromBest(o, w.log, w.row.value.expires);
      BestIsIdle(o, w);
    }
  }

  lemma BestIsIdle(o: Origin, w: World)
    requires Kept(o, w)
    ensures o.at <= Last(o, w.log) <= w.now && Best(o, w.log) <= Floor(Last(o, w.log) + o.cfg.ttl)
  {
    var last := Last(o, w.log);
    LastIsCounted(o, w.log);
    if last != o.at {
      var k :| 0 <= k < |w.log| && w.log[k] == Counted(last);
      assert EntryOk(o, w, k);
    }
    FloorMonotone(o.at + o.cfg.ttl, last + o.cfg.ttl);
    FloorMonotone(Target(o.cfg, o.created, last), last + o.cfg.ttl);
  }

  /** After a run in turn a Get is let in exactly by the last activity before its read, however
      its own statements and those of others fall afterwards. */
  lemma GrantedExactlyWhenActive(o: Origin, before: seq<Step>, id: int, from: nat, during: seq<Step>, t: nat)
    requires InTurnRun(o, Begin(o), before)
    requires var w := Run(o, Begin(o), before); id !in w.requests && w.now <= from <= t
    requires Waits(during, id)
    ensures var w := Run(o, Begin(o), before);
            Granted(o, Run(o, Apply(o, w, Select(id, from)), during), id, t)
            <==> Alive(o.cfg, o.at, o.created, Seen(o, w), t)
  {
    BeginIsRight(o);
    RunKeepsRight(o, Begin(o), before);
    GrantedByRead(o, Run(o, Begin(o), before), id, from, during, t);
  }

  lemma SeenIsSettled(o: Origin, w: World)
    requires Kept(o, w)
    ensures Settled(o.cfg, o.at, o.created, Seen(o, w))
  {
    var last := Last(o, w.log);
    LastIsCounted(o, w.log);
    if last != o.at {
      var k :| 0 <= k < |w.log| && w.log[k] == Counted(last);
      assert EntryOk(o, w, k);
      var e: nat :| Stems(o, w.log[..k], e) && last <= e * SEC;
      StemsUnderCap(o, w.log[..k], e);
    }
  }

  lemma StemsUnderCap(o: Origin, log: seq<Entry>, e: nat)
    requires Stems(o, log, e)
    ensures e == First(o) || o.cfg.maxLifetime == 0 || e <= CapFloor(o.cfg, o.created)
  {
    if e != First(o) && o.cfg.maxLifetime > 0 {
      var a :| Counted(a) in log && e == Stored(o, a);
      FloorMonotone(Target(o.cfg, o.created, a), o.created * SEC + o.cfg.maxLifetime);
    }
  }

  /** So where rounding the cap cannot matter, as on every configured server, requests in turn
      keep the documented rule. */
  lemma InTurnKeepsIdleRule(o: Origin, steps: seq<Step>, t: nat)
    requires InTurnRun(o, Begin(o), steps) && Run(o, Begin(o), steps).now <= t
    requires !CapIsRounded(o.cfg, o.at, o.created)
    ensures var w := Run(o, Begin(o), steps);
            Answers(o.cfg, w.row, t) <==> IdleRule(o.cfg, o.created, Seen(o, w), t)
  {
    BeginIsRight(o);
    RunKeepsRight(o, Begin(o), steps);
    var w := Run(o, Begin(o), steps);
    BestIsIdle(o, w);
    SeenIsSettled(o, w);
    RulesAgree(o.cfg, o.at, o.created, Seen(o, w), t);
  }

  // ---- what being out of turn takes ----

  /** A request that finds the row as it read it is in turn. So a step out of turn takes another
      statement on the row since the request's read. */
  lemma UndisturbedIsInTurn(o: Origin, w: World, s: Step)
    requires Kept(o, w) && OnTime(w, s) && (s.Write? || s.Drop?) && s.id in w.requests
    requires match w.requests[s.id]
             case Taken(_) => true
             case Renewing(seen, _) => w.row == Some(seen)
             case Dropping(seen, _) => w.row == Some(seen)
    ensures InTurn(o, w, s)
  {
    assert RequestOk(o, w, w.requests[s.id]);
    match w.requests[s.id]
    case Taken(_) =>
    case Renewing(seen, a) =>
      FloorMonotone(seen.expires * SEC, Target(o.cfg, o.created, a));
      UntilGrows(o, seen.expires, Stored(o, a));
    case Dropping(seen, a) =>
  }

  /** The stored expiry moves back exactly when the renewal of one access lands on a row that
      another renewal, written since its read, had moved further. */
  lemma ExpiryMovesBackExactly(o: Origin, w: World, s: Step)
    requires Kept(o, w) && w.row.Some? && OnTime(w, s)
    ensures var next := Apply(o, w, s);
            next.row.Some? && next.row.value.expires < w.row.value.expires
            <==> s.Write? && s.ok && s.id in w.requests && w.requests[s.id].Renewing? &&
                 w.requests[s.id].seen.expires <= Stored(o, w.requests[s.id].at) < w.row.value.expires
  {
    if s.Write? && s.ok && s.id in w.requests && w.requests[s.id].Renewing? {
      var Renewing(seen, a) := w.requests[s.id];
      assert RequestOk(o, w, w.requests[s.id]);
      FloorMonotone(seen.expires * SEC, Target(o.cfg, o.created, a));
    }
  }
}

/** The statements on the table of all sessions are the steps of each one. */
module SessionStatements {
  import opened Clock
  import opened SessionRules
  import opened Sessions
  import opened Wrappers
  import SessionRaces

  /** The renewing UPDATE; it may find no row. */
  function UpdateExpiry(entries: map<string, Entry>, token: string, exp: nat): map<string, Entry> {
    if token in entries then Rewritten(entries, token, exp) else entries
  }

  /** Each statement on the table does to the row of its token what its step does, and the
      UPDATE and the DELETE of one token leave every other one alone. */
  lemma StatementsAreSteps(o: SessionRaces.Origin, w: SessionRaces.World, entries: map<string, Entry>, token: string,
                           other: string, id: int, t: nat, clock: nat)
    requires Lookup(entries, token) == w.row && id in w.requests && other != token
    ensures w.requests[id].Renewing? ==>
              var target := Target(o.cfg, w.requests[id].seen.created, w.requests[id].at);
              var written := UpdateExpiry(entries, token, target);
              && Lookup(written, token) == SessionRaces.Apply(o, w, SessionRaces.Write(id, t, true)).row
              && Lookup(written, other) == Lookup(entries, other)
    ensures w.requests[id].Dropping? ==>
              && Lookup(entries - {token}, token) == SessionRaces.Apply(o, w, SessionRaces.Drop(id, t, true)).row
              && Lookup(entries - {token}, other) == Lookup(entries, other)
    ensures Lookup(Purged(entries, Floor(clock)), token) ==
            SessionRaces.Apply(o, w, SessionRaces.Sweep(clock, t)).row
    ensures token in entries ==>
              Lookup(SignedOut(entries, entries[token].who.id.username), token) ==
              SessionRaces.Apply(o, w, SessionRaces.SignOut(t)).row
  {
    if token in entries && entries[token].session.expires < Floor(clock) {
      assert token !in Purged(entries, Floor(clock));
    }
  }
}
