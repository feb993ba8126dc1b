/** The schema runner (internal/storage/sqlite/sqlite.go). The schema is what the committed
    bodies make of it in the order they were committed, so it is modelled as that order. */
module Migrations {

  /** What happens to a file that is due: its transaction commits, it is rolled back with an
      error, or it commits and the process ends before the next file. */
  datatype Fate = Commits | RollsBack | CommitsThenDies

  predicate Distinct(s: seq<string>) {
    forall i, j :: 0 <= i < j < |s| ==> s[i] != s[j]
  }

  function Elements(s: seq<string>): set<string> {
    set v | v in s
  }

  /** The names not yet done, in order. */
  function Missing(names: seq<string>, done: set<string>): seq<string> {
    if names == [] then []
    else (if names[0] in done then [] else [names[0]]) + Missing(names[1..], done)
  }

  lemma {:induction false} MissingAre(names: seq<string>, done: set<string>, v: string)
    ensures v in Missing(names, done) <==> v in names && v !in done
  {
    if names != [] { MissingAre(names[1..], done, v); }
  }

  predicate Prefix(a: seq<string>, b: seq<string>) {
    |a| <= |b| && a == b[..|a|]
  }

  lemma {:induction false} MissingConcat(a: seq<string>, b: seq<string>, done: set<string>)
    ensures Missing(a + b, done) == Missing(a, done) + Missing(b, done)
  {
    if a == [] {
      assert a + b == b;
    } else {
      assert (a + b)[1..] == a[1..] + b;
      MissingConcat(a[1..], b, done);
    }
  }

  lemma MissingSnoc(names: seq<string>, i: nat, done: set<string>)
    requires i < |names|
    ensures Missing(names[..i + 1], done) ==
            Missing(names[..i], done) + if names[i] in done then [] else [names[i]]
  {
    assert names[..i + 1] == names[..i] + [names[i]] && [names[i]][1..] == [];
    MissingConcat(names[..i], [names[i]], done);
  }

  lemma PartOfPlan(names: seq<string>, i: nat, done: set<string>, before: seq<string>)
    requires i <= |names|
    ensures Prefix(before, before + Missing(names[..i], done))
    ensures Prefix(before + Missing(names[..i], done), before + Missing(names, done))
  {
    MissingConcat(names[..i], names[i..], done);
    assert names == names[..i] + names[i..];
  }

  lemma OneMoreFile(names: seq<string>, i: nat, done: set<string>, before: seq<string>)
    requires Distinct(names) && i < |names|
    ensures before + Missing(names[..i + 1], done) ==
            before + Missing(names[..i], done) + if names[i] in done then [] else [names[i]]
    ensures Elements(names[..i + 1]) == Elements(names[..i]) + {names[i]} && names[i] !in Elements(names[..i])
    ensures Prefix(before, before + Missing(names[..i], done)) && Prefix(before, before + Missing(names[..i + 1], done))
    ensures Prefix(before + Missing(names[..i], done), before + Missing(names, done))
    ensures Prefix(before + Missing(names[..i + 1], done), before + Missing(names, done))
  {
    MissingSnoc(names, i, done);
    assert names[..i + 1] == names[..i] + [names[i]];
    PartOfPlan(names, i, done, before);
    PartOfPlan(names, i + 1, done, before);
  }

  /** The files that were due among the first i committed. */
  predicate Commit(done: set<string>, names: seq<string>, fates: seq<Fate>, i: int)
    requires 0 <= i <= |names| == |fates|
  {
    forall k :: 0 <= k < i && names[k] !in done ==> fates[k].Commits?
  }

  /** The first i files are through. */
  ghost predicate Reached(done: set<string>, before: seq<string>, recorded: set<string>, committed: seq<string>,
                          names: seq<string>, fates: seq<Fate>, i: int)
    requires 0 <= i <= |names| == |fates|
  {
    && committed == before + Missing(names[..i], done) && recorded == done + Elements(names[..i])
    && Commit(done, names, fates, i)
    && Prefix(before, committed) && Prefix(committed, before + Missing(names, done))
  }

  lemma DueHere(done: set<string>, before: seq<string>, recorded: set<string>, committed: seq<string>,
                names: seq<string>, fates: seq<Fate>, i: nat)
    requires i < |names| == |fates| && Distinct(names) && Reached(done, before, recorded, committed, names, fates, i)
    ensures names[i] in recorded <==> names[i] in done
  {
    OneMoreFile(names, i, done, before);
  }

  lemma GoesOn(done: set<string>, before: seq<string>, recorded: set<string>, committed: seq<string>,
               names: seq<string>, fates: seq<Fate>, i: nat)
    requires i < |names| == |fates| && Distinct(names) && Reached(done, before, recorded, committed, names, fates, i)
    requires names[i] !in done ==> fates[i].Commits?
    ensures Reached(done, before, if names[i] in done then recorded else recorded + {names[i]},
                    if names[i] in done then committed else committed + [names[i]], names, fates, i + 1)
  {
    OneMoreFile(names, i, done, before);
  }

  lemma StopsHere(done: set<string>, before: seq<string>, recorded: set<string>, committed: seq<string>,
                  names: seq<string>, fates: seq<Fate>, i: nat)
    requires i < |names| == |fates| && Distinct(names) && Reached(done, before, recorded, committed, names, fates, i)
    requires names[i] !in done && !fates[i].Commits?
    ensures var after := if fates[i].RollsBack? then committed else committed + [names[i]];
            && StopsAt(done, before, after, names, fates, i)
            && Prefix(before, after) && Prefix(after, before + Missing(names, done))
    ensures !forall f | f in fates :: f.Commits?
  {
    OneMoreFile(names, i, done, before);
    assert fates[i] in fates;
  }

  /** A run that fails stops at the first due file that does not just commit; that file is in
      only if the process died after its commit. */
  predicate StopsAt(done: set<string>, before: seq<string>, after: seq<string>, names: seq<string>, fates: seq<Fate>,
                    i: int)
    requires 0 <= i < |names| == |fates|
  {
    && names[i] !in done && !fates[i].Commits? && Commit(done, names, fates, i)
    && after == before + Missing(names[..i], done) + if fates[i].RollsBack? then [] else [names[i]]
  }

  class Database {
    /** Rows of schema_migrations. */
    var recorded: set<string>
    /** Bodies committed, in order. */
    var committed: seq<string>

    ghost predicate Valid()
      reads this
    {
      Distinct(committed) && recorded == Elements(committed)
    }

    constructor ()
      ensures Valid() && committed == []
    {
      recorded, committed := {}, [];
    }

    /** One transaction: body and record together or neither. */
    method Apply(version: string, fate: Fate) returns (ok: bool)
      requires Valid() && version !in recorded
      modifies this
      ensures Valid() && ok == fate.Commits?
      ensures committed == if fate.RollsBack? then old(committed) else old(committed) + [version]
      ensures recorded == if fate.RollsBack? then old(recorded) else old(recorded) + {version}
    {
      ok := fate.Commits?;
      if !fate.RollsBack? {
        committed := committed + [version];
        recorded := recorded + {version};
      }
    }

    /** names are the embedded versions in lexical order. Whatever happens, the missing bodies
        are committed in order up to some point, each recorded exactly when committed. */
    method Migrate(names: seq<string>, fates: seq<Fate>) returns (ok: bool)
      requires Valid() && Distinct(names) && |fates| == |names|
      modifies this
      ensures Valid() && Prefix(old(committed), committed)
      ensures Prefix(committed, old(committed) + Missing(names, old(recorded)))
      ensures ok ==> committed == old(committed) + Missing(names, old(recorded))
      ensures (forall f | f in fates :: f.Commits?) ==> ok
      ensures !ok ==> exists i :: 0 <= i < |names| && StopsAt(old(recorded), old(committed), committed, names, fates, i)
    {
      ghost var done, before := recorded, committed;
      assert names[..0] == [];
      for i := 0 to |names|
        invariant Valid() && Reached(done, before, recorded, committed, names, fates, i)
      {
        ghost var r, c := recorded, committed;
        DueHere(done, before, r, c, names, fates, i);
        if names[i] !in recorded {
          ok := Apply(names[i], fates[i]);
          if !ok {
            StopsHere(done, before, r, c, names, fates, i);
            return;
          }
        }
        GoesOn(done, before, r, c, names, fates, i);
      }
      ok := true;
      assert names[..|names|] == names;
    }
  }

  lemma RestNotDone(names: seq<string>, k: nat, v: string)
    requires Distinct(names) && k <= |names| && v in names[k..]
    ensures v !in names[..k]
  {
    var i :| 0 <= i < |names[k..]| && names[k..][i] == v;
    assert names[k + i] == v;
  }

  lemma {:induction false} MissingSplit(a: seq<string>, b: seq<string>, done: set<string>)
    ensures Missing(a + b, done) == Missing(a, done) + Missing(b, done)
  {
    if a == [] {
      assert a + b == b;
    } else {
      assert (a + b)[1..] == a[1..] + b;
      MissingSplit(a[1..], b, done);
    }
  }

  lemma {:induction false} AllDone(names: seq<string>, done: set<string>)
    requires forall v | v in names :: v in done
    ensures Missing(names, done) == []
  {
    if names != [] { AllDone(names[1..], done); }
  }

  lemma {:induction false} NoneDone(names: seq<string>, done: set<string>)
    requires forall v | v in names :: v !in done
    ensures Missing(names, done) == names
  {
    if names != [] { NoneDone(names[1..], done); }
  }

  lemma MissingTail(first: seq<string>, rest: seq<string>, done: set<string>)
    requires forall v | v in first :: v in done
    requires forall v | v in rest :: v !in done
    ensures Missing(first + rest, done) == rest
  {
    MissingSplit(first, rest, done);
    AllDone(first, done);
    NoneDone(rest, done);
  }

  lemma MissingOfPrefix(names: seq<string>, k: nat)
    requires Distinct(names) && k <= |names|
    ensures Missing(names, Elements(names[..k])) == names[k..]
  {
    forall v | v in names[k..]
      ensures v !in Elements(names[..k])
    {
      RestNotDone(names, k, v);
    }
    MissingTail(names[..k], names[k..], Elements(names[..k]));
    assert names == names[..k] + names[k..];
  }

  /** A run that succeeds ends in the schema of one uninterrupted run on an empty database if
      and only if the bodies already committed are the first ones of the list, in order. */
  lemma CatchesUpExactly(names: seq<string>, committed: seq<string>)
    requires Distinct(names) && Distinct(committed)
    ensures committed + Missing(names, Elements(committed)) == Missing(names, {}) <==> Prefix(committed, names)
    ensures Missing(names, {}) == names
  {
    NoneDone(names, {});
    var end := committed + Missing(names, Elements(committed));
    assert end[..|committed|] == committed;
    if Prefix(committed, names) {
      MissingOfPrefix(names, |committed|);
      assert committed + names[|committed|..] == names;
    }
  }

  datatype Start = Start(names: seq<string>, fates: seq<Fate>)

  predicate WellFormed(s: Start) {
    Distinct(s.names) && |s.fates| == |s.names|
  }

  /** The releases of an append-only schema: a later release only adds files at the end. */
  predicate AppendOnly(starts: seq<Start>) {
    forall i, j :: 0 <= i < j < |starts| ==> Prefix(starts[i].names, starts[j].names)
  }

  /** Any number of starts, each of which may fail or die at any file: each body is committed
      at most once and recorded exactly when committed, what is committed is always the first
      part of the list, and all of it once the last start succeeds. */
  method StartRepeatedly(db: Database, starts: seq<Start>) returns (ok: bool)
    requires db.Valid() && db.committed == []
    requires (forall s | s in starts :: WellFormed(s)) && AppendOnly(starts)
    modifies db
    ensures db.Valid()
    ensures starts != [] ==> Prefix(db.committed, starts[|starts| - 1].names)
    ensures starts != [] && ok ==> db.committed == starts[|starts| - 1].names
  {
    ok := true;
    for i := 0 to |starts|
      invariant db.Valid()
      invariant if i == 0 then db.committed == [] else Prefix(db.committed, starts[i - 1].names)
      invariant i > 0 && ok ==> db.committed == starts[i - 1].names
    {
      var s := starts[i];
      ghost var before := db.committed;
      assert s in starts && WellFormed(s);
      assert Prefix(before, s.names) by {
        if i > 0 { assert Prefix(starts[i - 1].names, s.names); }
      }
      MissingOfPrefix(s.names, |before|);
      assert before + s.names[|before|..] == s.names;
      ok := db.Migrate(s.names, s.fates);
    }
  }
}
