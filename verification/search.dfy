/** The device search: escaping against the LIKE matcher
    (internal/storage/sqlite/devices.go, escapeLike and ListDevicesFiltered). */
module Search {
  import opened Wrappers
  import opened TimeText

  const ESCAPE: char := '\\'

  predicate Special(c: char) {
    c == ESCAPE || c == '%' || c == '_'
  }

  /** One pass over the text, each special character preceded by the escape character. */
  function EscapeLike(s: string): string {
    if s == "" then "" else EscapeChar(s[0]) + EscapeLike(s[1..])
  }

  function EscapeChar(c: char): string {
    if Special(c) then [ESCAPE, c] else [c]
  }

  /** SQLite's LOWER: ASCII letters only. */
  function LowerChar(c: char): char {
    if 'A' <= c <= 'Z' then (c as int + 32) as char else c
  }

  function Lower(s: string): (r: string)
    ensures |r| == |s| && forall i :: 0 <= i < |s| ==> r[i] == LowerChar(s[i])
  {
    if s == "" then "" else [LowerChar(s[0])] + Lower(s[1..])
  }

  /** text LIKE pattern ESCAPE '\': % stands for any text, _ for any one character, an
      escaped character for itself, ASCII letters match in either case, and a pattern that
      ends in the escape character matches nothing. */
  predicate Like(pattern: string, text: string)
    decreases |pattern|, |text|
  {
    if pattern == "" then text == ""
    else if pattern[0] == '%' then Like(pattern[1..], text) || (text != "" && Like(pattern, text[1..]))
    else if pattern[0] == ESCAPE then
      |pattern| > 1 && text != "" && LowerChar(pattern[1]) == LowerChar(text[0]) && Like(pattern[2..], text[1..])
    else
      text != "" && (pattern[0] == '_' || LowerChar(pattern[0]) == LowerChar(text[0])) && Like(pattern[1..], text[1..])
  }

  predicate At(text: string, part: string, i: int) {
    0 <= i <= |text| - |part| && text[i..i + |part|] == part
  }

  ghost predicate Contains(text: string, part: string) {
    exists i :: At(text, part, i)
  }

  lemma {:induction false} LowerEscape(q: string)
    ensures Lower(EscapeLike(q)) == EscapeLike(Lower(q))
  {
    if q != "" {
      LowerEscape(q[1..]);
      LowerConcat(EscapeChar(q[0]), EscapeLike(q[1..]));
      assert Lower(q)[1..] == Lower(q[1..]);
    }
  }

  lemma LowerConcat(a: string, b: string)
    ensures Lower(a + b) == Lower(a) + Lower(b)
  {
  }

  lemma LowerIdempotent(s: string)
    ensures Lower(Lower(s)) == Lower(s)
  {
  }

  lemma EscapedCharMatches(c: char, rest: string, text: string)
    ensures Like(EscapeChar(c) + rest, text) <==>
            text != "" && LowerChar(c) == LowerChar(text[0]) && Like(rest, text[1..])
  {
    var p := EscapeChar(c) + rest;
    assert (if Special(c) then p[2..] else p[1..]) == rest;
  }

  /** An escaped text followed by any rest matches exactly the texts that start with it. */
  lemma {:induction false} EscapedMatches(q: string, rest: string, text: string)
    requires Lower(q) == q && Lower(text) == text
    ensures Like(EscapeLike(q) + rest, text) <==> q <= text && Like(rest, text[|q|..])
    decreases |q|
  {
    if q == "" {
      assert EscapeLike(q) + rest == rest && text[0..] == text;
    } else {
      assert EscapeLike(q) + rest == EscapeChar(q[0]) + (EscapeLike(q[1..]) + rest);
      EscapedCharMatches(q[0], EscapeLike(q[1..]) + rest, text);
      assert Lower(q[1..]) == q[1..] && LowerChar(q[0]) == q[0];
      if text != "" {
        assert Lower(text[1..]) == text[1..] && LowerChar(text[0]) == text[0];
        EscapedMatches(q[1..], rest, text[1..]);
        assert q == [q[0]] + q[1..] && text == [text[0]] + text[1..];
        assert q <= text <==> q[0] == text[0] && q[1..] <= text[1..];
        if q <= text { assert text[1..][|q| - 1..] == text[|q|..]; }
      }
    }
  }

  lemma {:induction false} PercentMatchesAll(text: string)
    ensures Like("%", text)
    decreases |text|
  {
    if text != "" { PercentMatchesAll(text[1..]); }
  }

  lemma {:induction false} PercentSearches(q: string, text: string)
    requires Lower(q) == q && Lower(text) == text
    ensures Like("%" + EscapeLike(q) + "%", text) <==> Contains(text, q)
    decreases |text|
  {
    var p := "%" + EscapeLike(q) + "%";
    assert p[1..] == EscapeLike(q) + "%";
    EscapedMatches(q, "%", text);
    if q <= text {
      PercentMatchesAll(text[|q|..]);
      assert At(text, q, 0);
    } else if text != "" {
      assert Lower(text[1..]) == text[1..];
      PercentSearches(q, text[1..]);
      ContainsTail(text, q);
    }
  }

  lemma ContainsTail(text: string, q: string)
    requires text != "" && !(q <= text)
    ensures Contains(text, q) <==> Contains(text[1..], q)
  {
    if i :| At(text, q, i) {
      assert i > 0 && At(text[1..], q, i - 1);
    }
    if i :| At(text[1..], q, i) {
      assert At(text, q, i + 1);
    }
  }

  /** The search clause matches a column exactly when the lower-cased query is a substring
      of the lower-cased column, whatever the query holds. */
  lemma SearchIsLiteral(column: string, query: string)
    ensures Like(Lower("%" + EscapeLike(query) + "%"), Lower(column)) <==> Contains(Lower(column), Lower(query))
  {
    assert Lower("%") == "%";
    LowerConcat("%" + EscapeLike(query), "%");
    LowerConcat("%", EscapeLike(query));
    LowerEscape(query);
    LowerIdempotent(query);
    LowerIdempotent(column);
    PercentSearches(Lower(query), Lower(column));
  }

  /** Equal, or the same ASCII letter in the other case. */
  predicate SameLetter(a: char, b: char) {
    || a == b
    || ('A' <= a <= 'Z' && b as int == a as int + 32)
    || ('A' <= b <= 'Z' && a as int == b as int + 32)
  }

  /** The text holds q from place i on, whatever the case of its letters. */
  predicate HoldsAt(text: string, q: string, i: int) {
    0 <= i <= |text| - |q| && forall k :: 0 <= k < |q| ==> SameLetter(text[i + k], q[k])
  }

  lemma SameLetterLower(a: char, b: char)
    ensures SameLetter(a, b) <==> LowerChar(a) == LowerChar(b)
  {
  }

  lemma HoldsAtLower(text: string, q: string, i: int)
    ensures HoldsAt(text, q, i) <==> At(Lower(text), Lower(q), i)
  {
    if 0 <= i <= |text| - |q| {
      var part := Lower(text)[i..i + |q|];
      forall k | 0 <= k < |q| ensures SameLetter(text[i + k], q[k]) <==> part[k] == Lower(q)[k] {
        SameLetterLower(text[i + k], q[k]);
      }
      assert part == Lower(q) <==> forall k :: 0 <= k < |q| ==> part[k] == Lower(q)[k];
    }
  }

  /** So a column matches exactly when the query stands somewhere in it, up to the case of
      ASCII letters. */
  lemma SearchIgnoresCase(column: string, query: string)
    ensures Like(Lower("%" + EscapeLike(query) + "%"), Lower(column)) <==> exists i :: HoldsAt(column, query, i)
  {
    SearchIsLiteral(column, query);
    forall i ensures HoldsAt(column, query, i) <==> At(Lower(column), Lower(query), i) {
      HoldsAtLower(column, query, i);
    }
  }

  // ---- the filtered listing ----

  datatype Device = Device(id: string, udid: string, serial: string, name: string, model: string, checkedOut: bool,
                           lastSeen: Option<string>)

  ghost predicate Holds(column: string, query: string) {
    exists i :: HoldsAt(column, query, i)
  }

  ghost predicate Matches(d: Device, query: string, enrolledOnly: bool) {
    && (Holds(d.name, query) || Holds(d.serial, query) || Holds(d.model, query) || Holds(d.udid, query))
    && (enrolledOnly ==> !d.checkedOut)
  }

  ghost function Listed(table: seq<Device>, query: string, enrolledOnly: bool): seq<Device> {
    if table == [] then [] else
    Listed(table[..|table| - 1], query, enrolledOnly) +
      if Matches(table[|table| - 1], query, enrolledOnly) then [table[|table| - 1]] else []
  }

  /** Each device that matches is listed as often as the table holds it, any other not at all. */
  lemma {:induction false} ListedCounts(table: seq<Device>, query: string, enrolledOnly: bool, d: Device)
    ensures multiset(Listed(table, query, enrolledOnly))[d] ==
            if Matches(d, query, enrolledOnly) then multiset(table)[d] else 0
  {
    if table != [] {
      var n := |table| - 1;
      ListedCounts(table[..n], query, enrolledOnly, d);
      assert table == table[..n] + [table[n]];
    }
  }

  method Selected(d: Device, query: string, enrolledOnly: bool) returns (r: bool)
    ensures r <==> Matches(d, query, enrolledOnly)
  {
    var pat := Lower("%" + EscapeLike(query) + "%");
    SearchIgnoresCase(d.name, query);
    SearchIgnoresCase(d.serial, query);
    SearchIgnoresCase(d.model, query);
    SearchIgnoresCase(d.udid, query);
    assert query == "" ==> HoldsAt(d.name, query, 0);
    r := (query == "" || Like(pat, Lower(d.name)) || Like(pat, Lower(d.serial)) || Like(pat, Lower(d.model)) ||
          Like(pat, Lower(d.udid)))
         && (!enrolledOnly || !d.checkedOut);
  }

  // ---- ORDER BY last_seen DESC ----

  /** How SQLite orders the column: NULL comes before any text. */
  predicate Before(a: Option<string>, b: Option<string>) {
    b.Some? && (a.None? || Less(a.value, b.value))
  }

  predicate NewestFirst(rows: seq<Device>) {
    forall i, k :: 0 <= i < k < |rows| ==> !Before(rows[i].lastSeen, rows[k].lastSeen)
  }

  lemma {:induction false} LessTransitive(a: string, b: string, c: string)
    requires Less(a, b) && Less(b, c)
    ensures Less(a, c)
    decreases |a|
  {
    if a != "" && a[0] == b[0] == c[0] { LessTransitive(a[1..], b[1..], c[1..]); }
  }

  lemma BeforeTransitive(a: Option<string>, b: Option<string>, c: Option<string>)
    requires Before(a, b) && Before(b, c)
    ensures Before(a, c)
  {
    if a.Some? { LessTransitive(a.value, b.value, c.value); }
  }

  lemma {:induction false} LessIrreflexive(a: string)
    ensures !Less(a, a)
  {
    if a != "" { LessIrreflexive(a[1..]); }
  }

  function Insert(rows: seq<Device>, d: Device): seq<Device> {
    if rows == [] then [d]
    else if Before(rows[0].lastSeen, d.lastSeen) then [d] + rows
    else [rows[0]] + Insert(rows[1..], d)
  }

  lemma {:induction false} InsertKeepsRows(rows: seq<Device>, d: Device)
    ensures multiset(Insert(rows, d)) == multiset(rows) + multiset{d}
  {
    if rows != [] {
      assert rows == [rows[0]] + rows[1..];
      InsertKeepsRows(rows[1..], d);
    }
  }

  lemma {:induction false} InsertKeepsOrder(rows: seq<Device>, d: Device)
    requires NewestFirst(rows)
    ensures NewestFirst(Insert(rows, d))
  {
    if rows != [] {
      if Before(rows[0].lastSeen, d.lastSeen) {
        forall k | 0 <= k < |rows| ensures !Before(d.lastSeen, rows[k].lastSeen) {
          if Before(d.lastSeen, rows[k].lastSeen) {
            BeforeTransitive(rows[0].lastSeen, d.lastSeen, rows[k].lastSeen);
            if k == 0 && rows[0].lastSeen.Some? { LessIrreflexive(rows[0].lastSeen.value); }
            assert false;
          }
        }
      } else {
        InsertKeepsOrder(rows[1..], d);
        InsertKeepsRows(rows[1..], d);
        var rest := Insert(rows[1..], d);
        forall k | 0 <= k < |rest| ensures !Before(rows[0].lastSeen, rest[k].lastSeen) {
          assert rest[k] in multiset(rest);
          assert rest[k] == d || rest[k] in rows[1..];
        }
      }
    }
  }

  /** An empty query filters nothing; any other one keeps the devices one of whose four
      columns holds it. Devices seen at the same time come in either order. */
  method ListDevicesFiltered(table: seq<Device>, query: string, enrolledOnly: bool) returns (out: seq<Device>)
    ensures NewestFirst(out) && multiset(out) == multiset(Listed(table, query, enrolledOnly))
    ensures forall d: Device :: multiset(out)[d] ==
              if (!enrolledOnly || !d.checkedOut) &&
                 (Holds(d.name, query) || Holds(d.serial, query) || Holds(d.model, query) || Holds(d.udid, query))
              then multiset(table)[d] else 0
  {
    forall d: Device ensures multiset(Listed(table, query, enrolledOnly))[d] ==
                             if Matches(d, query, enrolledOnly) then multiset(table)[d] else 0
    {
      ListedCounts(table, query, enrolledOnly, d);
    }
    out := [];
    for k := 0 to |table|
      invariant NewestFirst(out) && multiset(out) == multiset(Listed(table[..k], query, enrolledOnly))
    {
      var found := Selected(table[k], query, enrolledOnly);
      assert table[..k + 1][..k] == table[..k];
      if found {
        InsertKeepsRows(out, table[k]);
        InsertKeepsOrder(out, table[k]);
        out := Insert(out, table[k]);
      }
    }
    assert table[..|table|] == table;
  }
}
