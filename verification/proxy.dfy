/** Whose address a request counts against (internal/web/proxy.go). Parsing an address or a
    network out of text is a parameter; a network is a range of addresses of one family. */
module Proxy {
  import opened Wrappers

  datatype Address = Address(v4: bool, value: nat)

  datatype Net = Net(v4: bool, base: nat, size: nat) {
    predicate Contains(a: Address) {
      a.v4 == v4 && base <= a.value < base + size
    }
  }

  datatype Parser = Parser(ip: string -> Option<Address>, cidr: string -> Option<Net>)

  // ---- strings ----

  /** Unicode's White_Space. */
  predicate Space(c: char) {
    || '\t' <= c <= '\r' || c == ' ' || c == '\U{85}' || c == '\U{A0}' || c == '\U{1680}'
    || '\U{2000}' <= c <= '\U{200A}' || c == '\U{2028}' || c == '\U{2029}' || c == '\U{202F}' || c == '\U{205F}' ||
        c == '\U{3000}'
  }

  /** Its 25 characters, by number. */
  lemma SpaceNumbers(c: char)
    ensures Space(c) <==>
            c as int in {9, 10, 11, 12, 13, 32, 133, 160, 5760, 8192, 8193, 8194, 8195, 8196, 8197, 8198, 8199, 8200,
                         8201, 8202, 8232, 8233, 8239, 8287, 12288}
  {
  }

  function TrimLeft(s: string): string {
    if s != "" && Space(s[0]) then TrimLeft(s[1..]) else s
  }

  function TrimRight(s: string): string {
    if s != "" && Space(s[|s| - 1]) then TrimRight(s[..|s| - 1]) else s
  }

  function TrimSpace(s: string): string {
    TrimRight(TrimLeft(s))
  }

  /** The parts between commas: one more than there are commas. */
  function Split(s: string): (parts: seq<string>)
    ensures parts != []
  {
    if s == "" then [""]
    else
      var rest := Split(s[1..]);
      if s[0] == ',' then [""] + rest else [[s[0]] + rest[0]] + rest[1..]
  }

  lemma {:induction false} SplitAtComma(a: string, b: string)
    ensures Split(a + "," + b) == Split(a) + Split(b)
  {
    if a == "" {
      assert a + "," + b == "," + b && ("," + b)[1..] == b;
    } else {
      assert (a + "," + b)[1..] == a[1..] + "," + b;
      SplitAtComma(a[1..], b);
    }
  }

  /** Parts put back together with commas; also several lines of one header as the one list they
      stand for (section 5.3 of RFC 9110). */
  function Joined(parts: seq<string>): string {
    if parts == [] then "" else if |parts| == 1 then parts[0] else parts[0] + "," + Joined(parts[1..])
  }

  // ---- trust ----

  predicate Trusted(p: Parser, nets: seq<Net>, text: string) {
    var ip := p.ip(TrimSpace(text));
    ip.Some? && exists n | n in nets :: n.Contains(ip.value)
  }

  /** What a configured entry stands for; a bare address is a route to itself. */
  function Denotes(p: Parser, entry: string): Option<Net> {
    var e := TrimSpace(entry);
    if p.cidr(e).Some? then p.cidr(e)
    else if p.ip(e).Some? then Some(Net(p.ip(e).value.v4, p.ip(e).value.value, 1))
    else None
  }

  predicate Blank(entry: string) {
    TrimSpace(entry) == ""
  }

  method ParseEntry(p: Parser, e: string) returns (r: Option<Net>)
    ensures forall entry | TrimSpace(entry) == e :: r == Denotes(p, entry)
  {
    r := p.cidr(e);
    if r.Some? { return; }
    var ip := p.ip(e);
    if ip.Some? { r := Some(Net(ip.value.v4, ip.value.value, 1)); }
  }

  function Networks(p: Parser, entries: seq<string>): Option<seq<Net>> {
    if entries == [] then Some([])
    else
      var before, last := Networks(p, entries[..|entries| - 1]), entries[|entries| - 1];
      if before.None? || Blank(last) then before
      else if Denotes(p, last).None? then None
      else Some(before.value + [Denotes(p, last).value])
  }

  predicate Bad(p: Parser, entry: string) {
    !Blank(entry) && Denotes(p, entry).None?
  }

  predicate Lists(p: Parser, entry: string, n: Net) {
    !Blank(entry) && Denotes(p, entry) == Some(n)
  }

  lemma MoreEntries(entries: seq<string>, k: nat, e: string)
    requires |entries| == k + 1
    ensures e in entries <==> e in entries[..k] || e == entries[k]
  {
    assert entries == entries[..k] + [entries[k]];
  }

  lemma {:induction false} RefusesTheBad(p: Parser, entries: seq<string>)
    ensures Networks(p, entries).None? <==> exists e | e in entries :: Bad(p, e)
  {
    if entries != [] {
      var k := |entries| - 1;
      RefusesTheBad(p, entries[..k]);
      forall e
        ensures e in entries <==> e in entries[..k] || e == entries[k]
      {
        MoreEntries(entries, k, e);
      }
      assert (exists e | e in entries :: Bad(p, e)) <==>
             (exists e | e in entries[..k] :: Bad(p, e)) || Bad(p, entries[k]);
    }
  }

  lemma {:induction false} ListsTheRest(p: Parser, entries: seq<string>, n: Net)
    requires Networks(p, entries).Some?
    ensures n in Networks(p, entries).value <==> exists e | e in entries :: Lists(p, e, n)
  {
    if entries != [] {
      var k := |entries| - 1;
      ListsTheRest(p, entries[..k], n);
      forall e
        ensures e in entries <==> e in entries[..k] || e == entries[k]
      {
        MoreEntries(entries, k, e);
      }
      assert (exists e | e in entries :: Lists(p, e, n)) <==>
             (exists e | e in entries[..k] :: Lists(p, e, n)) || Lists(p, entries[k], n);
    }
  }

  /** The list is refused exactly when an entry is neither blank, an address nor a network;
      otherwise its networks are those its entries stand for. */
  lemma NetworksMean(p: Parser, entries: seq<string>, n: Net)
    ensures Networks(p, entries).None? <==> exists e | e in entries :: Bad(p, e)
    ensures Networks(p, entries).Some? ==> (n in Networks(p, entries).value <==>
                                            exists e | e in entries :: Lists(p, e, n))
  {
    RefusesTheBad(p, entries);
    if Networks(p, entries).Some? { ListsTheRest(p, entries, n); }
  }

  /** The entry trusts this address: its network holds it, or, being no network, it is it. */
  predicate Trusts(p: Parser, entry: string, a: Address) {
    var e := TrimSpace(entry);
    e != "" && match p.cidr(e) {
      case Some(n) => n.v4 == a.v4 && n.base <= a.value < n.base + n.size
      case None => p.ip(e) == Some(a)
    }
  }

  lemma TrustsIsListed(p: Parser, entry: string, a: Address)
    ensures Trusts(p, entry, a) <==> !Blank(entry) && Denotes(p, entry).Some? && Denotes(p, entry).value.Contains(a)
  {
  }

  /** With these entries configured, a text is trusted exactly when it parses to an address that
      some entry trusts. */
  lemma TrustedExactly(p: Parser, entries: seq<string>, text: string)
    requires Networks(p, entries).Some?
    ensures Trusted(p, Networks(p, entries).value, text)
            <==> p.ip(TrimSpace(text)).Some? &&
                 exists entry | entry in entries :: Trusts(p, entry, p.ip(TrimSpace(text)).value)
  {
    var nets, ip := Networks(p, entries).value, p.ip(TrimSpace(text));
    if Trusted(p, nets, text) {
      var n :| n in nets && n.Contains(ip.value);
      NetworksMean(p, entries, n);
      var e :| e in entries && Lists(p, e, n);
      TrustsIsListed(p, e, ip.value);
    }
    if ip.Some? && exists entry | entry in entries :: Trusts(p, entry, ip.value) {
      var e :| e in entries && Trusts(p, e, ip.value);
      TrustsIsListed(p, e, ip.value);
      var n := Denotes(p, e).value;
      assert Lists(p, e, n);
      NetworksMean(p, entries, n);
    }
  }

  method ParseTrustedProxies(p: Parser, entries: seq<string>) returns (r: Option<seq<Net>>)
    ensures r == Networks(p, entries)
  {
    var nets: seq<Net> := [];
    for i := 0 to |entries|
      invariant Networks(p, entries[..i]) == Some(nets)
    {
      assert entries[..i + 1][..i] == entries[..i];
      var e := TrimSpace(entries[i]);
      if e == "" { continue; }
      var net := ParseEntry(p, e);
      assert net == Denotes(p, entries[i]);
      if net.None? {
        RefusedStays(p, entries, i + 1);
        return None;
      }
      nets := nets + [net.value];
    }
    assert entries[..|entries|] == entries;
    r := Some(nets);
  }

  lemma {:induction false} RefusedStays(p: Parser, entries: seq<string>, i: nat)
    requires i <= |entries| && Networks(p, entries[..i]).None?
    ensures Networks(p, entries).None?
    decreases |entries|
  {
    if i == |entries| {
      assert entries[..i] == entries;
    } else {
      var k := |entries| - 1;
      assert entries[..k][..i] == entries[..i];
      RefusedStays(p, entries[..k], i);
    }
  }

  // ---- what trimming leaves ----

  lemma {:induction false} TrimLeftIs(s: string) returns (i: nat)
    ensures i <= |s| && TrimLeft(s) == s[i..] && (i < |s| ==> !Space(s[i]))
    ensures forall k :: 0 <= k < i ==> Space(s[k])
  {
    i := 0;
    if s != "" && Space(s[0]) {
      var k := TrimLeftIs(s[1..]);
      i := k + 1;
      assert forall l :: 1 <= l < i ==> s[l] == s[1..][l - 1];
    }
  }

  lemma {:induction false} TrimRightIs(s: string) returns (j: nat)
    ensures j <= |s| && TrimRight(s) == s[..j] && (j > 0 ==> !Space(s[j - 1]))
    ensures forall k :: j <= k < |s| ==> Space(s[k])
  {
    j := |s|;
    if s != "" && Space(s[|s| - 1]) {
      var rest := s[..|s| - 1];
      j := TrimRightIs(rest);
      assert forall l :: 0 <= l < |rest| ==> s[l] == rest[l];
      assert rest[..j] == s[..j];
    }
  }

  /** r is s from i to j, without the space at its ends. */
  predicate Trims(s: string, i: nat, j: nat, r: string) {
    && i <= j <= |s| && r == s[i..j]
    && (forall k :: 0 <= k < |s| && (k < i || j <= k) ==> Space(s[k]))
    && (r != "" ==> !Space(r[0]) && !Space(r[|r| - 1]))
  }

  /** A text cut on the left at i, and then on the right. */
  lemma CutTwice(s: string, i: nat, left: string, l: nat)
    requires i <= |s| && left == s[i..] && l <= |left| && (i < |s| ==> !Space(s[i]))
    requires (forall k :: 0 <= k < i ==> Space(s[k])) && (forall k :: l <= k < |left| ==> Space(left[k]))
    requires l > 0 ==> !Space(left[l - 1])
    ensures Trims(s, i, i + l, left[..l])
  {
    assert left[..l] == s[i..i + l];
    forall k | 0 <= k < |s| && (k < i || i + l <= k) ensures Space(s[k]) {
      if k >= i { assert left[k - i] == s[k]; }
    }
  }

  lemma TrimSpaceTrims(s: string) returns (i: nat, j: nat)
    ensures Trims(s, i, j, TrimSpace(s))
  {
    i := TrimLeftIs(s);
    var left := TrimLeft(s);
    var l := TrimRightIs(left);
    j := i + l;
    CutTwice(s, i, left, l);
  }

  lemma TrimmedStays(s: string)
    ensures TrimSpace(TrimSpace(s)) == TrimSpace(s)
  {
    var i, j := TrimSpaceTrims(s);
    var r := TrimSpace(s);
    assert TrimLeft(r) == r && TrimRight(r) == r;
  }

  /** A part of the header that names nobody: blank, or an address in a configured network. */
  predicate Passes(p: Parser, nets: seq<Net>, part: string) {
    var text := TrimSpace(part);
    text == "" ||
    (p.ip(text).Some? && exists n | n in nets ::
         p.ip(text).value.v4 == n.v4 && n.base <= p.ip(text).value.value < n.base + n.size)
  }

  /** Part i names the client: every part to its right passes, and it does not. */
  predicate Names(p: Parser, nets: seq<Net>, parts: seq<string>, i: int, client: string) {
    && 0 <= i < |parts| && !Passes(p, nets, parts[i]) && client == TrimSpace(parts[i])
    && forall k :: i < k < |parts| ==> Passes(p, nets, parts[k])
  }

  /** A hop that is neither blank nor trusted. */
  predicate Stranger(p: Parser, nets: seq<Net>, hop: string) {
    hop != "" && !Trusted(p, nets, hop)
  }

  /** The strangers a header names, in order. */
  function Strangers(p: Parser, nets: seq<Net>, parts: seq<string>): seq<string> {
    if parts == [] then []
    else
      var hop := TrimSpace(parts[|parts| - 1]);
      Strangers(p, nets, parts[..|parts| - 1]) + if Stranger(p, nets, hop) then [hop] else []
  }

  /** The answer as the right end decides it. */
  function Answer(host: string, strangers: seq<string>): string {
    if strangers == [] then host else strangers[|strangers| - 1]
  }

  lemma WalkLeft(p: Parser, nets: seq<Net>, host: string, parts: seq<string>, i: nat)
    requires i < |parts|
    ensures var hop := TrimSpace(parts[i]);
            Answer(host, Strangers(p, nets, parts[..i + 1]))
            == if Stranger(p, nets, hop) then hop else Answer(host, Strangers(p, nets, parts[..i]))
  {
    assert parts[..i + 1][..i] == parts[..i];
  }

  lemma StrangerDoesNotPass(p: Parser, nets: seq<Net>, part: string)
    ensures Stranger(p, nets, TrimSpace(part)) <==> !Passes(p, nets, part)
  {
    TrimmedStays(part);
  }

  predicate AllPass(p: Parser, nets: seq<Net>, parts: seq<string>) {
    forall k :: 0 <= k < |parts| ==> Passes(p, nets, parts[k])
  }

  lemma StillNamed(p: Parser, nets: seq<Net>, parts: seq<string>, i: int, client: string)
    requires parts != [] && Passes(p, nets, parts[|parts| - 1]) && Names(p, nets, parts[..|parts| - 1], i, client)
    ensures Names(p, nets, parts, i, client)
  {
    var rest := parts[..|parts| - 1];
    assert forall k :: 0 <= k < |rest| ==> parts[k] == rest[k];
  }

  /** The answer is the rightmost part that does not pass, or the peer. */
  lemma {:induction false} RightmostNames(p: Parser, nets: seq<Net>, host: string, parts: seq<string>)
    ensures AllPass(p, nets, parts) ==> Strangers(p, nets, parts) == []
    ensures !AllPass(p, nets, parts) ==> exists i :: Names(p, nets, parts, i, Answer(host, Strangers(p, nets, parts)))
  {
    if parts != [] {
      var n := |parts| - 1;
      var rest := parts[..n];
      RightmostNames(p, nets, host, rest);
      StrangerDoesNotPass(p, nets, parts[n]);
      WalkLeft(p, nets, host, parts, n);
      assert parts[..n + 1] == parts;
      var client := Answer(host, Strangers(p, nets, parts));
      if !Passes(p, nets, parts[n]) {
        assert Names(p, nets, parts, n, client);
      } else if !AllPass(p, nets, rest) {
        var i :| Names(p, nets, rest, i, client);
        StillNamed(p, nets, parts, i, client);
      }
    }
  }

  lemma NoHeader(p: Parser, nets: seq<Net>)
    ensures Strangers(p, nets, Split("")) == []
  {
    assert Split("")[..0] == [] && TrimSpace("") == "";
  }

  /** The value of a header with these lines: the first one's. */
  function HeaderGet(fields: seq<string>): string {
    if fields == [] then "" else fields[0]
  }

  class App {
    const trusted: seq<Net>
    const parser: Parser

    constructor (parser: Parser, trusted: seq<Net>)
      ensures this.parser == parser && this.trusted == trusted
    {
      this.parser, this.trusted := parser, trusted;
    }

    method IsTrustedProxy(text: string) returns (yes: bool)
      ensures yes == Trusted(parser, trusted, text)
    {
      var ip := parser.ip(TrimSpace(text));
      if ip.None? { return false; }
      for i := 0 to |trusted|
        invariant forall j :: 0 <= j < i ==> !trusted[j].Contains(ip.value)
      {
        if trusted[i].Contains(ip.value) { return true; }
      }
      yes := false;
    }

    /** host is the direct peer, fields the X-Forwarded-For lines of the request. An untrusted
        peer's header is ignored; behind a trusted one the rightmost stranger of the first line
        is the client. */
    method ClientIP(host: string, fields: seq<string>) returns (client: string)
      ensures !Trusted(parser, trusted, host) ==> client == host
      ensures Trusted(parser, trusted, host) ==>
                client == Answer(host, Strangers(parser, trusted, Split(HeaderGet(fields))))
      ensures Trusted(parser, trusted, host) ==>
                var parts := Split(HeaderGet(fields));
                if AllPass(parser, trusted, parts) then client == host
                else exists i :: Names(parser, trusted, parts, i, client)
    {
      RightmostNames(parser, trusted, host, Split(HeaderGet(fields)));
      var peer := IsTrustedProxy(host);
      if |trusted| == 0 || !peer { return host; }
      var xff := HeaderGet(fields);
      if xff == "" {
        NoHeader(parser, trusted);
        return host;
      }
      var parts := Split(xff);
      var i := |parts|;
      assert parts[..i] == parts;
      while i > 0
        invariant 0 <= i <= |parts|
        invariant Answer(host, Strangers(parser, trusted, parts[..i])) ==
                  Answer(host, Strangers(parser, trusted, parts))
      {
        i := i - 1;
        WalkLeft(parser, trusted, host, parts, i);
        var ip := TrimSpace(parts[i]);
        var known := IsTrustedProxy(ip);
        if ip == "" || known { continue; }
        return ip;
      }
      client := host;
    }
  }

  lemma {:induction false} StrangersConcat(p: Parser, nets: seq<Net>, a: seq<string>, b: seq<string>)
    ensures Strangers(p, nets, a + b) == Strangers(p, nets, a) + Strangers(p, nets, b)
    decreases |b|
  {
    if b == [] {
      assert a + b == a;
    } else {
      var n := |b| - 1;
      assert (a + b)[..|a + b| - 1] == a + b[..n];
      StrangersConcat(p, nets, a, b[..n]);
    }
  }

  /** Text a client puts in front of the header changes the answer if and only if the header
      named no stranger of its own, so never once a trusted hop has recorded one. */
  lemma PrependedTextMatters(p: Parser, nets: seq<Net>, host: string, text: string, xff: string)
    ensures var own, all := Strangers(p, nets, Split(xff)), Strangers(p, nets, Split(text + "," + xff));
            && (own != [] ==> Answer(host, all) == Answer(host, own))
            && (Answer(host, all) != Answer(host, own)
                <==> own == [] && Answer(host, Strangers(p, nets, Split(text))) != host)
  {
    SplitAtComma(text, xff);
    StrangersConcat(p, nets, Split(text), Split(xff));
  }

  /** Only the first line is read. That is the answer of the whole list, whose right end the
      trusted hops wrote, if and only if the later lines name no stranger or end in that answer. */
  lemma FirstLineDecides(p: Parser, nets: seq<Net>, host: string, fields: seq<string>)
    requires fields != []
    ensures var client := Answer(host, Strangers(p, nets, Split(HeaderGet(fields))));
            var later := Strangers(p, nets, Split(Joined(fields[1..])));
            client == Answer(host, Strangers(p, nets, Split(Joined(fields))))
            <==> later == [] || later[|later| - 1] == client
  {
    NoHeader(p, nets);
    if |fields| > 1 {
      SplitAtComma(fields[0], Joined(fields[1..]));
      StrangersConcat(p, nets, Split(fields[0]), Split(Joined(fields[1..])));
    }
  }

  /** Nothing is lost in splitting. */
  lemma {:induction false} SplitJoins(s: string)
    ensures Joined(Split(s)) == s
    ensures forall part | part in Split(s) :: ',' !in part
  {
    if s != "" {
      SplitJoins(s[1..]);
      var rest := Split(s[1..]);
      assert s == [s[0]] + s[1..];
      if s[0] == ',' {
        assert ([""] + rest)[1..] == rest;
      } else {
        assert ([[s[0]] + rest[0]] + rest[1..])[1..] == rest[1..];
      }
    }
  }
}
