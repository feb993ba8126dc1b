/** Identifier-safe names (internal/profile/payloads.go). */
module Slug {

  predicate Plain(c: char) {
    'a' <= c <= 'z' || '0' <= c <= '9'
  }

  /** What a character becomes; most become nothing. */
  function Mapped(c: char): string {
    if Plain(c) then [c]
    else if 'A' <= c <= 'Z' then [c + ('a' - 'A')]
    else if c == ' ' || c == '-' || c == '_' || c == '.' then "-"
    else ""
  }

  function MapAll(s: string): string {
    if s == "" then "" else Mapped(s[0]) + MapAll(s[1..])
  }

  function TrimLeft(s: string): string {
    if s != "" && s[0] == '-' then TrimLeft(s[1..]) else s
  }

  function TrimRight(s: string): string {
    if s != "" && s[|s| - 1] == '-' then TrimRight(s[..|s| - 1]) else s
  }

  function Slugify(s: string): string {
    var out := TrimRight(TrimLeft(MapAll(s)));
    if out == "" then "network" else out
  }

  predicate Clean(s: string) {
    forall c | c in s :: Plain(c) || c == '-'
  }

  /** What an identifier may contain. */
  predicate IsSlug(s: string) {
    s != "" && Clean(s) && s[0] != '-' && s[|s| - 1] != '-'
  }

  lemma {:induction false} MapAllClean(s: string)
    ensures Clean(MapAll(s))
    ensures Clean(s) ==> MapAll(s) == s
  {
    if s != "" {
      MapAllClean(s[1..]);
      assert s == [s[0]] + s[1..];
    }
  }

  lemma {:induction false} TrimLeftClean(s: string)
    requires Clean(s)
    ensures var t := TrimLeft(s); Clean(t) && (t == "" || t[0] != '-')
  {
    if s != "" && s[0] == '-' { TrimLeftClean(s[1..]); }
  }

  lemma {:induction false} TrimRightClean(s: string)
    requires Clean(s) && (s == "" || s[0] != '-')
    ensures var t := TrimRight(s); Clean(t) && (t == "" || (t[0] != '-' && t[|t| - 1] != '-'))
  {
    if s != "" && s[|s| - 1] == '-' { TrimRightClean(s[..|s| - 1]); }
  }

  lemma SlugifyGivesSlug(s: string)
    ensures IsSlug(Slugify(s))
  {
    MapAllClean(s);
    TrimLeftClean(MapAll(s));
    TrimRightClean(TrimLeft(MapAll(s)));
  }

  /** Letters and digits stay, capitals become small, a blank, dot, dash or underscore becomes a
      dash, and nothing else is left. */
  lemma WhatCharactersBecome(c: char)
    ensures 'a' <= c <= 'z' || '0' <= c <= '9' ==> MapAll([c]) == [c]
    ensures 'A' <= c <= 'Z' ==> MapAll([c]) == [(c as int + 32) as char]
    ensures MapAll([c]) == "-" <==> c == ' ' || c == '-' || c == '_' || c == '.'
    ensures MapAll([c]) == "" <==> !('a' <= c <= 'z') && !('A' <= c <= 'Z') && !('0' <= c <= '9') && MapAll([c]) != "-"
  {
    assert [c][1..] == "" && MapAll([c]) == Mapped(c) + "";
    assert Mapped(c) + "" == Mapped(c);
  }

  /** Each character on its own. */
  lemma {:induction false} MapAllConcat(a: string, b: string)
    ensures MapAll(a + b) == MapAll(a) + MapAll(b)
  {
    if a == "" {
      assert a + b == b;
    } else {
      assert (a + b)[1..] == a[1..] + b;
      MapAllConcat(a[1..], b);
    }
  }

  predicate Dashes(s: string) {
    forall c | c in s :: c == '-'
  }

  lemma {:induction false} TrimLeftCuts(s: string) returns (i: nat)
    ensures i <= |s| && TrimLeft(s) == s[i..] && Dashes(s[..i])
  {
    i := 0;
    if s != "" && s[0] == '-' {
      var k := TrimLeftCuts(s[1..]);
      i := k + 1;
      assert s[..i] == [s[0]] + s[1..][..k];
    }
  }

  lemma {:induction false} TrimRightCuts(s: string) returns (j: nat)
    ensures j <= |s| && TrimRight(s) == s[..j] && Dashes(s[j..])
  {
    j := |s|;
    if s != "" && s[|s| - 1] == '-' {
      j := TrimRightCuts(s[..|s| - 1]);
      assert s[j..] == s[..|s| - 1][j..] + [s[|s| - 1]];
      assert s[..|s| - 1][..j] == s[..j];
    }
  }

  /** The slug is what the characters become without the dashes at the ends; a name of which
      nothing is left is called network. */
  lemma SlugIsTrimmed(s: string) returns (i: nat, j: nat)
    ensures i <= j <= |MapAll(s)| && Dashes(MapAll(s)[..i]) && Dashes(MapAll(s)[j..])
    ensures if i < j then Slugify(s) == MapAll(s)[i..j] else Slugify(s) == "network"
  {
    var all := MapAll(s);
    i := TrimLeftCuts(all);
    var l := TrimRightCuts(all[i..]);
    j := i + l;
    assert all[i..][..l] == all[i..j] && all[i..][l..] == all[j..];
  }

  /** slugify lands in the slugs, leaves exactly the slugs alone, and so is idempotent. */
  lemma SlugsAreTheFixedPoints(s: string)
    ensures Slugify(s) == s <==> IsSlug(s)
    ensures IsSlug(Slugify(s)) && Slugify(Slugify(s)) == Slugify(s)
  {
    SlugifyGivesSlug(s);
    MapAllClean(s);
    MapAllClean(Slugify(s));
  }
}

/** Wi-Fi profiles (internal/profile/payloads.go). */
module WiFiProfile {
  import opened Slug
  import opened Wrappers

  datatype Params = Params(organization: string, displayName: string, ssid: string, hidden: bool, autoJoin: bool,
                           password: string, enterprise: bool, scepURL: string, challenge: string, subjectCN: string,
                           keySize: int, anchors: seq<string>, serverNames: seq<string>)

  /** anchorUUIDs and the identity's UUID refer to other payloads of the same profile. */
  datatype Eap = Eap(anchorUUIDs: seq<string>, serverNames: Option<seq<string>>)

  datatype Network = Personal(password: string) | Enterprise(eap: Eap, identityUUID: string)

  datatype Payload =
    | Root(identifier: string, uuid: string, content: string)
    | Scep(identifier: string, uuid: string, url: string, subject: string, keySize: int, challenge: string)
    | WiFi(identifier: string, uuid: string, ssid: string, hidden: bool, autoJoin: bool, network: Network)

  datatype Profile = Profile(identifier: string, uuid: string, display: string, organization: string,
                             content: seq<Payload>)

  datatype Result = NeedsNames | NeedsPassword | NeedsIdentity | NeedsAnchor | Built(profile: Profile)

  const APPLE := "com.apple."
  const SECURITY := "security."
  const ROOT_TYPE := APPLE + (SECURITY + "root")
  const SCEP_TYPE := APPLE + (SECURITY + "scep")
  const WIFI_TYPE := APPLE + "wifi.managed"

  function TypeOf(p: Payload): string {
    match p
    case Root(_, _, _) => ROOT_TYPE
    case Scep(_, _, _, _, _, _) => SCEP_TYPE
    case WiFi(_, _, _, _, _, _) => WIFI_TYPE
  }

  function Decimal(n: nat): string {
    (if n < 10 then "" else Decimal(n / 10)) + [('0' as int + n % 10) as char]
  }

  predicate Digit(c: char) {
    '0' <= c <= '9'
  }

  function ReadDecimal(s: string): nat {
    if s == "" || !Digit(s[|s| - 1]) then 0
    else ReadDecimal(s[..|s| - 1]) * 10 + (s[|s| - 1] as int - '0' as int)
  }

  lemma {:induction false} DecimalReads(n: nat)
    ensures forall c | c in Decimal(n) :: Digit(c)
    ensures ReadDecimal(Decimal(n)) == n
  {
    if n >= 10 { DecimalReads(n / 10); }
    var s := Decimal(n);
    assert s[..|s| - 1] == if n < 10 then "" else Decimal(n / 10);
  }

  function Id(p: Params, suffix: string): string {
    p.organization + ".wifi." + Slugify(p.ssid) + "." + suffix
  }

  function Uuids(content: seq<Payload>): seq<string> {
    if content == [] then [] else Uuids(content[..|content| - 1]) + [content[|content| - 1].uuid]
  }

  /** The references of a network payload: the anchors, then the identity. */
  function References(p: Payload): seq<string> {
    if p.WiFi? && p.network.Enterprise? then p.network.eap.anchorUUIDs + [p.network.identityUUID] else []
  }

  predicate AllRoots(content: seq<Payload>) {
    forall p | p in content :: p.Root?
  }

  function Contents(content: seq<Payload>): seq<string>
    requires AllRoots(content)
  {
    if content == [] then [] else Contents(content[..|content| - 1]) + [content[|content| - 1].content]
  }

  /** The network payload comes last; what it refers to is, in order, every other payload: the
      anchors, which hold the given certificates in order, and the SCEP identity. */
  ghost predicate SelfContained(p: Params, content: seq<Payload>) {
    && content != []
    && var n := |content| - 1;
       && content[n].WiFi?
       && References(content[n]) == Uuids(content[..n])
       && (content[n].network.Enterprise? ==>
             && n >= 1 && content[n - 1].Scep?
             && AllRoots(content[..n - 1]) && Contents(content[..n - 1]) == p.anchors)
  }

  /** A supply of UUIDs that never repeats. */
  ghost predicate Fresh(newUUID: nat -> string) {
    forall i, j :: newUUID(i) == newUUID(j) ==> i == j
  }

  predicate Distinct(s: seq<string>) {
    forall i, j :: 0 <= i < j < |s| ==> s[i] != s[j]
  }

  lemma {:induction false} UuidsAt(content: seq<Payload>, i: nat)
    requires i < |content|
    ensures |Uuids(content)| == |content| && Uuids(content)[i] == content[i].uuid
    decreases |content|
  {
    var n := |content| - 1;
    if i < n {
      UuidsAt(content[..n], i);
    } else if n > 0 {
      UuidsAt(content[..n], 0);
    }
  }

  lemma {:induction false} UuidsLength(content: seq<Payload>)
    ensures |Uuids(content)| == |content|
  {
    if content != [] { UuidsLength(content[..|content| - 1]); }
  }

  lemma {:induction false} ContentsAt(content: seq<Payload>, i: nat)
    requires i < |content| && AllRoots(content)
    ensures |Contents(content)| == |content| && Contents(content)[i] == content[i].content
    decreases |content|
  {
    var n := |content| - 1;
    if i < n {
      ContentsAt(content[..n], i);
    } else if n > 0 {
      ContentsAt(content[..n], 0);
    }
  }

  function Anchor(p: Params, uuid: string, i: nat): Payload
    requires i < |p.anchors|
  {
    Root(Id(p, "ca." + Decimal(i)), uuid, p.anchors[i])
  }

  lemma AnchorsHold(p: Params, payloads: seq<Payload>, uuids: seq<string>)
    requires |payloads| == |uuids| == |p.anchors|
    requires forall i :: 0 <= i < |payloads| ==> payloads[i] == Anchor(p, uuids[i], i)
    ensures AllRoots(payloads) && Contents(payloads) == p.anchors && Uuids(payloads) == uuids
  {
    assert AllRoots(payloads);
    forall i | 0 <= i < |payloads|
      ensures |Contents(payloads)| == |payloads| && Contents(payloads)[i] == p.anchors[i]
      ensures |Uuids(payloads)| == |payloads| && Uuids(payloads)[i] == uuids[i]
    {
      ContentsAt(payloads, i);
      UuidsAt(payloads, i);
    }
  }

  /** The RADIUS anchors, each payload with the UUID the EAP configuration will name. */
  method BuildAnchors(p: Params, newUUID: nat -> string, from: nat) returns (payloads: seq<Payload>, uuids: seq<string>)
    ensures AllRoots(payloads) && Contents(payloads) == p.anchors && Uuids(payloads) == uuids
    ensures |payloads| == |uuids| == |p.anchors|
    ensures forall i :: 0 <= i < |payloads| ==> uuids[i] == newUUID(from + i) && payloads[i] == Anchor(p, uuids[i], i)
    ensures forall i :: 0 <= i < |payloads| ==>
              payloads[i].identifier == p.organization + ".wifi." + Slugify(p.ssid) + "." + ("ca." + Decimal(i))
  {
    payloads, uuids := [], [];
    for i := 0 to |p.anchors|
      invariant |payloads| == |uuids| == i
      invariant forall j :: 0 <= j < i ==> uuids[j] == newUUID(from + j) && payloads[j] == Anchor(p, uuids[j], j)
    {
      var u := newUUID(from + i);
      uuids := uuids + [u];
      payloads := payloads + [Anchor(p, u, i)];
    }
    AnchorsHold(p, payloads, uuids);
  }

  /** Which UUID the i-th of n payloads takes, the profile coming after them: the network
      payload is numbered first, the anchors and the identity next. */
  function Number(i: nat, n: nat): nat {
    if i == n - 1 then 0 else if i < n then i + 1 else n
  }

  predicate Numbered(content: seq<Payload>, newUUID: nat -> string) {
    forall i :: 0 <= i < |content| ==> content[i].uuid == newUUID(Number(i, |content|))
  }

  lemma NumbersDiffer(content: seq<Payload>, newUUID: nat -> string)
    requires Fresh(newUUID) && content != [] && Numbered(content, newUUID)
    ensures Distinct(Uuids(content) + [newUUID(|content|)])
  {
    var n := |content|;
    var all := Uuids(content) + [newUUID(n)];
    UuidsLength(content);
    forall i | 0 <= i <= n
      ensures all[i] == newUUID(Number(i, n))
    {
      if i < n { UuidsAt(content, i); }
    }
    forall i, j | 0 <= i < j <= n
      ensures all[i] != all[j]
    {
      assert Number(i, n) != Number(j, n);
    }
  }

  predicate NetworkOf(p: Params, w: Payload) {
    && w.WiFi? && w.identifier == p.organization + ".wifi." + Slugify(p.ssid) + ".network"
    && w.ssid == p.ssid && w.hidden == p.hidden && w.autoJoin == p.autoJoin
    && if p.enterprise then
         w.network.Enterprise? && w.network.eap.serverNames ==
             (if p.serverNames == [] then None else Some(p.serverNames))
       else w.network == Personal(p.password)
  }

  function Identity(p: Params, uuid: string): Payload {
    Scep(Id(p, "identity"), uuid, p.scepURL, p.subjectCN, if p.keySize == 0 then 2048 else p.keySize, p.challenge)
  }

  predicate IdentityOf(p: Params, s: Payload) {
    && s.Scep? && s.identifier == p.organization + ".wifi." + Slugify(p.ssid) + ".identity"
    && s.url == p.scepURL && s.subject == p.subjectCN && s.challenge == p.challenge
    && s.keySize == (if p.keySize == 0 then 2048 else p.keySize)
  }

  lemma IdentityIs(p: Params, uuid: string)
    ensures IdentityOf(p, Identity(p, uuid))
  {
  }

  lemma AssembledIsSelfContained(p: Params, roots: seq<Payload>, scep: Payload, w: Payload)
    requires AllRoots(roots) && Contents(roots) == p.anchors && scep.Scep?
    requires w.WiFi? && w.network.Enterprise? && References(w) == Uuids(roots) + [scep.uuid]
    ensures SelfContained(p, roots + [scep] + [w])
  {
    var content, k := roots + [scep] + [w], |roots|;
    assert content[..k + 1] == roots + [scep] && (roots + [scep])[..k] == roots && content[..k] == roots;
  }

  lemma AssembledIsNumbered(newUUID: nat -> string, roots: seq<Payload>, scep: Payload, w: Payload)
    requires forall i :: 0 <= i < |roots| ==> roots[i].uuid == newUUID(1 + i)
    requires scep.uuid == newUUID(|roots| + 1) && w.uuid == newUUID(0)
    ensures Numbered(roots + [scep] + [w], newUUID)
  {
  }

  /** Anchors, identity and network, in this order. */
  method BuildEnterprise(p: Params, newUUID: nat -> string, wifi: Payload) returns (content: seq<Payload>)
    requires p.enterprise && p.anchors != []
    requires wifi.WiFi? && wifi.uuid == newUUID(0) && NetworkOf(p.(enterprise := false), wifi)
    ensures SelfContained(p, content) && Numbered(content, newUUID) && NetworkOf(p, content[|content| - 1])
    ensures |content| >= 2 && IdentityOf(p, content[|content| - 2])
  {
    var roots, anchorUUIDs := BuildAnchors(p, newUUID, 1);
    var k := |roots|;
    var scep := Identity(p, newUUID(k + 1));
    IdentityIs(p, newUUID(k + 1));
    var eap := Eap(anchorUUIDs, if |p.serverNames| > 0 then Some(p.serverNames) else None);
    var network := wifi.(network := Enterprise(eap, scep.uuid));
    AssembledIsSelfContained(p, roots, scep, network);
    AssembledIsNumbered(newUUID, roots, scep, network);
    content := roots + [scep] + [network];
    assert content[|content| - 2] == scep && content[|content| - 1] == network;
  }

  /** The payloads of either kind of network. */
  method BuildContent(p: Params, newUUID: nat -> string) returns (content: seq<Payload>)
    requires p.enterprise ==> p.anchors != []
    ensures SelfContained(p, content) && Numbered(content, newUUID) && NetworkOf(p, content[|content| - 1])
    ensures p.enterprise ==> |content| >= 2 && IdentityOf(p, content[|content| - 2])
  {
    var wifi := WiFi(Id(p, "network"), newUUID(0), p.ssid, p.hidden, p.autoJoin, Personal(p.password));
    if p.enterprise {
      content := BuildEnterprise(p, newUUID, wifi);
    } else {
      content := [wifi];
      assert content[..0] == [];
    }
  }

  /** Every profile that is built can be installed on its own. */
  method BuildWiFi(p: Params, newUUID: nat -> string) returns (r: Result)
    requires Fresh(newUUID)
    ensures r == NeedsNames <==> p.organization == "" || p.ssid == ""
    ensures r == NeedsPassword <==> p.organization != "" && p.ssid != "" && !p.enterprise && p.password == ""
    ensures r == NeedsIdentity <==>
            p.organization != "" && p.ssid != "" && p.enterprise && (p.scepURL == "" || p.subjectCN == "")
    ensures r == NeedsAnchor <==>
            && p.organization != "" && p.ssid != "" && p.enterprise
            && p.scepURL != "" && p.subjectCN != "" && p.anchors == []
    ensures r.Built? ==>
              && SelfContained(p, r.profile.content)
              && Distinct(Uuids(r.profile.content) + [r.profile.uuid])
              && NetworkOf(p, r.profile.content[|r.profile.content| - 1])
              && (p.enterprise ==>
                    |r.profile.content| >= 2 && IdentityOf(p, r.profile.content[|r.profile.content| - 2]))
              && r.profile.organization == p.organization
              && r.profile.identifier == p.organization + ".wifi." + Slugify(p.ssid)
              && r.profile.display == if p.displayName == "" then "Wi-Fi: " + p.ssid else p.displayName
  {
    if p.organization == "" || p.ssid == "" { return NeedsNames; }
    if !p.enterprise {
      if p.password == "" { return NeedsPassword; }
    } else {
      if p.scepURL == "" || p.subjectCN == "" { return NeedsIdentity; }
      if |p.anchors| == 0 { return NeedsAnchor; }
    }
    var content := BuildContent(p, newUUID);
    NumbersDiffer(content, newUUID);
    var display := if p.displayName == "" then "Wi-Fi: " + p.ssid else p.displayName;
    r := Built(Profile(p.organization + ".wifi." + Slugify(p.ssid), newUUID(|content|), display, p.organization,
                       content));
  }
}

/** What the library reads out of a profile (internal/profile/parse.go). */
module ProfileInfo {
  import opened TimeText
  import opened WiFiProfile
  import opened Slug
  import opened Wrappers

  /** A decoded property list; an inner payload without a text PayloadType is None. */
  datatype Top = Top(kind: string, identifier: string, uuid: string, display: string, organization: string,
                     types: seq<Option<string>>)

  datatype Info = Info(identifier: string, uuid: string, name: string, organization: string, types: seq<string>)

  datatype Parsed = WrongKind | NoIdentifier | Parsed(info: Info)

  predicate Sorted(s: seq<string>) {
    forall i, j :: 0 <= i < j < |s| ==> Less(s[i], s[j])
  }

  function Elements(s: seq<string>): set<string> {
    set t | t in s
  }

  lemma {:induction false} LessTotal(a: string, b: string)
    ensures Less(a, b) || a == b || Less(b, a)
  {
    if a != "" && b != "" {
      LessTotal(a[1..], b[1..]);
      if a[0] == b[0] && a[1..] == b[1..] { assert a == [a[0]] + a[1..] == b; }
    }
  }

  lemma {:induction false} LessTransitive(a: string, b: string, c: string)
    requires Less(a, b) && Less(b, c)
    ensures Less(a, c)
  {
    if a != "" && a[0] == b[0] && b[0] == c[0] { LessTransitive(a[1..], b[1..], c[1..]); }
  }

  function Insert(t: string, s: seq<string>): seq<string> {
    if s == [] then [t] else if Less(t, s[0]) then [t] + s else [s[0]] + Insert(t, s[1..])
  }

  lemma {:induction false} InsertSorts(t: string, s: seq<string>)
    requires Sorted(s) && t !in s
    ensures Sorted(Insert(t, s)) && (forall u :: u in Insert(t, s) <==> u == t || u in s)
  {
    if s != [] {
      LessTotal(t, s[0]);
      if Less(t, s[0]) {
        forall j | 1 <= j < |s|
          ensures Less(t, s[j])
        {
          LessTransitive(t, s[0], s[j]);
        }
      } else {
        InsertSorts(t, s[1..]);
        forall u | u in Insert(t, s[1..])
          ensures Less(s[0], u)
        {
          if u != t {
            var j :| 0 <= j < |s[1..]| && s[1..][j] == u;
            assert u == s[j + 1];
          }
        }
      }
    }
  }

  /** sort.Strings on texts that are all different. */
  method SortStrings(types: seq<string>) returns (r: seq<string>)
    requires forall i, j :: 0 <= i < j < |types| ==> types[i] != types[j]
    ensures Sorted(r) && Elements(r) == Elements(types)
  {
    r := [];
    for i := 0 to |types|
      invariant Sorted(r) && forall u :: u in r <==> u in types[..i]
    {
      InsertSorts(types[i], r);
      r := Insert(types[i], r);
      assert types[..i + 1] == types[..i] + [types[i]];
    }
    assert types[..|types|] == types;
  }

  /** The listed types are strictly sorted and exactly the non-empty ones present. */
  method ParseInfo(top: Top) returns (r: Parsed)
    ensures r == WrongKind <==> top.kind != "Configuration"
    ensures r == NoIdentifier <==> top.kind == "Configuration" && top.identifier == ""
    ensures r.Parsed? ==>
              && Sorted(r.info.types)
              && (forall t :: t in r.info.types <==> t != "" && Some(t) in top.types)
              && r.info.name == (if top.display != "" then top.display else top.identifier)
              && r.info.identifier == top.identifier && r.info.uuid == top.uuid &&
                  r.info.organization == top.organization
  {
    if top.kind != "Configuration" { return WrongKind; }
    if top.identifier == "" { return NoIdentifier; }
    var seen: set<string> := {};
    var types: seq<string> := [];
    for i := 0 to |top.types|
      invariant seen == Elements(types)
      invariant forall j, k :: 0 <= j < k < |types| ==> types[j] != types[k]
      invariant forall t :: t in types <==> t != "" && Some(t) in top.types[..i]
    {
      var t := top.types[i];
      assert top.types[..i + 1] == top.types[..i] + [t];
      if t.Some? && t.value != "" && t.value !in seen {
        assert t.value !in types;
        seen := seen + {t.value};
        types := types + [t.value];
      }
    }
    assert top.types[..|top.types|] == top.types;
    var sorted := SortStrings(types);
    assert forall t :: t in sorted <==> t in Elements(sorted);
    var name := if top.display == "" then top.identifier else top.display;
    r := Parsed(Info(top.identifier, top.uuid, name, top.organization, sorted));
  }

  /** A strictly sorted sequence is determined by its elements. */
  lemma {:induction false} SortedUnique(a: seq<string>, b: seq<string>)
    requires Sorted(a) && Sorted(b) && forall t :: t in a <==> t in b
    ensures a == b
  {
    assert a != [] ==> a[0] in b;
    assert b != [] ==> b[0] in a;
    if a != [] {
      SameLeast(a, b);
      HeadOnlyFirst(a);
      HeadOnlyFirst(b);
      SortedUnique(a[1..], b[1..]);
      assert a == [a[0]] + a[1..] && b == [b[0]] + b[1..];
    }
  }

  lemma HeadOnlyFirst(a: seq<string>)
    requires Sorted(a) && a != []
    ensures forall t :: t in a[1..] <==> t in a && t != a[0]
  {
    LessIrreflexive(a[0]);
    assert a == [a[0]] + a[1..];
    forall j | 0 <= j < |a[1..]|
      ensures a[1..][j] != a[0]
    {
      assert Less(a[0], a[j + 1]);
    }
  }

  lemma SameLeast(a: seq<string>, b: seq<string>)
    requires Sorted(a) && Sorted(b) && a != [] && b != [] && forall t :: t in a <==> t in b
    ensures a[0] == b[0]
  {
    assert a[0] in b && b[0] in a;
    LessTotal(a[0], b[0]);
    LessOneWay(a[0], b[0]);
  }

  lemma LessOneWay(a: string, b: string)
    ensures !(Less(a, b) && Less(b, a))
  {
    if Less(a, b) { LessAsymmetric(a, b); }
  }

  function TypesOf(content: seq<Payload>): seq<Option<string>> {
    if content == [] then [] else TypesOf(content[..|content| - 1]) + [Some(TypeOf(content[|content| - 1]))]
  }

  predicate OfType(q: Payload, t: string) {
    TypeOf(q) == t
  }

  lemma {:induction false} TypesOfAre(content: seq<Payload>, t: string)
    ensures Some(t) in TypesOf(content) <==> exists q | q in content :: OfType(q, t)
  {
    if content != [] {
      var n := |content| - 1;
      TypesOfAre(content[..n], t);
      assert forall q :: q in content <==> q in content[..n] || q == content[n] by {
        assert content == content[..n] + [content[n]];
      }
      assert (exists q | q in content :: OfType(q, t)) <==>
             (exists q | q in content[..n] :: OfType(q, t)) || OfType(content[n], t);
    }
  }

  lemma TypeNamesLess()
    ensures Less(ROOT_TYPE, SCEP_TYPE) && Less(ROOT_TYPE, WIFI_TYPE) && Less(SCEP_TYPE, WIFI_TYPE)
  {
    LessIrreflexive(APPLE);
    LessIrreflexive(SECURITY);
    LessConcat(SECURITY, "root", SECURITY, "scep");
    LessConcat(APPLE, SECURITY + "root", APPLE, SECURITY + "scep");
    LessConcat(APPLE, SECURITY + "root", APPLE, "wifi.managed");
    LessConcat(APPLE, SECURITY + "scep", APPLE, "wifi.managed");
  }

  lemma ThreeSorted(a: string, b: string, c: string)
    requires Less(a, b) && Less(a, c) && Less(b, c)
    ensures Sorted([a, b, c])
  {
  }

  /** A built Wi-Fi profile, read back by the library, lists the payload types it was built of. */
  method BuildAndRead(p: Params, newUUID: nat -> string) returns (r: Option<Info>)
    requires Fresh(newUUID)
    ensures r.Some? ==> r.value.types == if p.enterprise then [ROOT_TYPE, SCEP_TYPE, WIFI_TYPE] else [WIFI_TYPE]
    ensures r.Some? ==> r.value.identifier == p.organization + ".wifi." + Slugify(p.ssid)
    ensures r.Some? ==> r.value.name == if p.displayName == "" then "Wi-Fi: " + p.ssid else p.displayName
  {
    var built := BuildWiFi(p, newUUID);
    if !built.Built? { return None; }
    var profile := built.profile;
    var parsed := ParseInfo(Top("Configuration", profile.identifier, profile.uuid, profile.display,
                                profile.organization, TypesOf(profile.content)));
    assert profile.identifier != "";
    r := Some(parsed.info);
    ghost var expected := if p.enterprise then [ROOT_TYPE, SCEP_TYPE, WIFI_TYPE] else [WIFI_TYPE];
    TypeNamesLess();
    ThreeSorted(ROOT_TYPE, SCEP_TYPE, WIFI_TYPE);
    forall t
      ensures t in parsed.info.types <==> t in expected
    {
      TypesOfAre(profile.content, t);
      KindsPresent(p, profile.content, t);
    }
    SortedUnique(parsed.info.types, expected);
  }

  /** Which payloads a self-contained profile has, named by their places. */
  lemma PlacesOfKinds(p: Params, content: seq<Payload>)
    requires SelfContained(p, content) && NetworkOf(p, content[|content| - 1]) && (p.enterprise ==> p.anchors != [])
    ensures content[|content| - 1].WiFi? && (!p.enterprise ==> |content| == 1)
    ensures p.enterprise ==> |content| >= 3 && content[0].Root? && content[|content| - 2].Scep?
    ensures p.enterprise ==> forall i :: 0 <= i < |content| - 2 ==> content[i].Root?
  {
    var n := |content| - 1;
    if p.enterprise {
      assert content[..n - 1] != [];
      forall i | 0 <= i < n - 1
        ensures content[i].Root?
      {
        assert content[i] == content[..n - 1][i] && content[..n - 1][i] in content[..n - 1];
      }
    } else {
      UuidsLength(content[..n]);
    }
  }

  lemma KindsPresent(p: Params, content: seq<Payload>, t: string)
    requires SelfContained(p, content) && NetworkOf(p, content[|content| - 1]) && (p.enterprise ==> p.anchors != [])
    ensures (exists q | q in content :: OfType(q, t))
            <==> t == WIFI_TYPE || (p.enterprise && (t == ROOT_TYPE || t == SCEP_TYPE))
  {
    PlacesOfKinds(p, content);
    var n := |content| - 1;
    assert content[n] in content && content[0] in content;
    assert OfType(content[n], WIFI_TYPE);
    if p.enterprise {
      assert content[n - 1] in content && OfType(content[n - 1], SCEP_TYPE) && OfType(content[0], ROOT_TYPE);
    }
  }
}
