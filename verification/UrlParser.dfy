/**
 Participant and transfer URIs: printing, and parsing by a case-insensitive search for the leftmost match.
 A dot in the host name is a pattern that matches any character of its line; other characters match themselves.
 */
module UrlParser {
  import opened Ledger

  const PARTICIPANTS := "/participants/"
  const TRANSFERS := "/transfers/"
  const TRANSFERS_ROUTE := "/transfers"

  // ----- characters

  function Fold(c: char): char {
    if 'A' <= c <= 'Z' then c - 'A' + 'a' else c
  }

  predicate LineTerminator(c: char) {
    c == '\n' || c == '\r' || c == '\U{2028}' || c == '\U{2029}'
  }

  /** A dot stands for one code unit, so no character beyond the basic plane. */
  predicate MatchesChar(p: char, c: char) {
    if p == '.' then !LineTerminator(c) && c as int < 0x1_0000 else Fold(p) == Fold(c)
  }

  predicate WordChar(c: char) {
    'a' <= Fold(c) <= 'z' || '0' <= c <= '9' || c == '_'
  }

  predicate HexChar(c: char) {
    'a' <= Fold(c) <= 'f' || '0' <= c <= '9'
  }

  // ----- patterns

  predicate PatternAt(p: string, s: string, i: nat) {
    i + |p| <= |s| && forall k :: 0 <= k < |p| ==> MatchesChar(p[k], s[i + k])
  }

  /** The UUID text form: hexadecimal groups of 8, 4, 4, 4 and 12 digits. */
  predicate IsUuid(s: string) {
    && |s| == 36
    && forall k :: 0 <= k < 36 ==> if k in {8, 13, 18, 23} then s[k] == '-' else HexChar(s[k])
  }

  /** The length of the longest run of word characters that starts a string. */
  function WordRun(s: string): (n: nat)
    ensures n <= |s| && (forall k :: 0 <= k < n ==> WordChar(s[k])) && (n < |s| ==> !WordChar(s[n]))
  {
    if s == [] || !WordChar(s[0]) then 0 else WordRun(s[1..]) + 1
  }

  /** The first position from `i` to `n` where a search succeeds. */
  function Leftmost(at: nat -> bool, i: nat, n: nat): (r: Option<nat>)
    requires i <= n + 1
    ensures match r
            case Some(m) => i <= m <= n && at(m) && forall j: nat :: i <= j < m ==> !at(j)
            case None => forall j: nat :: i <= j <= n ==> !at(j)
    decreases n + 1 - i
  {
    if i == n + 1 then None else if at(i) then Some(i) else Leftmost(at, i + 1, n)
  }

  // ----- parsing

  function ParticipantMatch(host: string, uri: string): (r: Option<nat>)
    ensures r.Some? ==> r.value + |host| + |PARTICIPANTS| <= |uri|
  {
    Leftmost((i: nat) => PatternAt(host + PARTICIPANTS, uri, i), 0, |uri|)
  }

  function NameFromParticipantUri(host: string, uri: string): Option<string> {
    match ParticipantMatch(host, uri)
    case None => None
    case Some(i) =>
      var rest := uri[i + |host| + |PARTICIPANTS|..];
      Some(rest[..WordRun(rest)])
  }

  predicate TransferAt(host: string, uri: string, i: nat) {
    && PatternAt(host + TRANSFERS, uri, i)
    && i + |host| + |TRANSFERS| + 36 <= |uri|
    && IsUuid(uri[i + |host| + |TRANSFERS|..][..36])
  }

  function TransferMatch(host: string, uri: string): (r: Option<nat>)
    ensures r.Some? ==> TransferAt(host, uri, r.value)
  {
    Leftmost((i: nat) => TransferAt(host, uri, i), 0, |uri|)
  }

  function IdFromTransferUri(host: string, uri: string): Option<string> {
    match TransferMatch(host, uri)
    case None => None
    case Some(i) => Some(uri[i + |host| + |TRANSFERS|..][..36])
  }

  predicate RouteAt(url: string, i: nat) {
    && PatternAt(PARTICIPANTS, url, i)
    && var rest := url[i + |PARTICIPANTS|..];
       PatternAt(TRANSFERS_ROUTE, rest, WordRun(rest))
  }

  function ParticipantNameFromTransfersRoute(url: string): Option<string> {
    match Leftmost((i: nat) => RouteAt(url, i), 0, |url|)
    case None => None
    case Some(i) =>
      var rest := url[i + |PARTICIPANTS|..];
      Some(rest[..WordRun(rest)])
  }

  // ----- printing

  function ToParticipantUri(host: string, name: string): string {
    if ParticipantMatch(host, name).Some? then name else host + PARTICIPANTS + name
  }

  function ToTransferUri(host: string, id: string): string {
    if TransferMatch(host, id).Some? then id else host + TRANSFERS + id
  }

  // ----- laws

  predicate AllWord(s: string) {
    forall k :: 0 <= k < |s| ==> WordChar(s[k])
  }

  lemma PrefixMatchesItself(p: string, s: string)
    ensures PatternAt(p, p + s, 0)
  {
    forall k | 0 <= k < |p|
      ensures MatchesChar(p[k], (p + s)[k])
    {
    }
  }

  /** Printing a name that is not a URI yet, and parsing it, keeps its longest prefix of word characters. */
  lemma PrintedName(host: string, name: string)
    requires ParticipantMatch(host, name).None?
    ensures ToParticipantUri(host, name) == host + PARTICIPANTS + name
    ensures NameFromParticipantUri(host, ToParticipantUri(host, name)) == Some(name[..WordRun(name)])
  {
    var uri := host + PARTICIPANTS + name;
    PrefixMatchesItself(host + PARTICIPANTS, name);
    assert PatternAt(host + PARTICIPANTS, uri, 0);
    assert ParticipantMatch(host, uri) == Some(0);
    assert uri[|host| + |PARTICIPANTS|..] == name;
  }

  lemma ToParticipantUriIdempotent(host: string, name: string)
    ensures ToParticipantUri(host, ToParticipantUri(host, name)) == ToParticipantUri(host, name)
    ensures NameFromParticipantUri(host, ToParticipantUri(host, name)).Some?
  {
    if ParticipantMatch(host, name).None? {
      PrintedName(host, name);
    }
  }

  /** Over all strings, the round trip gives the name back iff it is made of word characters alone. */
  lemma NameRoundTripIff(host: string, name: string)
    ensures NameFromParticipantUri(host, ToParticipantUri(host, name)) == Some(name) <==> AllWord(name)
  {
    match ParticipantMatch(host, name) {
      case None =>
        PrintedName(host, name);
        assert name[..|name|] == name;
        assert AllWord(name) <==> WordRun(name) == |name|;
      case Some(i) =>
        assert MatchesChar((host + PARTICIPANTS)[|host|], name[i + |host|]);
        assert !WordChar(name[i + |host|]);
    }
  }

  predicate AllHex(s: string) {
    forall k :: 0 <= k < |s| ==> HexChar(s[k])
  }

  /** The UUID form is five groups of hexadecimal digits, of the right lengths, joined by hyphens. */
  lemma UuidGroups(a: string, b: string, c: string, d: string, e: string)
    requires |a| == 8 && |b| == |c| == |d| == 4 && |e| == 12
    ensures IsUuid(a + "-" + b + "-" + c + "-" + d + "-" + e)
            <==> AllHex(a) && AllHex(b) && AllHex(c) && AllHex(d) && AllHex(e)
  {
    var id := a + "-" + b + "-" + c + "-" + d + "-" + e;
    assert a == id[..8] && b == id[9..13] && c == id[14..18] && d == id[19..23] && e == id[24..];
    assert id[8] == id[13] == id[18] == id[23] == '-';
    forall g, from: nat | (g, from) in {(a, 0), (b, 9), (c, 14), (d, 19), (e, 24)}
      ensures AllHex(g) <==> forall k :: from <= k < from + |g| ==> HexChar(id[k])
    {
      assert forall k :: from <= k < from + |g| ==> id[k] == g[k - from];
      assert forall k :: 0 <= k < |g| ==> g[k] == id[from + k];
    }
  }

  /** Over all strings, the round trip of a transfer URI gives the id back iff it has the UUID form. */
  lemma IdRoundTripIff(host: string, id: string)
    ensures IdFromTransferUri(host, ToTransferUri(host, id)) == Some(id) <==> IsUuid(id)
  {
    if IsUuid(id) {
      assert TransferMatch(host, id).None?;
      var uri := host + TRANSFERS + id;
      PrefixMatchesItself(host + TRANSFERS, id);
      assert uri[|host| + |TRANSFERS|..] == id && id[..36] == id;
      assert TransferAt(host, uri, 0);
      assert TransferMatch(host, uri) == Some(0);
    }
  }

  // ----- printing a transfer URI twice

  function Prefix(host: string): string {
    host + TRANSFERS
  }

  /** The pattern, shifted by `i`, matches its own tail. */
  predicate Overlaps(p: string, i: nat) {
    i <= |p| && forall k :: 0 <= k < |p| - i ==> MatchesChar(p[k], p[i + k])
  }

  /** The id completes the prefix, shifted by `i`, and goes on with the UUID form. For 0 it starts with that form. */
  predicate Continues(host: string, id: string, i: nat) {
    var p := Prefix(host);
    i < |p| && Overlaps(p, i) && PatternAt(p[|p| - i..], id, 0) && i + 36 <= |id| && IsUuid(id[i..][..36])
  }

  lemma MatchInPrefix(host: string, id: string, i: nat)
    requires i < |Prefix(host)|
    ensures TransferAt(host, Prefix(host) + id, i) <==> Continues(host, id, i)
  {
    var p, uri := Prefix(host), Prefix(host) + id;
    if i + |p| <= |uri| {
      assert uri[i + |p|..] == id[i..];
      assert PatternAt(p, uri, i) <==> Overlaps(p, i) && PatternAt(p[|p| - i..], id, 0) by {
        ShiftedPattern(p, id, i);
      }
    }
  }

  lemma ShiftedPattern(p: string, id: string, i: nat)
    requires i < |p| && i <= |id|
    ensures PatternAt(p, p + id, i) <==> Overlaps(p, i) && PatternAt(p[|p| - i..], id, 0)
  {
    var uri, tail, n := p + id, p[|p| - i..], |p| - i;
    assert PatternAt(p, uri, i) <==> forall k :: 0 <= k < |p| ==> MatchesChar(p[k], uri[i + k]);
    SplitPattern(p, uri[i..i + |p|], n);
    assert uri[i..i + |p|][..n] == p[i..] && uri[i..i + |p|][n..] == id[..i];
  }

  /** A pattern matches character by character, so part by part. */
  lemma SplitPattern(p: string, s: string, n: nat)
    requires |p| == |s| && n <= |p|
    ensures (forall k :: 0 <= k < |p| ==> MatchesChar(p[k], s[k]))
            <==> && (forall k :: 0 <= k < n ==> MatchesChar(p[k], s[..n][k]))
                 && forall k :: 0 <= k < |p| - n ==> MatchesChar(p[n..][k], s[n..][k])
  {
    assert forall k :: n <= k < |p| ==> p[k] == p[n..][k - n] && s[k] == s[n..][k - n];
  }

  lemma MatchPastPrefix(host: string, id: string, i: nat)
    requires TransferAt(host, Prefix(host) + id, i) && i >= |Prefix(host)|
    ensures TransferAt(host, id, i - |Prefix(host)|)
  {
    var p, uri := Prefix(host), Prefix(host) + id;
    assert uri[i + |p|..] == id[i - |p| + |p|..];
    forall k | 0 <= k < |p|
      ensures MatchesChar(p[k], id[i - |p| + k])
    {
      assert MatchesChar(p[k], uri[i + k]);
    }
  }

  lemma Found(host: string, uri: string, i: nat)
    requires TransferAt(host, uri, i)
    ensures TransferMatch(host, uri).Some?
  {
    var at := (i: nat) => TransferAt(host, uri, i);
    assert at(i);
  }

  /**
   Printing a transfer URI twice is printing it once, for any host and any id, if and only if the id already holds a
   URI or continues the printed prefix with the UUID form.
   */
  lemma ToTransferUriIdempotentIff(host: string, id: string)
    ensures ToTransferUri(host, ToTransferUri(host, id)) == ToTransferUri(host, id)
            <==> TransferMatch(host, id).Some? || exists i :: Continues(host, id, i)
    ensures IsUuid(id) ==> ToTransferUri(host, ToTransferUri(host, id)) == ToTransferUri(host, id)
  {
    IdRoundTripIff(host, id);
    if TransferMatch(host, id).None? {
      PrintedParsesIff(host, id);
    }
  }

  lemma PrintedParsesIff(host: string, id: string)
    requires TransferMatch(host, id).None?
    ensures TransferMatch(host, Prefix(host) + id).Some? <==> exists i :: Continues(host, id, i)
  {
    var uri := Prefix(host) + id;
    if i :| Continues(host, id, i) {
      MatchInPrefix(host, id, i);
      Found(host, uri, i);
    }
    if TransferMatch(host, uri).Some? {
      var i := WhereParsed(host, id);
    }
  }

  lemma WhereParsed(host: string, id: string) returns (i: nat)
    requires TransferMatch(host, id).None? && TransferMatch(host, Prefix(host) + id).Some?
    ensures Continues(host, id, i)
  {
    i := TransferMatch(host, Prefix(host) + id).value;
    if i < |Prefix(host)| {
      MatchInPrefix(host, id, i);
    } else {
      MatchPastPrefix(host, id, i);
      Found(host, id, i - |Prefix(host)|);
    }
  }

  /** For a host whose prefix does not overlap itself: iff the id holds a URI or starts with the UUID form. */
  lemma IdempotentOnPlainHost(host: string, id: string)
    requires forall i :: 0 < i < |Prefix(host)| ==> !Overlaps(Prefix(host), i)
    ensures ToTransferUri(host, ToTransferUri(host, id)) == ToTransferUri(host, id)
            <==> TransferMatch(host, id).Some? || (|id| >= 36 && IsUuid(id[..36]))
  {
    ToTransferUriIdempotentIff(host, id);
    var p := Prefix(host);
    assert Overlaps(p, 0) by {
      PrefixMatchesItself(p, "");
      assert p + "" == p;
    }
    assert p[|p|..] == "" && id[0..] == id;
    assert Continues(host, id, 0) <==> |id| >= 36 && IsUuid(id[..36]);
  }

  /** No prefix overlaps itself whose first character, not a dot, comes nowhere else in it. */
  lemma FirstCharacterUnique(host: string)
    requires host != "" && host[0] != '.'
    requires forall i :: 0 < i < |Prefix(host)| ==> Fold(Prefix(host)[i]) != Fold(host[0])
    ensures forall i :: 0 < i < |Prefix(host)| ==> !Overlaps(Prefix(host), i)
  {
    forall i | 0 < i < |Prefix(host)|
      ensures !Overlaps(Prefix(host), i)
    {
      assert !MatchesChar(Prefix(host)[0], Prefix(host)[i + 0]);
    }
  }

  /** Every id shorter than a UUID fails: printed twice, it has two prefixes. */
  lemma ShortIdsGrow(host: string, id: string)
    requires |id| < 36
    ensures ToTransferUri(host, ToTransferUri(host, id)) == Prefix(host) + (Prefix(host) + id)
    ensures ToTransferUri(host, ToTransferUri(host, id)) != ToTransferUri(host, id)
  {
    ToTransferUriIdempotentIff(host, id);
    assert TransferMatch(host, id).None?;
  }

  // ----- routes

  /** The greedy run of word characters loses no match: a route is found wherever some word name completes it. */
  lemma GreedyRoute(url: string, i: nat)
    ensures RouteAt(url, i) <==>
              && PatternAt(PARTICIPANTS, url, i)
              && var rest := url[i + |PARTICIPANTS|..];
                 exists n: nat :: n <= |rest| && AllWord(rest[..n]) && PatternAt(TRANSFERS_ROUTE, rest, n)
  {
    if PatternAt(PARTICIPANTS, url, i) {
      var rest := url[i + |PARTICIPANTS|..];
      assert AllWord(rest[..WordRun(rest)]);
      if n: nat :| n <= |rest| && AllWord(rest[..n]) && PatternAt(TRANSFERS_ROUTE, rest, n) {
        assert MatchesChar(TRANSFERS_ROUTE[0], rest[n + 0]);
        WordRunIs(rest, n);
      }
    }
  }

  lemma WordRunIs(s: string, n: nat)
    requires n < |s| && AllWord(s[..n]) && !WordChar(s[n])
    ensures WordRun(s) == n
  {
    assert forall k :: 0 <= k < n ==> s[..n][k] == s[k];
  }

  /** Over all strings, the transfers route of a name yields the name iff it is made of word characters alone. */
  lemma RouteNameIff(name: string)
    ensures ParticipantNameFromTransfersRoute("/participants/" + name + "/transfers") == Some(name) <==> AllWord(name)
  {
    if AllWord(name) {
      RouteName(name);
    }
  }

  /** The transfers route of a word name yields the name. */
  lemma RouteName(name: string)
    requires AllWord(name)
    ensures ParticipantNameFromTransfersRoute(PARTICIPANTS + name + TRANSFERS_ROUTE) == Some(name)
  {
    var rest := name + TRANSFERS_ROUTE;
    var url := PARTICIPANTS + name + TRANSFERS_ROUTE;
    PrefixMatchesItself(PARTICIPANTS, rest);
    assert url == PARTICIPANTS + rest && url[|PARTICIPANTS|..] == rest;
    assert rest[|name|] == TRANSFERS_ROUTE[0];
    assert WordRun(rest) == |name|;
    assert RouteAt(url, 0);
    assert rest[..|name|] == name;
  }

  // ----- case

  predicate SameUpToCase(s: string, t: string) {
    |s| == |t| && forall k :: 0 <= k < |s| ==> Fold(s[k]) == Fold(t[k])
  }

  lemma CaseBlindChar(p: char, c: char, d: char)
    requires Fold(c) == Fold(d)
    ensures MatchesChar(p, c) <==> MatchesChar(p, d)
    ensures WordChar(c) <==> WordChar(d)
  {
  }

  lemma SameLeftmost(at: nat -> bool, at': nat -> bool, n: nat)
    requires forall i: nat :: at(i) <==> at'(i)
    ensures Leftmost(at, 0, n) == Leftmost(at', 0, n)
  {
  }

  lemma CaseBlindMatch(host: string, s: string, t: string)
    requires SameUpToCase(s, t)
    ensures ParticipantMatch(host, s) == ParticipantMatch(host, t)
  {
    forall i: nat
      ensures PatternAt(host + PARTICIPANTS, s, i) <==> PatternAt(host + PARTICIPANTS, t, i)
    {
      forall k | 0 <= k < |host + PARTICIPANTS| && i + k < |s|
        ensures MatchesChar((host + PARTICIPANTS)[k], s[i + k]) <==> MatchesChar((host + PARTICIPANTS)[k], t[i + k])
      {
        CaseBlindChar((host + PARTICIPANTS)[k], s[i + k], t[i + k]);
      }
    }
    SameLeftmost((i: nat) => PatternAt(host + PARTICIPANTS, s, i), (i: nat) => PatternAt(host + PARTICIPANTS, t, i), |s|);
  }

  /** URIs that differ in case only name participants that differ in case only. */
  lemma CaseBlindNames(host: string, s: string, t: string)
    requires SameUpToCase(s, t)
    ensures match (NameFromParticipantUri(host, s), NameFromParticipantUri(host, t))
            case (Some(m), Some(n)) => SameUpToCase(m, n)
            case (a, b) => a == b == None
  {
    CaseBlindMatch(host, s, t);
    match ParticipantMatch(host, s) {
      case None =>
      case Some(i) =>
        var at := i + |host| + |PARTICIPANTS|;
        CaseBlindRun(s[at..], t[at..]);
    }
  }

  lemma CaseBlindRun(s: string, t: string)
    requires SameUpToCase(s, t)
    ensures WordRun(s) == WordRun(t)
  {
    forall k | 0 <= k < |s|
      ensures WordChar(s[k]) <==> WordChar(t[k])
    {
      CaseBlindChar('_', s[k], t[k]);
    }
  }

  // ----- what the patterns match

  predicate UpperOf(lower: char, upper: char) {
    'a' <= lower <= 'z' && upper as int - 'A' as int == lower as int - 'a' as int
  }

  /** The characters of names and of UUIDs, and what a character of a pattern stands for. */
  lemma Characters(p: char, c: char)
    ensures WordChar(c) <==> 'a' <= c <= 'z' || 'A' <= c <= 'Z' || '0' <= c <= '9' || c == '_'
    ensures HexChar(c) <==> 'a' <= c <= 'f' || 'A' <= c <= 'F' || '0' <= c <= '9'
    ensures p == '.' ==> (MatchesChar(p, c) <==> c as int < 0x1_0000 && c !in {'\n', '\r', '\U{2028}', '\U{2029}'})
    ensures p != '.' ==> (MatchesChar(p, c) <==> c == p || UpperOf(p, c) || UpperOf(c, p))
  {
  }

  /** The other host differs only where the configured one has a dot, and has a character of its line there. */
  predicate DotsApart(host: string, other: string) {
    && |other| == |host|
    && forall k :: 0 <= k < |host| ==>
         if host[k] == '.' then !LineTerminator(other[k]) && other[k] as int < 0x1_0000 else other[k] == host[k]
  }

  /** So the participant and the transfer URIs of such a host are parsed as if they were of the configured one. */
  lemma OtherHostsParsed(host: string, other: string, name: string, id: string)
    requires DotsApart(host, other) && AllWord(name) && IsUuid(id)
    ensures NameFromParticipantUri(host, other + "/participants/" + name) == Some(name)
    ensures IdFromTransferUri(host, other + "/transfers/" + id) == Some(id)
  {
    OtherPrefix(host, other, "/participants/", name);
    OtherPrefix(host, other, "/transfers/", id);
    var p, t := other + "/participants/" + name, other + "/transfers/" + id;
    assert PatternAt(host + PARTICIPANTS, p, 0);
    assert ParticipantMatch(host, p) == Some(0);
    assert p[0 + |host| + |PARTICIPANTS|..] == name;
    assert WordRun(name) == |name| && name[..|name|] == name;
    assert t[0 + |host| + |TRANSFERS|..] == id && id[..36] == id;
    assert TransferAt(host, t, 0);
  }

  lemma OtherPrefix(host: string, other: string, path: string, rest: string)
    requires DotsApart(host, other) && forall k :: 0 <= k < |path| ==> path[k] != '.'
    ensures PatternAt(host + path, other + path + rest, 0)
  {
    forall k | 0 <= k < |host + path|
      ensures MatchesChar((host + path)[k], (other + path + rest)[k])
    {
      assert (other + path + rest)[k] == if k < |host| then other[k] else path[k - |host|];
    }
  }

  /** What is printed is the text itself, or the host, the path and the text. */
  lemma PrintedForms(host: string, text: string)
    ensures ToParticipantUri(host, text) ==
              if ParticipantMatch(host, text).Some? then text else host + "/participants/" + text
    ensures ToTransferUri(host, text) == if TransferMatch(host, text).Some? then text else host + "/transfers/" + text
  {
  }
}
