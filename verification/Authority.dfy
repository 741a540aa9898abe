/** Authorities as browsers print them: hosts, IPv6 literals and explicit ports. */
module Authority {
  import opened Wrappers
  import opened Text

  // --- searching and splitting --------------------------------------------------------------

  predicate Occurs(s: string, what: string, i: nat) {
    i + |what| <= |s| && s[i..i + |what|] == what
  }

  /** The first occurrence of a text. */
  function Find(s: string, what: string): (at: Option<nat>)
    ensures at.Some? ==> Occurs(s, what, at.value) && forall i :: 0 <= i < at.value ==> !Occurs(s, what, i)
    ensures at.None? ==> forall i :: 0 <= i <= |s| ==> !Occurs(s, what, i)
  {
    FindFrom(s, what, 0)
  }

  function FindFrom(s: string, what: string, from: nat): (at: Option<nat>)
    requires from <= |s|
    ensures at.Some? ==> from <= at.value && Occurs(s, what, at.value)
    ensures at.Some? ==> forall i :: from <= i < at.value ==> !Occurs(s, what, i)
    ensures at.None? ==> forall i :: from <= i <= |s| ==> !Occurs(s, what, i)
    decreases |s| - from
  {
    if Occurs(s, what, from) then Some(from)
    else if from == |s| then None
    else FindFrom(s, what, from + 1)
  }

  /** How often a text occurs, counting past each occurrence. */
  function CountMatches(s: string, what: string): nat
    requires |what| > 0
    decreases |s|
  {
    match Find(s, what)
    case None => 0
    case Some(i) => 1 + CountMatches(s[i + |what|..], what)
  }

  /** The last colon of a text. */
  function LastColon(s: string): (at: Option<nat>)
    ensures at.None? <==> ':' !in s
    ensures at.Some? ==> at.value < |s| && s[at.value] == ':'
    ensures at.Some? ==> forall i :: at.value < i < |s| ==> s[i] != ':'
  {
    if |s| == 0 then None
    else if s[|s| - 1] == ':' then Some(|s| - 1)
    else
      assert s == s[..|s| - 1] + [s[|s| - 1]];
      LastColon(s[..|s| - 1])
  }

  lemma LastColonIs(s: string, k: nat)
    requires k < |s| && s[k] == ':' && forall i :: k < i < |s| ==> s[i] != ':'
    ensures LastColon(s) == Some(k)
  {
    hide LastColon;
    var at := LastColon(s);
    assert s[k] in s;
  }

  lemma LastBetween(head: string, sep: string, last: string)
    requires |sep| == 1 && sep[0] == ':' && ':' !in last
    ensures LastColon(head + sep + last) == Some(|head|)
  {
    hide LastColon;
    var s := head + sep + last;
    assert forall i :: |head| < i < |s| ==> s[i] == last[i - |head| - 1];
    LastColonIs(s, |head|);
  }

  lemma LastColonBetween(head: string, last: string)
    requires ':' !in last
    ensures LastColon(head + ":" + last) == Some(|head|)
  {
    hide LastColon;
    LastBetween(head, ":", last);
  }

  function Split(s: string): (pieces: seq<string>)
    ensures |pieces| > 0 && forall p :: p in pieces ==> ':' !in p
    decreases |s|
  {
    if ':' !in s then [s]
    else
      var i := LastColon(s).value;
      Split(s[..i]) + [s[i + 1..]]
  }

  function Join(pieces: seq<string>): string {
    if |pieces| == 0 then ""
    else if |pieces| == 1 then pieces[0]
    else Join(pieces[..|pieces| - 1]) + ":" + pieces[|pieces| - 1]
  }

  lemma JoinLast(pieces: seq<string>, last: string)
    requires |pieces| > 0
    ensures Join(pieces + [last]) == Join(pieces) + ":" + last
  {
    assert (pieces + [last])[..|pieces|] == pieces;
  }

  /** A text around one of its characters. */
  lemma AroundCharacter(s: string, i: nat, sep: string)
    requires i < |s| && sep == [s[i]]
    ensures s == s[..i] + sep + s[i + 1..]
  {
  }

  lemma {:induction false} JoinSplit(s: string)
    ensures Join(Split(s)) == s
    decreases |s|
  {
    hide Join, LastColon;
    if ':' !in s {
      JoinOne(s);
    } else {
      var i := LastColon(s).value;
      JoinSplit(s[..i]);
      JoinLast(Split(s[..i]), s[i + 1..]);
      AroundCharacter(s, i, ":");
    }
  }

  lemma JoinOne(s: string)
    ensures Join([s]) == s
  {
  }

  lemma {:induction false} SplitJoin(pieces: seq<string>)
    requires |pieces| > 0 && forall p :: p in pieces ==> ':' !in p
    ensures Split(Join(pieces)) == pieces
  {
    var n := |pieces| - 1;
    if n == 0 {
      assert pieces == [pieces[0]];
    } else {
      var head, last, s := Join(pieces[..n]), pieces[n], Join(pieces);
      SplitJoin(pieces[..n]);
      LastColonBetween(head, last);
      assert s[..|head|] == head && s[|head| + 1..] == last;
      assert pieces == pieces[..n] + [last];
    }
  }

  // --- IPv6 literals ------------------------------------------------------------------------

  predicate IsHexDigit(c: char) {
    IsDigit(c) || 'a' <= c <= 'f' || 'A' <= c <= 'F'
  }

  predicate ValidGroup(g: string) {
    1 <= |g| <= 4 && forall i :: 0 <= i < |g| ==> IsHexDigit(g[i])
  }

  predicate AllGroups(pieces: seq<string>) {
    forall i :: 0 <= i < |pieces| ==> ValidGroup(pieces[i])
  }

  /** The explicit groups on one side of a literal. */
  function SideGroups(side: string, compressed: bool): Option<nat> {
    if side == "" then (if compressed then Some(0) else None)
    else if AllGroups(Split(side)) then Some(|Split(side)|)
    else None
  }

  /** The structural check, as a predicate. */
  predicate ValidIpv6(literal: string) {
    && ':' in literal && CountMatches(literal, "::") <= 1
    && match Find(literal, "::")
       case Some(i) =>
         var left, right := SideGroups(literal[..i], true), SideGroups(literal[i + 2..], true);
         left.Some? && right.Some? && left.value + right.value <= 7
       case None => SideGroups(literal, false) == Some(8)
  }

  /** One side: every colon-separated piece is one group; an empty side is legal only beside a double colon. */
  method CountSide(side: string, compressed: bool) returns (groups: Option<nat>)
    ensures groups == SideGroups(side, compressed)
  {
    if side == "" {
      return if compressed then Some(0) else None;
    }
    var pieces := Split(side);
    var count := 0;
    for g := 0 to |pieces|
      invariant count == g && forall k :: 0 <= k < g ==> ValidGroup(pieces[k])
    {
      if !ValidGroup(pieces[g]) { return None; }
      count := count + 1;
    }
    return Some(count);
  }

  /** The groups on all sides, if each side is well formed. */
  function TotalGroups(halves: seq<string>, compressed: bool): Option<nat> {
    if |halves| == 0 then Some(0)
    else
      var before, last := TotalGroups(halves[..|halves| - 1], compressed), SideGroups(halves[|halves| - 1], compressed);
      if before.None? || last.None? then None else Some(before.value + last.value)
  }

  lemma OneSide(side: string, compressed: bool)
    ensures TotalGroups([side], compressed) == SideGroups(side, compressed)
  {
    assert [side][..0] == [];
    assert TotalGroups([], compressed) == Some(0);
  }

  lemma TwoSides(left: string, right: string)
    ensures TotalGroups([left, right], true) ==
              if SideGroups(left, true).Some? && SideGroups(right, true).Some?
              then Some(SideGroups(left, true).value + SideGroups(right, true).value) else None
  {
    assert [left, right][..1] == [left];
    OneSide(left, true);
  }

  /** A side that is not well formed spoils every longer list of sides. */
  lemma {:induction false} BadSideSpoils(halves: seq<string>, compressed: bool, h: nat)
    requires h < |halves| && SideGroups(halves[h], compressed).None?
    ensures TotalGroups(halves, compressed).None?
  {
    var n := |halves| - 1;
    if h == n {
    } else {
      BadSideSpoils(halves[..n], compressed, h);
    }
  }

  method CountGroups(halves: seq<string>, compressed: bool) returns (total: Option<nat>)
    ensures total == TotalGroups(halves, compressed)
  {
    var groups := 0;
    for h := 0 to |halves|
      invariant TotalGroups(halves[..h], compressed) == Some(groups)
    {
      var side := CountSide(halves[h], compressed);
      if side.None? {
        BadSideSpoils(halves, compressed, h);
        return None;
      }
      assert halves[..h + 1][..h] == halves[..h];
      groups := groups + side.value;
    }
    assert halves[..|halves|] == halves;
    return Some(groups);
  }

  method ValidIpv6Literal(literal: string) returns (ok: bool)
    ensures ok <==> ValidIpv6(literal)
  {
    hide SideGroups, TotalGroups, CountMatches, Find;
    if ':' !in literal || CountMatches(literal, "::") > 1 { return false; }
    var at := Find(literal, "::");
    if at.Some? {
      var left, right := literal[..at.value], literal[at.value + 2..];
      TwoSides(left, right);
      var groups := CountGroups([left, right], true);
      return groups.Some? && groups.value <= 7;
    } else {
      OneSide(literal, false);
      var groups := CountGroups([literal], false);
      return groups == Some(8);
    }
  }

  /** Forms 1 and 2 of section 2.2 of RFC 4291: eight groups, or fewer around one double colon. */
  ghost predicate Ipv6Text(s: string) {
    || (exists groups :: |groups| == 8 && AllGroups(groups) && s == Join(groups))
    || (exists left, right :: |left| + |right| <= 7 && AllGroups(left) && AllGroups(right)
          && s == Join(left) + "::" + Join(right))
  }

  lemma SideIsJoin(side: string, compressed: bool) returns (groups: seq<string>)
    requires SideGroups(side, compressed).Some?
    ensures AllGroups(groups) && side == Join(groups) && |groups| == SideGroups(side, compressed).value
  {
    if side == "" {
      groups := [];
    } else {
      groups := Split(side);
      JoinSplit(side);
    }
  }

  /** No colon at either end, and no two in a row. */
  predicate Clean(s: string) {
    && (|s| > 0 ==> s[0] != ':' && s[|s| - 1] != ':')
    && forall i :: 0 <= i < |s| - 1 ==> !(s[i] == ':' && s[i + 1] == ':')
  }

  predicate HexAndColons(s: string) {
    forall i :: 0 <= i < |s| ==> IsHexDigit(s[i]) || s[i] == ':'
  }

  lemma GroupHasNoColon(g: string)
    requires ValidGroup(g)
    ensures ':' !in g && HexAndColons(g) && Clean(g)
  {
  }

  lemma {:induction false} JoinClean(groups: seq<string>)
    requires AllGroups(groups)
    ensures Clean(Join(groups)) && (|groups| > 0 <==> |Join(groups)| > 0) && HexAndColons(Join(groups))
    ensures |groups| > 1 ==> ':' in Join(groups)
  {
    if |groups| == 0 {
    } else {
      var n := |groups| - 1;
      GroupHasNoColon(groups[n]);
      if n > 0 {
        JoinClean(groups[..n]);
        assert Join(groups)[|Join(groups[..n])|] == ':';
      }
    }
  }

  lemma JoinSide(groups: seq<string>)
    requires AllGroups(groups)
    ensures SideGroups(Join(groups), true) == Some(|groups|)
    ensures |groups| > 0 ==> SideGroups(Join(groups), false) == Some(|groups|)
  {
    JoinClean(groups);
    if |groups| > 0 {
      forall p | p in groups ensures ':' !in p {
        var i :| 0 <= i < |groups| && groups[i] == p;
        GroupHasNoColon(groups[i]);
      }
      SplitJoin(groups);
    }
  }

  lemma OccursTwo(s: string, i: nat)
    ensures Occurs(s, "::", i) <==> i + 1 < |s| && s[i] == ':' && s[i + 1] == ':'
  {
    if i + 2 <= |s| {
      assert s[i..i + 2] == [s[i], s[i + 1]];
    }
  }

  lemma NoDoubleColon(s: string)
    requires Clean(s)
    ensures Find(s, "::").None? && CountMatches(s, "::") == 0
  {
    forall i: nat ensures !Occurs(s, "::", i) { OccursTwo(s, i); }
  }

  /** Two clean sides around a double colon have it once, between them. */
  lemma DoubleColonBetween(left: string, right: string)
    requires Clean(left) && Clean(right)
    ensures var s := left + "::" + right;
            Find(s, "::") == Some(|left|) && CountMatches(s, "::") == 1 && s[..|left|] == left && s[|left| + 2..] == right
  {
    var s := left + "::" + right;
    OccursTwo(s, |left|);
    forall i | 0 <= i < |left| ensures !Occurs(s, "::", i) { OccursTwo(s, i); }
    assert s[|left| + 2..] == right;
    NoDoubleColon(right);
  }

  lemma CheckedIsPrinted(s: string)
    requires ValidIpv6(s)
    ensures Ipv6Text(s)
  {
    hide SideGroups, CountMatches, Find, Join;
    var at := Find(s, "::");
    if at.Some? {
      var left := SideIsJoin(s[..at.value], true);
      var right := SideIsJoin(s[at.value + 2..], true);
      assert s == Join(left) + "::" + Join(right);
    } else {
      var groups := SideIsJoin(s, false);
    }
  }

  lemma EightGroupsChecked(groups: seq<string>)
    requires |groups| == 8 && AllGroups(groups)
    ensures ValidIpv6(Join(groups)) && HexAndColons(Join(groups))
  {
    JoinClean(groups);
    NoDoubleColon(Join(groups));
    JoinSide(groups);
  }

  lemma CompressedChecked(left: seq<string>, right: seq<string>)
    requires |left| + |right| <= 7 && AllGroups(left) && AllGroups(right)
    ensures ValidIpv6(Join(left) + "::" + Join(right)) && HexAndColons(Join(left) + "::" + Join(right))
  {
    JoinClean(left);
    JoinClean(right);
    JoinSide(left);
    JoinSide(right);
    DoubleColonBetween(Join(left), Join(right));
    HexAround(Join(left), Join(right));
  }

  lemma HexAround(left: string, right: string)
    requires HexAndColons(left) && HexAndColons(right)
    ensures HexAndColons(left + "::" + right) && ':' in left + "::" + right
  {
    assert (left + "::" + right)[|left|] == ':';
  }

  /** The structural check accepts exactly the hexadecimal forms of section 2.2 of RFC 4291. */
  lemma Ipv6Exact(s: string)
    ensures ValidIpv6(s) <==> Ipv6Text(s)
    ensures ValidIpv6(s) ==> HexAndColons(s)
  {
    if ValidIpv6(s) {
      CheckedIsPrinted(s);
    }
    if Ipv6Text(s) {
      if groups :| |groups| == 8 && AllGroups(groups) && s == Join(groups) {
        EightGroupsChecked(groups);
      } else {
        var left, right :| |left| + |right| <= 7 && AllGroups(left) && AllGroups(right)
          && s == Join(left) + "::" + Join(right);
        CompressedChecked(left, right);
      }
    }
  }

  // --- hosts and ports ----------------------------------------------------------------------

  predicate IsHostChar(c: char) {
    IsDigit(c) || 'a' <= c <= 'z' || 'A' <= c <= 'Z' || c == '.' || c == '-'
  }

  predicate ValidBareHostname(host: string) {
    |host| > 0 && (forall i :: 0 <= i < |host| ==> IsHostChar(host[i])) && host[0] != '-' && host[|host| - 1] != '-'
  }

  predicate ValidExplicitPort(port: string) {
    1 <= |port| <= 5 && AllDigits(port) && DecimalValue(port) <= 65_535
  }

  /** Split an authority into host and explicit port under the strict forms. */
  function StrictHostAndPort(authority: string): Option<(string, Option<string>)> {
    if |authority| > 0 && authority[0] == '[' then
      match Find(authority, "]")
      case None => None
      case Some(close) =>
        if !ValidIpv6(authority[1..close]) then None
        else
          var remainder := authority[close + 1..];
          if remainder == "" then Some((authority[..close + 1], None))
          else if remainder[0] == ':' && ValidExplicitPort(remainder[1..]) then
            Some((authority[..close + 1], Some(remainder[1..])))
          else None
    else
      match LastColon(authority)
      case None => if ValidBareHostname(authority) then Some((authority, None)) else None
      case Some(i) =>
        if ':' !in authority[..i] && ValidBareHostname(authority[..i]) && ValidExplicitPort(authority[i + 1..]) then
          Some((authority[..i], Some(authority[i + 1..])))
        else None
  }

  predicate BracketedIpv6(host: string) {
    |host| >= 2 && host[0] == '[' && host[|host| - 1] == ']' && ValidIpv6(host[1..|host| - 1])
  }

  predicate ValidHost(host: string) {
    ValidBareHostname(host) || BracketedIpv6(host)
  }

  predicate ValidAuthority(host: string, port: Option<string>) {
    ValidHost(host) && (port.Some? ==> ValidExplicitPort(port.value))
  }

  /** How a browser prints a host and an explicit port. */
  function Printed(host: string, port: Option<string>): string {
    if port.Some? then host + ":" + port.value else host
  }

  lemma BracketedIsPrinted(authority: string, close: nat)
    requires |authority| > 0 && authority[0] == '[' && Find(authority, "]") == Some(close) && ValidIpv6(authority[1..close])
    ensures 0 < close < |authority| && BracketedIpv6(authority[..close + 1])
    ensures authority == authority[..close + 1] + authority[close + 1..]
  {
    assert authority[close..close + 1] == "]";
    assert authority[close] == ']';
    var host := authority[..close + 1];
    assert host[1..|host| - 1] == authority[1..close];
  }

  lemma RemainderSplits(authority: string, n: nat)
    requires n < |authority| && authority[n] == ':'
    ensures authority == authority[..n] + ":" + authority[n + 1..] && authority[n..][1..] == authority[n + 1..]
  {
  }

  lemma AcceptedIsPrinted(authority: string, host: string, port: Option<string>)
    requires StrictHostAndPort(authority) == Some((host, port))
    ensures authority == Printed(host, port) && ValidAuthority(host, port)
  {
    if |authority| > 0 && authority[0] == '[' {
      var close := Find(authority, "]").value;
      BracketedIsPrinted(authority, close);
      if close + 1 < |authority| {
        RemainderSplits(authority, close + 1);
      }
    } else if LastColon(authority).Some? {
      RemainderSplits(authority, LastColon(authority).value);
    }
  }

  lemma CloseBracket(literal: string, rest: string)
    requires ']' !in literal
    ensures Find("[" + literal + "]" + rest, "]") == Some(|literal| + 1)
  {
    var s := "[" + literal + "]" + rest;
    assert Occurs(s, "]", |literal| + 1);
    forall i | 0 <= i < |literal| + 1 ensures !Occurs(s, "]", i) {
      assert s[i] == if i == 0 then '[' else literal[i - 1];
      assert s[i..i + 1] == [s[i]];
    }
  }

  lemma BracketParses(literal: string, rest: string)
    requires ValidIpv6(literal)
    ensures var s := "[" + literal + "]" + rest;
            && Find(s, "]") == Some(|literal| + 1) && s[0] == '['
            && s[1..|literal| + 1] == literal && s[..|literal| + 2] == "[" + literal + "]" && s[|literal| + 2..] == rest
  {
    Ipv6Exact(literal);
    CloseBracket(literal, rest);
  }

  lemma BracketedRead(authority: string, close: nat, host: string, rest: string)
    requires |authority| > 0 && authority[0] == '[' && Find(authority, "]") == Some(close) && close < |authority|
    requires ValidIpv6(authority[1..close]) && authority[..close + 1] == host && authority[close + 1..] == rest
    ensures rest == "" ==> StrictHostAndPort(authority) == Some((host, None))
    ensures rest != "" && rest[0] == ':' && ValidExplicitPort(rest[1..]) ==>
              StrictHostAndPort(authority) == Some((host, Some(rest[1..])))
  {
    hide Find, ValidIpv6, ValidExplicitPort;
  }

  lemma PortFollows(host: string, port: string)
    ensures host + ":" + port == host + (":" + port) && (":" + port)[0] == ':' && (":" + port)[1..] == port
  {
  }

  lemma BracketedAccepted(host: string, literal: string, port: Option<string>)
    requires host == "[" + literal + "]" && ValidIpv6(literal)
    requires port.Some? ==> ValidExplicitPort(port.value)
    ensures StrictHostAndPort(Printed(host, port)) == Some((host, port))
  {
    hide Find, ValidIpv6, ValidExplicitPort, StrictHostAndPort;
    var rest := if port.Some? then ":" + port.value else "";
    BracketParses(literal, rest);
    BracketedRead(host + rest, |literal| + 1, host, rest);
    if port.Some? {
      PortFollows(host, port.value);
    } else {
      assert host + rest == host;
    }
  }

  lemma BareAccepted(host: string, port: Option<string>)
    requires ValidBareHostname(host) && (port.Some? ==> ValidExplicitPort(port.value))
    ensures StrictHostAndPort(Printed(host, port)) == Some((host, port))
  {
    assert IsHostChar(host[0]) && ':' !in host;
    if port.Some? {
      assert ':' !in port.value;
      LastColonBetween(host, port.value);
      var s := Printed(host, port);
      assert s[..|host|] == host && s[|host| + 1..] == port.value;
    }
  }

  lemma Bracketed(host: string) returns (literal: string)
    requires |host| >= 2 && host[0] == '[' && host[|host| - 1] == ']'
    ensures host == "[" + literal + "]" && literal == host[1..|host| - 1]
  {
    literal := host[1..|host| - 1];
  }

  lemma PrintedIsAccepted(host: string, port: Option<string>)
    requires ValidAuthority(host, port)
    ensures StrictHostAndPort(Printed(host, port)) == Some((host, port))
  {
    if ValidBareHostname(host) {
      BareAccepted(host, port);
    } else {
      var literal := Bracketed(host);
      BracketedAccepted(host, literal, port);
    }
  }

  /** Exactly the printed forms are accepted, and the parts put the text together again. */
  lemma StrictExact(authority: string, host: string, port: Option<string>)
    ensures StrictHostAndPort(authority) == Some((host, port)) <==>
              authority == Printed(host, port) && ValidAuthority(host, port)
  {
    if StrictHostAndPort(authority) == Some((host, port)) {
      AcceptedIsPrinted(authority, host, port);
    } else if ValidAuthority(host, port) {
      PrintedIsAccepted(host, port);
    }
  }
}
