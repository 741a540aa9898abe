/** The same-origin rule for browser upgrades. */
module Origin {
  import opened Wrappers
  import opened Text
  import opened Authority

  // --- trimming and case --------------------------------------------------------------------

  /** The Unicode White_Space characters. */
  predicate IsSpace(c: char) {
    var n := c as int;
    0x09 <= n <= 0x0D || n == 0x20 || n == 0x85 || n == 0xA0 || n == 0x1680 || 0x2000 <= n <= 0x200A
    || n == 0x2028 || n == 0x2029 || n == 0x202F || n == 0x205F || n == 0x3000
  }

  function TrimStart(s: string): string {
    if |s| > 0 && IsSpace(s[0]) then TrimStart(s[1..]) else s
  }

  function TrimEnd(s: string): string {
    if |s| > 0 && IsSpace(s[|s| - 1]) then TrimEnd(s[..|s| - 1]) else s
  }

  function Trim(s: string): string { TrimEnd(TrimStart(s)) }

  function Lower(s: string): (l: string)
    ensures |l| == |s| && forall i :: 0 <= i < |s| ==> l[i] == LowerChar(s[i])
  {
    if |s| == 0 then "" else [LowerChar(s[0])] + Lower(s[1..])
  }

  lemma LowerConcat(a: string, b: string)
    ensures Lower(a + b) == Lower(a) + Lower(b)
  {
  }

  lemma LowerSlice(s: string, i: nat, j: nat)
    requires i <= j <= |s|
    ensures Lower(s[i..j]) == Lower(s)[i..j]
  {
  }

  // --- the check ----------------------------------------------------------------------------

  /** A missing port reads as the scheme's. */
  function Normalized(authority: string, defaultPort: string): Option<string> {
    match StrictHostAndPort(authority)
    case None => None
    case Some((host, port)) => Some(host + ":" + EffectivePort(port, defaultPort))
  }

  function EffectivePort(port: Option<string>, defaultPort: string): string {
    if port.Some? then port.value else defaultPort
  }

  function DefaultPort(scheme: string): string {
    if Lower(scheme) == "http" then "80" else "443"
  }

  predicate OriginMatchesHost(originHeader: Option<string>, hostHeader: Option<string>) {
    if originHeader.None? then true
    else
      var origin := Trim(originHeader.value);
      if origin == "" || hostHeader.None? || Trim(hostHeader.value) == "" then false
      else
        var host := Trim(hostHeader.value);
        match Find(origin, "://")
        case None => false
        case Some(i) =>
          var scheme, authority := origin[..i], origin[i + 3..];
          if Lower(scheme) != "http" && Lower(scheme) != "https" then false
          else if '/' in authority || '?' in authority || '#' in authority || '@' in authority then false
          else if StrictHostAndPort(Lower(authority)).None? then false
          else Normalized(Lower(authority), DefaultPort(scheme)) == Normalized(Lower(host), DefaultPort(scheme))
  }

  // --- case does not matter to well-formedness ----------------------------------------------

  lemma LowerHostChar(c: char)
    ensures IsHostChar(LowerChar(c)) <==> IsHostChar(c)
    ensures IsHexDigit(LowerChar(c)) <==> IsHexDigit(c)
    ensures IsDigit(LowerChar(c)) <==> IsDigit(c)
    ensures IsDigit(c) || c in ":[]-./?#@" ==> LowerChar(c) == c
    ensures LowerChar(c) in ":[]-./?#@" ==> LowerChar(c) == c
  {
  }

  lemma LowerBare(host: string)
    ensures ValidBareHostname(Lower(host)) <==> ValidBareHostname(host)
  {
    forall i | 0 <= i < |host|
      ensures IsHostChar(Lower(host)[i]) <==> IsHostChar(host[i])
      ensures Lower(host)[i] == '-' <==> host[i] == '-'
    {
      LowerHostChar(host[i]);
    }
  }

  lemma {:induction false} LowerDigits(s: string)
    requires AllDigits(s) || AllDigits(Lower(s))
    ensures Lower(s) == s
  {
    forall i | 0 <= i < |s| ensures Lower(s)[i] == s[i] {
      LowerHostChar(s[i]);
    }
  }

  lemma LowerPort(port: string)
    ensures ValidExplicitPort(Lower(port)) <==> ValidExplicitPort(port)
    ensures ValidExplicitPort(port) ==> Lower(port) == port
  {
    if AllDigits(port) || AllDigits(Lower(port)) {
      LowerDigits(port);
    }
  }

  /** Colons and hexadecimal digits in the same places. */
  predicate SameShape(s: string, t: string) {
    |s| == |t| && forall i :: 0 <= i < |s| ==> (s[i] == ':' <==> t[i] == ':') && (IsHexDigit(s[i]) <==> IsHexDigit(t[i]))
  }

  lemma LowerShape(s: string)
    ensures SameShape(s, Lower(s))
  {
    forall i | 0 <= i < |s|
      ensures s[i] == ':' <==> Lower(s)[i] == ':'
      ensures IsHexDigit(s[i]) <==> IsHexDigit(Lower(s)[i])
    {
      LowerHostChar(s[i]);
    }
  }

  lemma ShapeFinds(s: string, t: string)
    requires SameShape(s, t)
    ensures Find(s, "::") == Find(t, "::")
  {
    forall i: nat ensures Occurs(s, "::", i) <==> Occurs(t, "::", i) {
      OccursTwo(s, i);
      OccursTwo(t, i);
    }
  }

  lemma {:induction false} ShapeCounts(s: string, t: string)
    requires SameShape(s, t)
    ensures CountMatches(s, "::") == CountMatches(t, "::")
    decreases |s|
  {
    ShapeFinds(s, t);
    if Find(s, "::").None? {
    } else {
      var i := Find(s, "::").value;
      ShapeCounts(s[i + 2..], t[i + 2..]);
    }
  }

  lemma ShapeGroup(s: string, t: string)
    requires SameShape(s, t)
    ensures ValidGroup(s) <==> ValidGroup(t)
  {
  }

  lemma ShapeColon(s: string, t: string)
    requires SameShape(s, t)
    ensures LastColon(s) == LastColon(t)
  {
  }

  lemma {:induction false} ShapeSplits(s: string, t: string)
    requires SameShape(s, t)
    ensures |Split(s)| == |Split(t)| && (AllGroups(Split(s)) <==> AllGroups(Split(t)))
    decreases |s|
  {
    ShapeColon(s, t);
    if LastColon(s).Some? {
      var i := LastColon(s).value;
      ShapeSplits(s[..i], t[..i]);
      ShapeGroup(s[i + 1..], t[i + 1..]);
      AllGroupsAppend(Split(s[..i]), s[i + 1..]);
      AllGroupsAppend(Split(t[..i]), t[i + 1..]);
    } else {
      ShapeGroup(s, t);
      AllGroupsAppend([], s);
      AllGroupsAppend([], t);
      assert [] + [s] == [s] && [] + [t] == [t];
    }
  }

  lemma AllGroupsAppend(pieces: seq<string>, last: string)
    ensures AllGroups(pieces + [last]) <==> AllGroups(pieces) && ValidGroup(last)
  {
    assert (pieces + [last])[|pieces|] == last;
    assert forall i :: 0 <= i < |pieces| ==> (pieces + [last])[i] == pieces[i];
  }

  lemma ShapeSides(s: string, t: string, compressed: bool)
    requires SameShape(s, t)
    ensures SideGroups(s, compressed) == SideGroups(t, compressed)
  {
    ShapeSplits(s, t);
  }

  lemma ShapeIpv6(s: string, t: string)
    requires SameShape(s, t)
    ensures ValidIpv6(s) <==> ValidIpv6(t)
  {
    hide Find, CountMatches, SideGroups;
    ShapeFinds(s, t);
    ShapeCounts(s, t);
    assert ':' in s <==> ':' in t;
    if Find(s, "::").Some? {
      var i := Find(s, "::").value;
      ShapeSides(s[..i], t[..i], true);
      ShapeSides(s[i + 2..], t[i + 2..], true);
    } else {
      ShapeSides(s, t, false);
    }
  }

  lemma LowerInside(host: string)
    requires |host| >= 2
    ensures ValidIpv6(Lower(host)[1..|host| - 1]) <==> ValidIpv6(host[1..|host| - 1])
  {
    var inside, lowered := host[1..|host| - 1], Lower(host)[1..|host| - 1];
    assert Lower(inside) == lowered by { LowerSlice(host, 1, |host| - 1); }
    LowerShape(inside);
    ShapeIpv6(inside, lowered);
  }

  lemma LowerBracketed(host: string)
    ensures BracketedIpv6(Lower(host)) <==> BracketedIpv6(host)
  {
    if |host| >= 2 {
      LowerHostChar(host[0]);
      LowerHostChar(host[|host| - 1]);
      LowerInside(host);
    }
  }

  lemma LowerHost(host: string)
    ensures ValidHost(Lower(host)) <==> ValidHost(host)
  {
    LowerBare(host);
    LowerBracketed(host);
  }

  lemma LowerPrinted(host: string, port: Option<string>)
    requires ValidAuthority(host, port)
    ensures ValidAuthority(Lower(host), port) && Lower(Printed(host, port)) == Printed(Lower(host), port)
  {
    LowerHost(host);
    if port.Some? {
      LowerPort(port.value);
      LowerConcat(host, ":" + port.value);
      LowerConcat(":", port.value);
      assert host + ":" + port.value == host + (":" + port.value);
    }
  }

  /** Splitting commutes with lowering: the host is lowered, the port is digits. */
  lemma StrictLower(authority: string)
    ensures match StrictHostAndPort(authority)
            case None => StrictHostAndPort(Lower(authority)).None?
            case Some((host, port)) => StrictHostAndPort(Lower(authority)) == Some((Lower(host), port))
  {
    if StrictHostAndPort(authority).Some? {
      var (host, port) := StrictHostAndPort(authority).value;
      StrictExact(authority, host, port);
      LowerPrinted(host, port);
      StrictExact(Lower(authority), Lower(host), port);
    } else if StrictHostAndPort(Lower(authority)).Some? {
      var (host, port) := StrictHostAndPort(Lower(authority)).value;
      StrictExact(Lower(authority), host, port);
      Unlower(authority, host, port);
    }
  }

  /** What prints in lower case was printed. */
  lemma Unlower(authority: string, host: string, port: Option<string>)
    requires Lower(authority) == Printed(host, port) && ValidAuthority(host, port)
    ensures StrictHostAndPort(authority).Some?
  {
    if port.Some? {
      var h, p := UnlowerSplit(authority, host, port.value);
      LowerHost(h);
      LowerPort(p);
      StrictExact(authority, h, Some(p));
    } else {
      LowerHost(authority);
      StrictExact(authority, authority, None);
    }
  }

  lemma UnlowerSplit(authority: string, host: string, port: string) returns (h: string, p: string)
    requires Lower(authority) == host + ":" + port
    ensures authority == h + ":" + p && Lower(h) == host && Lower(p) == port
  {
    var n := |host|;
    h, p := authority[..n], authority[n + 1..];
    LowerSlice(authority, 0, n);
    assert authority[0..n] == h && Lower(authority)[0..n] == host;
    LowerSlice(authority, n + 1, |authority|);
    assert authority[n + 1..|authority|] == p && Lower(authority)[n + 1..|authority|] == port;
    LowerHostChar(authority[n]);
    assert Lower(authority)[n] == ':';
  }

  // --- the rule -----------------------------------------------------------------------------

  predicate HttpScheme(scheme: string) {
    Lower(scheme) == "http" || Lower(scheme) == "https"
  }

  /** Both well formed, one host up to ASCII case, one effective port text. */
  predicate Agree(scheme: string, h: string, p: Option<string>, h2: string, p2: Option<string>) {
    && ValidAuthority(h, p) && ValidAuthority(h2, p2) && Lower(h) == Lower(h2)
    && EffectivePort(p, DefaultPort(scheme)) == EffectivePort(p2, DefaultPort(scheme))
  }

  ghost predicate SameOrigin(origin: string, host: string) {
    exists scheme, h, p, h2, p2 ::
      && HttpScheme(scheme) && Agree(scheme, h, p, h2, p2)
      && origin == scheme + "://" + Printed(h, p) && host == Printed(h2, p2)
  }

  lemma NormalizedAgrees(h: string, e: string, h2: string, e2: string)
    requires ':' !in e && ':' !in e2
    ensures h + ":" + e == h2 + ":" + e2 <==> h == h2 && e == e2
  {
    var s, t := h + ":" + e, h2 + ":" + e2;
    LastColonBetween(h, e);
    LastColonBetween(h2, e2);
    if s == t {
      assert h == s[..|h|] && h2 == t[..|h2|] && e == s[|h| + 1..] && e2 == t[|h2| + 1..];
    }
  }

  lemma EffectiveIsDigits(port: Option<string>, scheme: string)
    requires port.Some? ==> ValidExplicitPort(port.value)
    ensures ':' !in EffectivePort(port, DefaultPort(scheme))
  {
  }

  /** The comparison of the normalized forms is agreement. */
  lemma ComparedIsAgree(scheme: string, authority: string, host: string)
    requires StrictHostAndPort(Lower(authority)).Some?
    ensures Normalized(Lower(authority), DefaultPort(scheme)) == Normalized(Lower(host), DefaultPort(scheme)) <==>
              (StrictHostAndPort(authority).Some? && StrictHostAndPort(host).Some?
               && var (h, p) := StrictHostAndPort(authority).value;
                  var (h2, p2) := StrictHostAndPort(host).value;
                  Agree(scheme, h, p, h2, p2))
  {
    StrictLower(authority);
    StrictLower(host);
    var (h, p) := StrictHostAndPort(authority).value;
    StrictExact(authority, h, p);
    if StrictHostAndPort(host).Some? {
      var (h2, p2) := StrictHostAndPort(host).value;
      StrictExact(host, h2, p2);
      EffectiveIsDigits(p, scheme);
      EffectiveIsDigits(p2, scheme);
      NormalizedAgrees(Lower(h), EffectivePort(p, DefaultPort(scheme)), Lower(h2), EffectivePort(p2, DefaultPort(scheme)));
    }
  }

  predicate Plain(s: string) {
    '/' !in s && '?' !in s && '#' !in s && '@' !in s
  }

  predicate AuthorityChar(c: char) {
    IsHostChar(c) || c == ':' || c == '[' || c == ']'
  }

  predicate AuthorityChars(s: string) {
    forall i :: 0 <= i < |s| ==> AuthorityChar(s[i])
  }

  lemma AuthorityCharsPlain(s: string)
    requires AuthorityChars(s)
    ensures Plain(s)
  {
  }

  lemma HostChars(host: string)
    requires ValidHost(host)
    ensures AuthorityChars(host) && |host| > 0
  {
    if BracketedIpv6(host) {
      var literal := host[1..|host| - 1];
      Ipv6Exact(literal);
      forall i | 0 <= i < |host| ensures AuthorityChar(host[i]) {
        assert 0 < i < |host| - 1 ==> host[i] == literal[i - 1];
      }
    }
  }

  /** A printed authority has none of the characters that are refused beforehand. */
  lemma PrintedIsPlain(host: string, port: Option<string>)
    requires ValidAuthority(host, port)
    ensures Plain(Printed(host, port)) && |Printed(host, port)| > 0
  {
    HostChars(host);
    AuthorityCharsPlain(Printed(host, port));
  }

  lemma SchemeEnds(scheme: string, rest: string)
    requires HttpScheme(scheme)
    ensures var s := scheme + "://" + rest;
            Find(s, "://") == Some(|scheme|) && s[..|scheme|] == scheme && s[|scheme| + 3..] == rest
  {
    var s := scheme + "://" + rest;
    assert Occurs(s, "://", |scheme|);
    forall i | 0 <= i < |scheme| ensures !Occurs(s, "://", i) {
      LowerHostChar(scheme[i]);
      assert Lower(scheme)[i] != ':' && s[i] == scheme[i];
      assert i + 3 <= |s| ==> s[i..i + 3][0] == s[i];
    }
  }

  lemma SameOriginOf(scheme: string, h: string, p: Option<string>, h2: string, p2: Option<string>)
    requires HttpScheme(scheme) && Agree(scheme, h, p, h2, p2)
    ensures SameOrigin(scheme + "://" + Printed(h, p), Printed(h2, p2))
  {
  }

  lemma FoundSplits(s: string, i: nat)
    requires Find(s, "://") == Some(i)
    ensures s == s[..i] + "://" + s[i + 3..]
  {
    assert s[i..i + 3] == "://";
    assert s == s[..i] + s[i..i + 3] + s[i + 3..];
  }

  lemma AgreeIsSameOrigin(scheme: string, authority: string, host: string)
    requires HttpScheme(scheme) && StrictHostAndPort(authority).Some? && StrictHostAndPort(host).Some?
    requires var (h, p) := StrictHostAndPort(authority).value;
             var (h2, p2) := StrictHostAndPort(host).value;
             Agree(scheme, h, p, h2, p2)
    ensures SameOrigin(scheme + "://" + authority, host)
  {
    var (h, p) := StrictHostAndPort(authority).value;
    var (h2, p2) := StrictHostAndPort(host).value;
    StrictExact(authority, h, p);
    StrictExact(host, h2, p2);
    SameOriginOf(scheme, h, p, h2, p2);
  }

  lemma MatchIsSameOrigin(origin: string, host: string)
    requires OriginMatchesHost(Some(origin), Some(host))
    ensures SameOrigin(Trim(origin), Trim(host))
  {
    var o := Trim(origin);
    var i := Find(o, "://").value;
    FoundSplits(o, i);
    ComparedIsAgree(o[..i], o[i + 3..], Trim(host));
    AgreeIsSameOrigin(o[..i], o[i + 3..], Trim(host));
  }

  lemma SameOriginMatches(origin: string, host: string)
    requires SameOrigin(Trim(origin), Trim(host))
    ensures OriginMatchesHost(Some(origin), Some(host))
  {
    var o, t := Trim(origin), Trim(host);
    var scheme, h, p, h2, p2 :|
      && HttpScheme(scheme) && Agree(scheme, h, p, h2, p2)
      && o == scheme + "://" + Printed(h, p) && t == Printed(h2, p2);
    SchemeEnds(scheme, Printed(h, p));
    PrintedIsPlain(h, p);
    PrintedIsPlain(h2, p2);
    StrictExact(Printed(h, p), h, p);
    StrictExact(t, h2, p2);
    StrictLower(Printed(h, p));
    ComparedIsAgree(scheme, Printed(h, p), t);
  }

  /**
   * An absent Origin is admitted. A present one is admitted exactly when it and the Host header are well
   * formed once trimmed, their hosts agree up to ASCII case, and their effective port texts agree.
   */
  lemma OriginExact(originHeader: Option<string>, hostHeader: Option<string>)
    ensures OriginMatchesHost(originHeader, hostHeader) <==>
              originHeader.None? || (hostHeader.Some? && SameOrigin(Trim(originHeader.value), Trim(hostHeader.value)))
  {
    if originHeader.Some? && hostHeader.Some? {
      if OriginMatchesHost(originHeader, hostHeader) {
        MatchIsSameOrigin(originHeader.value, hostHeader.value);
      } else if SameOrigin(Trim(originHeader.value), Trim(hostHeader.value)) {
        SameOriginMatches(originHeader.value, hostHeader.value);
      }
    }
  }
}
