/** Resource identities, the exact identity key, and the request fingerprints built on it. */
module Identity {
  import opened Wrappers
  import opened Text

  datatype Gvk = Gvk(group: string, version: string, kind: string)

  datatype ResourceRef = ResourceRef(
    context: string, gvk: Gvk, namespace: Option<string>, name: string, uid: string)

  datatype Propagation = Background | Foreground | Orphan

  /** One mutating command; `yamlHash` stands for the hash of the submitted buffer. */
  datatype Command =
    | Apply(context: string, yamlHash: string, ticket: nat, bufferHash: string, target: ResourceRef)
    | Scale(target: ResourceRef, replicas: nat)
    | Delete(target: ResourceRef, propagation: Propagation, resourceVersion: string)
    | Restart(target: ResourceRef)
    | CreateJob(target: ResourceRef)
    | SetSuspended(target: ResourceRef, suspended: bool)

  /** Bytes of one character in UTF-8, which is what a Rust string length counts. */
  function Utf8Width(c: char): (n: nat)
    ensures 1 <= n <= 4
  {
    var code := c as int;
    if code < 0x80 then 1 else if code < 0x800 then 2 else if code < 0x10000 then 3 else 4
  }

  function Utf8Len(s: string): nat {
    if |s| == 0 then 0 else Utf8Width(s[0]) + Utf8Len(s[1..])
  }

  lemma {:induction false} Utf8LenConcat(a: string, b: string)
    ensures Utf8Len(a + b) == Utf8Len(a) + Utf8Len(b)
  {
    if |a| == 0 {
      assert a + b == b;
    } else {
      Utf8LenConcat(a[1..], b);
      assert (a + b)[1..] == a[1..] + b;
    }
  }

  function OrEmpty(text: Option<string>): string {
    if text.Some? then text.value else ""
  }

  /** The seven identity fields in key order; an absent namespace reads as empty text. */
  function Fields(r: ResourceRef): (f: seq<string>)
    ensures |f| == 7
  {
    [r.context, r.gvk.group, r.gvk.version, r.gvk.kind, OrEmpty(r.namespace), r.name, r.uid]
  }

  function LengthPrefixed(field: string): string {
    Decimal(Utf8Len(field)) + [':'] + field
  }

  function JoinFields(fields: seq<string>): string
    requires |fields| > 0
  {
    if |fields| == 1 then LengthPrefixed(fields[0])
    else LengthPrefixed(fields[0]) + ("|" + JoinFields(fields[1..]))
  }

  function ExactIdentityKey(r: ResourceRef): string {
    JoinFields(Fields(r))
  }

  /** Two texts of one byte length that start equal continuations are equal. */
  lemma SameLengthHeads(a: string, r: string, b: string, t: string)
    requires a + r == b + t && Utf8Len(a) == Utf8Len(b)
    ensures a == b && r == t
  {
    var x, y := a + r, b + t;
    if |a| < |b| {
      assert b == a + b[|a|..] by { assert a == x[..|a|] && b == y[..|b|]; }
      Utf8LenConcat(a, b[|a|..]);
    } else if |b| < |a| {
      assert a == b + a[|b|..] by { assert a == x[..|a|] && b == y[..|b|]; }
      Utf8LenConcat(b, a[|b|..]);
    }
    assert a == x[..|a|] && b == y[..|b|] && r == x[|a|..] && t == y[|b|..];
  }

  lemma LengthPrefixedUnique(a: string, r: string, b: string, t: string)
    requires LengthPrefixed(a) + r == LengthPrefixed(b) + t
    ensures a == b && r == t
  {
    var m, n := Decimal(Utf8Len(a)), Decimal(Utf8Len(b));
    assert m + [':'] + (a + r) == LengthPrefixed(a) + r;
    assert n + [':'] + (b + t) == LengthPrefixed(b) + t;
    SplitUnique(m, a + r, n, b + t, ':');
    SameLengthHeads(a, r, b, t);
  }

  /** The key is uniquely decodable: no identity's key continues another's. */
  lemma {:induction false} JoinFieldsUnique(f: seq<string>, r: string, g: seq<string>, t: string)
    requires |f| == |g| > 0
    requires JoinFields(f) + r == JoinFields(g) + t
    ensures f == g && r == t
  {
    if |f| == 1 {
      LengthPrefixedUnique(f[0], r, g[0], t);
    } else {
      var x, y := JoinFields(f[1..]), JoinFields(g[1..]);
      assert LengthPrefixed(f[0]) + ("|" + (x + r)) == JoinFields(f) + r;
      assert LengthPrefixed(g[0]) + ("|" + (y + t)) == JoinFields(g) + t;
      LengthPrefixedUnique(f[0], "|" + (x + r), g[0], "|" + (y + t));
      CancelHead("|", x + r, y + t);
      JoinFieldsUnique(f[1..], r, g[1..], t);
      assert f == [f[0]] + f[1..] && g == [g[0]] + g[1..];
    }
  }

  lemma ExactIdentityKeyInjective(a: ResourceRef, b: ResourceRef)
    ensures ExactIdentityKey(a) == ExactIdentityKey(b) <==>
            a.(namespace := Some(OrEmpty(a.namespace))) == b.(namespace := Some(OrEmpty(b.namespace)))
  {
    if ExactIdentityKey(a) == ExactIdentityKey(b) {
      JoinFieldsUnique(Fields(a), "", Fields(b), "");
      FieldsInjective(a, b);
    }
  }

  lemma FieldsInjective(a: ResourceRef, b: ResourceRef)
    requires Fields(a) == Fields(b)
    ensures a.(namespace := Some(OrEmpty(a.namespace))) == b.(namespace := Some(OrEmpty(b.namespace)))
  {
    var f, g := Fields(a), Fields(b);
    assert f[0] == g[0] && f[1] == g[1] && f[2] == g[2] && f[3] == g[3];
    assert f[4] == g[4] && f[5] == g[5] && f[6] == g[6];
  }

  // --- fingerprints -------------------------------------------------------------------------

  function PropagationName(p: Propagation): string {
    match p
    case Background => "Background"
    case Foreground => "Foreground"
    case Orphan => "Orphan"
  }

  function KindName(c: Command): string {
    match c
    case Apply(_, _, _, _, _) => "apply"
    case Scale(_, _) => "scale"
    case Delete(_, _, _) => "delete"
    case Restart(_) => "restart"
    case CreateJob(_) => "create-job"
    case SetSuspended(_, _) => "cronjob-suspend"
  }

  /** What follows the identity key in a fingerprint. */
  function Arguments(c: Command): string {
    match c
    case Apply(_, _, _, hash, _) => "/" + hash
    case Scale(_, replicas) => "/" + Decimal(replicas)
    case Delete(_, propagation, version) => "/" + (PropagationName(propagation) + ['/'] + version)
    case Restart(_) => ""
    case CreateJob(_) => ""
    case SetSuspended(_, suspended) => "/" + (if suspended then "true" else "false")
  }

  function Fingerprint(c: Command): string {
    KindName(c) + ['/'] + (ExactIdentityKey(c.target) + Arguments(c))
  }

  /**
   * What two submissions must share to be the same request: everything but the key they were
   * sent under and, for an apply, the ticket and the declared context.
   */
  predicate SameRequest(a: Command, b: Command) {
    && a.target.(namespace := Some(OrEmpty(a.target.namespace)))
       == b.target.(namespace := Some(OrEmpty(b.target.namespace)))
    && match (a, b)
       case (Apply(_, _, _, h, _), Apply(_, _, _, k, _)) => h == k
       case (Scale(_, m), Scale(_, n)) => m == n
       case (Delete(_, p, v), Delete(_, q, w)) => p == q && v == w
       case (Restart(_), Restart(_)) => true
       case (CreateJob(_), CreateJob(_)) => true
       case (SetSuspended(_, x), SetSuspended(_, y)) => x == y
       case _ => false
  }

  lemma KindNameUnique(a: Command, b: Command)
    requires KindName(a) == KindName(b)
    ensures a.Apply? == b.Apply? && a.Scale? == b.Scale? && a.Delete? == b.Delete?
    ensures a.Restart? == b.Restart? && a.CreateJob? == b.CreateJob? && a.SetSuspended? == b.SetSuspended?
  {
    var x, y := KindName(a), KindName(b);
    assert x[0] == y[0] && x[1] == y[1] && |x| == |y|;
  }

  lemma PropagationNameUnique(p: Propagation, q: Propagation)
    requires PropagationName(p) == PropagationName(q)
    ensures p == q
  {
    var x, y := PropagationName(p), PropagationName(q);
    assert x[0] == y[0];
  }

  lemma ArgumentsUnique(a: Command, b: Command)
    requires KindName(a) == KindName(b) && Arguments(a) == Arguments(b)
    requires Fields(a.target) == Fields(b.target)
    ensures SameRequest(a, b)
  {
    KindNameUnique(a, b);
    FieldsInjective(a.target, b.target);
    match a {
      case Apply(_, _, _, h, _) => CancelHead("/", h, b.bufferHash);
      case Scale(_, n) => CancelHead("/", Decimal(n), Decimal(b.replicas));
      case Delete(_, p, v) =>
        CancelHead("/", PropagationName(p) + ['/'] + v, PropagationName(b.propagation) + ['/'] + b.resourceVersion);
        SplitUnique(PropagationName(p), v, PropagationName(b.propagation), b.resourceVersion, '/');
        PropagationNameUnique(p, b.propagation);
      case Restart(_) =>
      case CreateJob(_) =>
      case SetSuspended(_, x) =>
        var s, t := Arguments(a), Arguments(b);
        assert s[1] == t[1];
    }
  }

  lemma SameRequestSameFingerprint(a: Command, b: Command)
    requires SameRequest(a, b)
    ensures Fingerprint(a) == Fingerprint(b)
  {
    assert Fields(a.target) == Fields(b.target);
  }

  /** Across all six command kinds the fingerprint identifies the request exactly. */
  lemma FingerprintInjective(a: Command, b: Command)
    ensures Fingerprint(a) == Fingerprint(b) <==> SameRequest(a, b)
  {
    if Fingerprint(a) == Fingerprint(b) {
      var x := ExactIdentityKey(a.target) + Arguments(a);
      var y := ExactIdentityKey(b.target) + Arguments(b);
      SplitUnique(KindName(a), x, KindName(b), y, '/');
      JoinFieldsUnique(Fields(a.target), Arguments(a), Fields(b.target), Arguments(b));
      ArgumentsUnique(a, b);
    }
    if SameRequest(a, b) {
      SameRequestSameFingerprint(a, b);
    }
  }
}
