/** What the host lets a fetch reach: which domains and which addresses. */
module FetchPolicy {
  import opened Wrappers
  import Text

  // ---------------------------------------------------------------------
  // Domains
  // ---------------------------------------------------------------------

  function TrimDots(s: string): string {
    if s != "" && s[|s| - 1] == '.' then TrimDots(s[..|s| - 1]) else s
  }

  /** `normalize_domain`. */
  function Normalize(value: string): string {
    Text.Lower(TrimDots(Text.Trim(value)))
  }

  predicate EndsWith(s: string, suffix: string) {
    |suffix| <= |s| && s[|s| - |suffix|..] == suffix
  }

  predicate Covers(allowed: string, host: string) {
    host == allowed || EndsWith(host, "." + allowed)
  }

  /** `domain_allowed`. */
  predicate DomainAllowed(host: string, allowedDomains: seq<string>) {
    exists i :: 0 <= i < |allowedDomains| && Normalize(allowedDomains[i]) != ""
             && Covers(Normalize(allowedDomains[i]), Normalize(host))
  }

  /** The labels of a name: the pieces between its dots. */
  function Labels(s: string): (r: seq<string>)
    ensures r != []
  {
    if s == "" then [""]
    else
      var rest := Labels(s[1..]);
      if s[0] == '.' then [""] + rest else [[s[0]] + rest[0]] + rest[1..]
  }

  function Join(labels: seq<string>): string
    requires labels != []
  {
    if |labels| == 1 then labels[0] else labels[0] + "." + Join(labels[1..])
  }

  lemma Prepend(c: char, a: string, b: string)
    ensures [c] + (a + "." + b) == ([c] + a) + "." + b
  {
  }

  lemma {:induction false} JoinLabels(s: string)
    ensures Join(Labels(s)) == s
  {
    if s != "" {
      var rest := Labels(s[1..]);
      JoinLabels(s[1..]);
      assert s == [s[0]] + s[1..];
      if s[0] == '.' {
        assert Labels(s)[1..] == rest;
        assert "" + "." + s[1..] == s;
      } else if |rest| > 1 {
        assert Labels(s)[1..] == rest[1..];
        Prepend(s[0], rest[0], Join(rest[1..]));
      }
    }
  }

  lemma {:induction false} JoinAppend(a: seq<string>, b: seq<string>)
    requires a != [] && b != []
    ensures Join(a + b) == Join(a) + "." + Join(b)
  {
    if |a| == 1 {
      assert (a + b)[1..] == b;
    } else {
      assert (a + b)[1..] == a[1..] + b;
      JoinAppend(a[1..], b);
      assert a[0] + "." + (Join(a[1..]) + "." + Join(b)) == (a[0] + "." + Join(a[1..])) + "." + Join(b);
    }
  }

  lemma {:induction false} LabelsOfDotted(a: string, b: string)
    ensures Labels(a + "." + b) == Labels(a) + Labels(b)
  {
    var whole := a + "." + b;
    if a == "" {
      assert whole[1..] == b;
    } else {
      assert whole[1..] == a[1..] + "." + b;
      LabelsOfDotted(a[1..], b);
    }
  }

  predicate LabelSuffix(suffix: seq<string>, labels: seq<string>) {
    |suffix| <= |labels| && labels[|labels| - |suffix|..] == suffix
  }

  lemma CoveredBySuffix(allowed: string, host: string)
    requires EndsWith(host, "." + allowed)
    ensures LabelSuffix(Labels(allowed), Labels(host))
  {
    var head := host[..|host| - |allowed| - 1];
    assert host == head + "." + allowed;
    LabelsOfDotted(head, allowed);
  }

  lemma JoinedSuffix(front: string, allowed: string, host: string)
    requires host == front + "." + allowed
    ensures EndsWith(host, "." + allowed)
  {
    assert host == front + ("." + allowed);
  }

  lemma SuffixCovers(allowed: string, host: string)
    requires LabelSuffix(Labels(allowed), Labels(host))
    ensures Covers(allowed, host)
  {
    var a, h := Labels(allowed), Labels(host);
    JoinLabels(allowed);
    JoinLabels(host);
    var head := h[..|h| - |a|];
    assert h == head + a;
    if head != [] {
      JoinAppend(head, a);
      JoinedSuffix(Join(head), allowed, host);
    }
  }

  /** The string test is the label test: `allowed` covers `host` exactly when
      its labels are the last labels of `host`. */
  lemma CoversIsLabelSuffix(allowed: string, host: string)
    ensures Covers(allowed, host) <==> LabelSuffix(Labels(allowed), Labels(host))
  {
    if EndsWith(host, "." + allowed) {
      CoveredBySuffix(allowed, host);
    }
    if LabelSuffix(Labels(allowed), Labels(host)) {
      SuffixCovers(allowed, host);
    }
  }

  lemma DomainAllowedExactly(host: string, allowedDomains: seq<string>)
    ensures DomainAllowed(host, allowedDomains) <==>
              exists i :: 0 <= i < |allowedDomains| && Normalize(allowedDomains[i]) != ""
                       && LabelSuffix(Labels(Normalize(allowedDomains[i])), Labels(Normalize(host)))
  {
    forall i | 0 <= i < |allowedDomains|
      ensures Covers(Normalize(allowedDomains[i]), Normalize(host)) <==>
                LabelSuffix(Labels(Normalize(allowedDomains[i])), Labels(Normalize(host)))
    {
      CoversIsLabelSuffix(Normalize(allowedDomains[i]), Normalize(host));
    }
  }

  // ---------------------------------------------------------------------
  // Letter case
  // ---------------------------------------------------------------------

  /** Equal but for the case of ASCII letters. */
  predicate SameLetters(s: string, t: string) {
    Text.Lower(s) == Text.Lower(t)
  }

  lemma SameAt(s: string, t: string, i: nat)
    requires SameLetters(s, t) && i < |s|
    ensures |s| == |t| && (s[i] == t[i] || (!Text.IsSpace(s[i]) && !Text.IsSpace(t[i]) && s[i] != '.' && t[i] != '.'))
  {
    assert Text.Lower(s)[i] == Text.Lower(t)[i];
  }

  lemma SameSlice(s: string, t: string, i: nat, j: nat)
    requires SameLetters(s, t) && i <= j <= |s|
    ensures |s| == |t| && SameLetters(s[i..j], t[i..j])
  {
    assert |Text.Lower(s)| == |s| && |Text.Lower(t)| == |t|;
    assert Text.Lower(s[i..j]) == Text.Lower(s)[i..j];
    assert Text.Lower(t[i..j]) == Text.Lower(t)[i..j];
  }

  lemma {:induction false} SameTrimStart(s: string, t: string)
    requires SameLetters(s, t)
    ensures SameLetters(Text.TrimStart(s), Text.TrimStart(t))
    decreases |s|
  {
    SameSlice(s, t, 0, |s|);
    if s != "" {
      SameAt(s, t, 0);
      SameSlice(s, t, 1, |s|);
      assert s[1..|s|] == s[1..] && t[1..|s|] == t[1..];
      SameTrimStart(s[1..], t[1..]);
    }
  }

  lemma {:induction false} SameTrimEnd(s: string, t: string)
    requires SameLetters(s, t)
    ensures SameLetters(Text.TrimEnd(s), Text.TrimEnd(t))
    decreases |s|
  {
    SameSlice(s, t, 0, |s|);
    if s != "" {
      SameAt(s, t, |s| - 1);
      SameSlice(s, t, 0, |s| - 1);
      SameTrimEnd(s[..|s| - 1], t[..|t| - 1]);
    }
  }

  lemma {:induction false} SameTrimDots(s: string, t: string)
    requires SameLetters(s, t)
    ensures SameLetters(TrimDots(s), TrimDots(t))
    decreases |s|
  {
    SameSlice(s, t, 0, |s|);
    if s != "" {
      SameAt(s, t, |s| - 1);
      SameSlice(s, t, 0, |s| - 1);
      SameTrimDots(s[..|s| - 1], t[..|t| - 1]);
    }
  }

  /** Letter case never matters, in the host or in the allowed domains. */
  lemma CaseNeverMatters(host: string, other: string, allowedDomains: seq<string>, others: seq<string>)
    requires SameLetters(host, other) && |allowedDomains| == |others|
    requires forall i :: 0 <= i < |others| ==> SameLetters(allowedDomains[i], others[i])
    ensures DomainAllowed(host, allowedDomains) <==> DomainAllowed(other, others)
  {
    SameNormal(host, other);
    forall i | 0 <= i < |others|
      ensures Normalize(allowedDomains[i]) == Normalize(others[i])
    {
      SameNormal(allowedDomains[i], others[i]);
    }
  }

  lemma SameNormal(s: string, t: string)
    requires SameLetters(s, t)
    ensures Normalize(s) == Normalize(t)
  {
    SameTrimStart(s, t);
    SameTrimEnd(Text.TrimStart(s), Text.TrimStart(t));
    SameTrimDots(Text.Trim(s), Text.Trim(t));
  }

  // ---------------------------------------------------------------------
  // Addresses
  // ---------------------------------------------------------------------

  type Octet = n: int | 0 <= n < 256

  type Group = n: int | 0 <= n < 0x1_0000

  datatype Ipv4 = Ipv4(a: Octet, b: Octet, c: Octet, d: Octet)

  datatype Ip =
    | V4(v4: Ipv4)
    | V6(g0: Group, g1: Group, g2: Group, g3: Group, g4: Group, g5: Group, g6: Group, g7: Group)

  predicate Loopback4(ip: Ipv4) {
    ip.a == 127
  }

  predicate Forbidden4(ip: Ipv4) {
    || ip.a == 10 || (ip.a == 172 && 16 <= ip.b <= 31) || (ip.a == 192 && ip.b == 168)
    || Loopback4(ip)
    || (ip.a == 169 && ip.b == 254)
    || ip == Ipv4(0, 0, 0, 0)
    || ip == Ipv4(255, 255, 255, 255)
    || 224 <= ip.a <= 239
    || (ip.a == 100 && 64 <= ip.b <= 127)
  }

  function Mapped4(ip: Ip): Option<Ipv4>
    requires ip.V6?
  {
    if ip.g0 == 0 && ip.g1 == 0 && ip.g2 == 0 && ip.g3 == 0 && ip.g4 == 0 && ip.g5 == 0xFFFF
    then Some(Ipv4(ip.g6 / 256, ip.g6 % 256, ip.g7 / 256, ip.g7 % 256))
    else None
  }

  predicate Loopback(ip: Ip) {
    if ip.V4? then Loopback4(ip.v4)
    else ip == V6(0, 0, 0, 0, 0, 0, 0, 1) || (Mapped4(ip).Some? && Loopback4(Mapped4(ip).value))
  }

  /** `forbidden_ip`. */
  predicate Forbidden(ip: Ip) {
    if ip.V4? then Forbidden4(ip.v4)
    else if Mapped4(ip).Some? then Forbidden4(Mapped4(ip).value)
    else
      || ip == V6(0, 0, 0, 0, 0, 0, 0, 1)
      || ip == V6(0, 0, 0, 0, 0, 0, 0, 0)
      || ip.g0 / 0x100 == 0xFF
      || ip.g0 / 0x200 == 0xFC00 / 0x200
      || ip.g0 / 0x40 == 0xFE80 / 0x40
  }

  predicate ForbiddenFor(ip: Ip, devLoopback: bool) {
    Forbidden(ip) && !(devLoopback && Loopback(ip))
  }

  predicate AddressesAllowed(addrs: seq<Ip>, devLoopback: bool) {
    addrs != [] && forall i :: 0 <= i < |addrs| ==> !ForbiddenFor(addrs[i], devLoopback)
  }

  /** An IPv4 address as a number, and a block as its first and last number. */
  function Address(ip: Ipv4): (n: int)
    ensures 0 <= n < 0x1_0000_0000
  {
    ((ip.a * 256 + ip.b) * 256 + ip.c) * 256 + ip.d
  }

  /** The blocks by RFC 1918 (private), RFC 1122 (loopback), RFC 3927
      (link-local), RFC 5771 (multicast) and RFC 6598 (shared), and the two
      single addresses. */
  const BLOCKS: seq<(int, int)> := [
    (0x0000_0000, 0x0000_0000),
    (0x0A00_0000, 0x0AFF_FFFF),
    (0x6440_0000, 0x647F_FFFF),
    (0x7F00_0000, 0x7FFF_FFFF),
    (0xA9FE_0000, 0xA9FE_FFFF),
    (0xAC10_0000, 0xAC1F_FFFF),
    (0xC0A8_0000, 0xC0A8_FFFF),
    (0xE000_0000, 0xEFFF_FFFF),
    (0xFFFF_FFFF, 0xFFFF_FFFF)]

  predicate InBlock(n: int, i: int) {
    0 <= i < |BLOCKS| && BLOCKS[i].0 <= n <= BLOCKS[i].1
  }

  /** The octet tests forbid exactly the addresses of these blocks. */
  lemma Forbidden4Exactly(ip: Ipv4)
    ensures Forbidden4(ip) <==> exists i :: InBlock(Address(ip), i)
  {
    var n := Address(ip);
    assert InBlock(n, 0) <==> ip == Ipv4(0, 0, 0, 0);
    assert InBlock(n, 1) <==> ip.a == 10;
    assert InBlock(n, 2) <==> ip.a == 100 && 64 <= ip.b <= 127;
    assert InBlock(n, 3) <==> ip.a == 127;
    assert InBlock(n, 4) <==> ip.a == 169 && ip.b == 254;
    assert InBlock(n, 5) <==> ip.a == 172 && 16 <= ip.b <= 31;
    assert InBlock(n, 6) <==> ip.a == 192 && ip.b == 168;
    assert InBlock(n, 7) <==> 224 <= ip.a <= 239;
    assert InBlock(n, 8) <==> ip == Ipv4(255, 255, 255, 255);
  }

  /** Writing an IPv4 address in its IPv6-mapped form never changes the
      verdict. */
  lemma MappingChangesNothing(ip: Ipv4, devLoopback: bool)
    ensures var mapped := V6(0, 0, 0, 0, 0, 0xFFFF, ip.a * 256 + ip.b, ip.c * 256 + ip.d);
            ForbiddenFor(mapped, devLoopback) <==> ForbiddenFor(V4(ip), devLoopback)
  {
    var mapped := V6(0, 0, 0, 0, 0, 0xFFFF, ip.a * 256 + ip.b, ip.c * 256 + ip.d);
    assert Mapped4(mapped) == Some(ip);
  }

  // ---------------------------------------------------------------------
  // URLs
  // ---------------------------------------------------------------------

  /** A parsed URL; parsing and joining belong to the URL library. */
  datatype Url = Url(
    text: string,
    scheme: string,
    username: string,
    password: Option<string>,
    host: Option<string>,
    port: Option<nat>)

  datatype Policy = Policy(
    allowedDomains: seq<string>,
    connectTimeout: nat,
    totalTimeout: nat,
    maxResponseBytes: nat,
    maxRedirects: nat)

  /** `validate_url`. */
  predicate UrlAllowed(url: Url, policy: Policy) {
    && (url.scheme == "http" || url.scheme == "https")
    && url.username == "" && url.password.None?
    && url.host.Some? && DomainAllowed(url.host.value, policy.allowedDomains)
  }
}
