/** What src/site_map.cc promises: which CMS site a data server belongs to, given the mappings
    added so far. */
module SiteMapModel {
  import opened Basics
  import opened Text

  /** First position of c, or the length. */
  function FindFirst(s: string, c: char): (i: nat)
    ensures i <= |s| && c !in s[..i] && (i < |s| ==> s[i] == c)
  {
    if s == [] || s[0] == c then 0
    else
      assert forall k :: 0 <= k < 1 + FindFirst(s[1..], c) ==> s[k] == if k == 0 then s[0] else s[1..][k - 1];
      1 + FindFirst(s[1..], c)
  }

  /** Last position of c, or the length. */
  function FindLast(s: string, c: char): (i: nat)
    ensures i <= |s| && (i == |s| ==> c !in s) && (i < |s| ==> s[i] == c && c !in s[i + 1..])
  {
    if s == [] then 0
    else if s[|s| - 1] == c then |s| - 1
    else
      var i := FindLast(s[..|s| - 1], c);
      if i == |s| - 1 then |s| else i
  }

  /** Strip the port from host:port; leave bracketed and other colon-ridden names alone. */
  function HostnameOnly(s: string): string {
    if s == [] then []
    else if s[0] == '[' then
      var end := FindFirst(s, ']');
      if end < |s| then s[..end + 1] else s
    else
      var colon := FindLast(s, ':');
      if colon == |s| || FindFirst(s, ':') != colon then s else s[..colon]
  }

  lemma HostnameStripsPort(host: string, port: string)
    requires host != [] && host[0] != '[' && ':' !in host && ':' !in port
    ensures HostnameOnly(host + [':'] + port) == host && HostnameOnly(host) == host
  {
    var s := host + [':'] + port;
    assert s[|host|] == ':';
    assert forall k :: 0 <= k < |host| ==> s[k] == host[k];
    assert forall k :: |host| < k < |s| ==> s[k] == port[k - |host| - 1];
    assert s[..|host|] == host;
  }

  lemma HostnameKeepsBrackets(address: string, rest: string)
    requires ']' !in address
    ensures HostnameOnly(['['] + address + [']'] + rest) == ['['] + address + [']']
  {
    var s := ['['] + address + [']'] + rest;
    assert s[|address| + 1] == ']';
    assert forall k :: 0 < k < |address| + 1 ==> s[k] == address[k - 1];
    assert s[..|address| + 2] == ['['] + address + [']'];
  }

  // ---- the mappings ------------------------------------------------------------------------

  datatype Mapping = Mapping(pattern: string, site: string)

  predicate Wildcard(key: string) {
    |key| >= 2 && key[0] == '*' && key[1] == '.'
  }

  /** A mapping without pattern or site is ignored. */
  predicate Effective(m: Mapping) {
    m.pattern != [] && m.site != []
  }

  /** Normalized key to site; the last mapping of a key wins. */
  function Rules(adds: seq<Mapping>): map<string, string> {
    if adds == [] then map[] else
    var m := adds[|adds| - 1];
    var before := Rules(adds[..|adds| - 1]);
    if Effective(m) then before[Normalize(m.pattern) := m.site] else before
  }

  predicate EndsWith(s: string, suffix: string) {
    |s| >= |suffix| && s[|s| - |suffix|..] == suffix
  }

  /** The wildcard key "*.domain" covers the hosts strictly longer than ".domain" that end so. */
  predicate Matches(key: string, host: string) {
    Wildcard(key) && |host| > |key| - 1 && EndsWith(host, key[1..])
  }

  ghost predicate LongestMatch(rules: map<string, string>, host: string, key: string) {
    && key in rules && Matches(key, host)
    && forall k :: k in rules && Matches(k, host) ==> |k| <= |key|
  }

  ghost predicate NoMatch(rules: map<string, string>, host: string) {
    forall k :: k in rules ==> !Matches(k, host)
  }

  /** The site of the longest wildcard that covers the host, or none. */
  ghost predicate BySuffix(rules: map<string, string>, host: string, site: string) {
    (NoMatch(rules, host) && site == []) || exists k :: LongestMatch(rules, host, k) && site == rules[k]
  }

  predicate Exact(rules: map<string, string>, name: string) {
    name in rules && !Wildcard(name)
  }

  /** The site of a data server: that of its full name, else of its host name, else of the
      longest matching wildcard, else none. */
  ghost predicate Answer(rules: map<string, string>, dataServer: string, site: string) {
    var full, host := Normalize(dataServer), Normalize(HostnameOnly(dataServer));
    if dataServer == [] then site == []
    else if Exact(rules, full) then site == rules[full]
    else if Exact(rules, host) then site == rules[host]
    else BySuffix(rules, host, site)
  }

  /** Two wildcards of one length that cover one host are the same, so no tie is ever broken. */
  lemma LongestMatchUnique(rules: map<string, string>, host: string, a: string, b: string)
    requires LongestMatch(rules, host, a) && LongestMatch(rules, host, b)
    ensures a == b
  {
    assert |a| == |b| && a[1..] == b[1..];
    assert a == [a[0]] + a[1..] && b == [b[0]] + b[1..];
  }

  /** The rules determine the answer. */
  lemma AnswerUnique(rules: map<string, string>, dataServer: string, a: string, b: string)
    requires Answer(rules, dataServer, a) && Answer(rules, dataServer, b)
    ensures a == b
  {
    var host := Normalize(HostnameOnly(dataServer));
    forall j, k | LongestMatch(rules, host, j) && LongestMatch(rules, host, k) ensures j == k {
      LongestMatchUnique(rules, host, j, k);
    }
  }

  ghost predicate DistinctKeys(adds: seq<Mapping>) {
    forall i, j :: 0 <= i < j < |adds| && Effective(adds[i]) && Effective(adds[j]) ==>
      Normalize(adds[i].pattern) != Normalize(adds[j].pattern)
  }

  ghost predicate Maps(m: Mapping, k: string) {
    Effective(m) && Normalize(m.pattern) == k
  }

  lemma {:induction false} KeysFromAdds(adds: seq<Mapping>, k: string)
    ensures k in Rules(adds) <==> exists i :: 0 <= i < |adds| && Maps(adds[i], k)
  {
    if adds != [] {
      var n := |adds| - 1;
      KeysFromAdds(adds[..n], k);
      if i :| 0 <= i < n && Maps(adds[..n][i], k) {
        assert Maps(adds[i], k);
      }
      forall i | 0 <= i < n && Maps(adds[i], k) ensures k in Rules(adds[..n]) {
        assert Maps(adds[..n][i], k);
      }
    }
  }

  lemma {:induction false} RuleFromAdd(adds: seq<Mapping>, k: string, i: nat)
    requires DistinctKeys(adds) && i < |adds| && Maps(adds[i], k)
    ensures k in Rules(adds) && Rules(adds)[k] == adds[i].site
  {
    var n := |adds| - 1;
    if i < n {
      RuleFromAdd(adds[..n], k, i);
    }
  }

  /** Mappings with distinct keys may be added in any order. */
  lemma OrderIrrelevant(adds: seq<Mapping>, adds': seq<Mapping>)
    requires multiset(adds) == multiset(adds') && DistinctKeys(adds) && DistinctKeys(adds')
    ensures Rules(adds) == Rules(adds')
  {
    forall k: string
      ensures k in Rules(adds) <==> k in Rules(adds')
      ensures k in Rules(adds) ==> Rules(adds)[k] == Rules(adds')[k]
    {
      KeysFromAdds(adds, k);
      KeysFromAdds(adds', k);
      forall i | 0 <= i < |adds| && Maps(adds[i], k) ensures k in Rules(adds') && Rules(adds')[k] == adds[i].site {
        assert adds[i] in multiset(adds');
        var j :| 0 <= j < |adds'| && adds'[j] == adds[i];
        RuleFromAdd(adds', k, j);
      }
      forall i | 0 <= i < |adds| && Maps(adds[i], k) ensures k in Rules(adds) && Rules(adds)[k] == adds[i].site {
        RuleFromAdd(adds, k, i);
      }
      forall j | 0 <= j < |adds'| && Maps(adds'[j], k) ensures k in Rules(adds) {
        assert adds'[j] in multiset(adds);
        var i :| 0 <= i < |adds| && adds[i] == adds'[j];
        RuleFromAdd(adds, k, i);
      }
    }
  }

  // ---- case --------------------------------------------------------------------------------

  predicate Letter(c: char) {
    'A' <= c <= 'Z' || 'a' <= c <= 'z'
  }

  lemma {:induction false} FindFirstNormalized(s: string, c: char)
    requires !Letter(c)
    ensures FindFirst(Normalize(s), c) == FindFirst(s, c)
  {
    if s != [] {
      assert Normalize(s)[1..] == Normalize(s[1..]);
      FindFirstNormalized(s[1..], c);
    }
  }

  lemma {:induction false} FindLastNormalized(s: string, c: char)
    requires !Letter(c)
    ensures FindLast(Normalize(s), c) == FindLast(s, c)
  {
    if s != [] {
      assert Normalize(s)[..|s| - 1] == Normalize(s[..|s| - 1]);
      FindLastNormalized(s[..|s| - 1], c);
    }
  }

  lemma NormalizedPrefix(s: string, k: nat)
    requires k <= |s|
    ensures Normalize(s[..k]) == Normalize(s)[..k]
  {
  }

  lemma NormalizedHostname(s: string)
    ensures Normalize(HostnameOnly(s)) == HostnameOnly(Normalize(s))
  {
    if s == [] {
    } else if s[0] == '[' {
      FindFirstNormalized(s, ']');
      NormalizedPrefix(s, Min(FindFirst(s, ']') + 1, |s|));
    } else {
      FindFirstNormalized(s, ':');
      FindLastNormalized(s, ':');
      NormalizedPrefix(s, FindLast(s, ':'));
    }
  }

  /** One character in the other case: 'A' to 'Z' against 'a' to 'z'. */
  predicate OtherCase(a: char, b: char) {
    || ('A' <= a <= 'Z' && b as int == a as int + 32)
    || ('A' <= b <= 'Z' && a as int == b as int + 32)
  }

  ghost predicate DifferInCaseOnly(a: string, b: string) {
    |a| == |b| && forall i :: 0 <= i < |a| ==> a[i] == b[i] || OtherCase(a[i], b[i])
  }

  /** Normalizing forgets the case of letters, and nothing else. */
  lemma NormalizeForgetsCase(a: string, b: string)
    ensures Normalize(a) == Normalize(b) <==> DifferInCaseOnly(a, b)
  {
    if DifferInCaseOnly(a, b) {
      assert forall i :: 0 <= i < |a| ==> Normalize(a)[i] == Normalize(b)[i];
    }
    if Normalize(a) == Normalize(b) {
      forall i | 0 <= i < |a| ensures a[i] == b[i] || OtherCase(a[i], b[i]) {
        assert Normalize(a)[i] == Normalize(b)[i];
      }
    }
  }

  /** Letter case never matters: servers whose names differ in case only have the same site. */
  lemma CaseInsensitive(rules: map<string, string>, a: string, b: string, site: string)
    requires DifferInCaseOnly(a, b)
    ensures Answer(rules, a, site) <==> Answer(rules, b, site)
  {
    NormalizeForgetsCase(a, b);
    NormalizedHostname(a);
    NormalizedHostname(b);
  }

  // ---- rules and matches in plain words ----------------------------------------------------

  /** Mapping i is the last one that has a pattern and a site and whose pattern reads k in lower case. */
  ghost predicate LastFor(adds: seq<Mapping>, k: string, i: nat) {
    && i < |adds| && Maps(adds[i], k)
    && forall j :: i < j < |adds| ==> !Maps(adds[j], k)
  }

  lemma LastForEarlier(adds: seq<Mapping>, k: string, i: nat)
    requires adds != [] && i < |adds| - 1 && LastFor(adds, k, i)
    ensures LastFor(adds[..|adds| - 1], k, i) && !Maps(adds[|adds| - 1], k)
  {
    var before := adds[..|adds| - 1];
    assert forall j :: 0 <= j < |before| ==> before[j] == adds[j];
  }

  lemma {:induction false} LastMappingCounts(adds: seq<Mapping>, k: string, i: nat)
    requires LastFor(adds, k, i)
    ensures k in Rules(adds) && Rules(adds)[k] == adds[i].site
  {
    var n := |adds| - 1;
    if i < n {
      LastForEarlier(adds, k, i);
      LastMappingCounts(adds[..n], k, i);
    }
  }

  /** A key has the site of the last mapping for it, and only keys with a mapping have one. */
  lemma {:induction false} LastMappingWins(adds: seq<Mapping>, k: string)
    ensures k in Rules(adds) <==> exists i :: 0 <= i < |adds| && Maps(adds[i], k)
    ensures forall i :: 0 <= i < |adds| && LastFor(adds, k, i) ==> k in Rules(adds) && Rules(adds)[k] == adds[i].site
  {
    hide LastFor, Maps, Rules;
    KeysFromAdds(adds, k);
    forall i | 0 <= i < |adds| && LastFor(adds, k, i) ensures k in Rules(adds) && Rules(adds)[k] == adds[i].site {
      LastMappingCounts(adds, k, i);
    }
  }

  /** The wildcard "*.domain" covers exactly the names that put something in front of ".domain". */
  lemma WildcardCovers(domain: string, host: string)
    ensures Matches(['*', '.'] + domain, host) <==>
            exists front: string :: front != [] && host == front + ['.'] + domain
  {
    var key := ['*', '.'] + domain;
    assert key[1..] == ['.'] + domain;
    if Matches(key, host) {
      var front := host[..|host| - |domain| - 1];
      assert host == front + key[1..];
      assert host == front + ['.'] + domain;
    }
    if front: string :| front != [] && host == front + ['.'] + domain {
      assert host[|front|..] == key[1..];
    }
  }

  lemma FindBounds(s: string, c: char, i: nat, j: nat)
    requires i <= j < |s| && s[i] == s[j] == c
    ensures FindFirst(s, c) <= i && j <= FindLast(s, c) < |s|
  {
    var first, last := FindFirst(s, c), FindLast(s, c);
    assert forall k :: 0 <= k < first ==> s[..first][k] == s[k];
    assert last < |s| ==> forall k :: last < k < |s| ==> s[last + 1..][k - last - 1] == s[k];
  }

  /** Names with two colons and no bracket, and names with an open bracket, are left alone. */
  lemma HostnameLeavesOthers(s: string)
    ensures s != [] && s[0] == '[' && ']' !in s ==> HostnameOnly(s) == s
    ensures s != [] && s[0] != '[' && ':' !in s ==> HostnameOnly(s) == s
    ensures forall i, j :: 0 <= i < j < |s| && s[0] != '[' && s[i] == s[j] == ':' ==> HostnameOnly(s) == s
    ensures HostnameOnly([]) == []
  {
    forall i, j | 0 <= i < j < |s| && s[0] != '[' && s[i] == s[j] == ':' ensures HostnameOnly(s) == s {
      FindBounds(s, ':', i, j);
    }
  }
}
