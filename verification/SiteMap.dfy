/** The site map object of src/site_map.cc: exact names in a table, suffixes in a list kept sorted
    by length, longest first. */
module SiteMapObject {
  import opened SiteMapModel
  import opened Text

  /** A suffix with its leading dot, and the site of the hosts that end in it. */
  datatype Rule = Rule(suffix: string, site: string)

  method NormalizeKey(s: string) returns (r: string)
    ensures r == Normalize(s)
  {
    r := [];
    var i := 0;
    while i < |s|
      invariant 0 <= i <= |s| && r == Normalize(s[..i])
    {
      assert s[..i + 1][..i] == s[..i];
      var c := s[i];
      if 'A' <= c <= 'Z' {
        c := c - 'A' + 'a';
      }
      r := r + [c];
      i := i + 1;
    }
    assert s[..i] == s;
  }

  ghost predicate ByLength(rules: seq<Rule>) {
    forall i, j :: 0 <= i < j < |rules| ==> |rules[i].suffix| >= |rules[j].suffix|
  }

  ghost predicate DistinctSuffixes(rules: seq<Rule>) {
    forall i, j :: 0 <= i < j < |rules| ==> rules[i].suffix != rules[j].suffix
  }

  /** Same rules, longest suffix first; nothing is promised about suffixes of one length. */
  ghost predicate Rearranged(rules: seq<Rule>, sorted: seq<Rule>) {
    && |sorted| == |rules| && ByLength(sorted) && DistinctSuffixes(sorted)
    && forall r :: r in rules <==> r in sorted
  }

  method SortByLength(rules: seq<Rule>) returns (sorted: seq<Rule>)
    requires DistinctSuffixes(rules)
    ensures Rearranged(rules, sorted)
  {
    sorted := [];
    var i := 0;
    while i < |rules|
      invariant 0 <= i <= |rules| && Rearranged(rules[..i], sorted)
    {
      assert rules[..i + 1] == rules[..i] + [rules[i]];
      assert forall k :: 0 <= k < |sorted| ==> sorted[k] in rules[..i];
      sorted := InsertByLength(sorted, rules[i]);
      i := i + 1;
    }
    assert rules[..i] == rules;
  }

  method InsertByLength(rules: seq<Rule>, rule: Rule) returns (r: seq<Rule>)
    requires ByLength(rules) && DistinctSuffixes(rules)
    requires forall k :: 0 <= k < |rules| ==> rules[k].suffix != rule.suffix
    ensures Rearranged(rules + [rule], r)
  {
    var k := 0;
    while k < |rules| && |rules[k].suffix| > |rule.suffix|
      invariant 0 <= k <= |rules|
      invariant forall i :: 0 <= i < k ==> |rules[i].suffix| > |rule.suffix|
    {
      k := k + 1;
    }
    r := rules[..k] + [rule] + rules[k..];
    InsertedInOrder(rules, rule, k, r);
    InsertedMembers(rules, rule, k, r);
  }

  lemma InsertedInOrder(rules: seq<Rule>, rule: Rule, k: nat, r: seq<Rule>)
    requires ByLength(rules) && DistinctSuffixes(rules) && k <= |rules|
    requires forall i :: 0 <= i < |rules| ==> rules[i].suffix != rule.suffix
    requires forall i :: 0 <= i < k ==> |rules[i].suffix| > |rule.suffix|
    requires k < |rules| ==> |rules[k].suffix| <= |rule.suffix|
    requires r == rules[..k] + [rule] + rules[k..]
    ensures ByLength(r) && DistinctSuffixes(r)
  {
    assert forall i :: 0 <= i < |r| ==> r[i] == if i < k then rules[i] else if i == k then rule else rules[i - 1];
  }

  lemma InsertedMembers(rules: seq<Rule>, rule: Rule, k: nat, r: seq<Rule>)
    requires k <= |rules| && r == rules[..k] + [rule] + rules[k..]
    ensures forall x :: x in rules + [rule] <==> x in r
  {
    forall x ensures x in rules + [rule] <==> x in r {
      assert x in rules <==> x in rules[..k] || x in rules[k..] by {
        assert rules == rules[..k] + rules[k..];
      }
    }
  }

  /** The wildcard key a suffix stands for. */
  ghost function Key(suffix: string): string {
    ['*'] + suffix
  }

  /** The list holds the wildcard keys of the rules. */
  ghost predicate Listed(rules: map<string, string>, list: seq<Rule>) {
    && (forall i :: 0 <= i < |list| ==>
          Key(list[i].suffix) in rules && Wildcard(Key(list[i].suffix)) && rules[Key(list[i].suffix)] == list[i].site)
    && (forall k :: k in rules && Wildcard(k) ==> exists i :: 0 <= i < |list| && Key(list[i].suffix) == k)
  }

  /** The list as Lookup relies on it. */
  ghost predicate Kept(rules: map<string, string>, list: seq<Rule>) {
    Listed(rules, list) && ByLength(list) && DistinctSuffixes(list)
  }

  /** The table holds the other keys of the rules. */
  ghost predicate Tabled(rules: map<string, string>, table: map<string, string>) {
    && (forall k :: k in table <==> Exact(rules, k))
    && (forall k :: k in table ==> table[k] == rules[k])
  }

  lemma KeyInjective(a: string, b: string)
    requires Key(a) == Key(b)
    ensures a == b
  {
    assert Key(a)[1..] == a && Key(b)[1..] == b;
  }

  lemma ReplacedListed(rules: map<string, string>, list: seq<Rule>, i: nat, site: string)
    requires Listed(rules, list) && DistinctSuffixes(list) && i < |list|
    ensures Listed(rules[Key(list[i].suffix) := site], list[i := Rule(list[i].suffix, site)])
  {
    var list' := list[i := Rule(list[i].suffix, site)];
    var rules' := rules[Key(list[i].suffix) := site];
    forall j | 0 <= j < |list'|
      ensures Key(list'[j].suffix) in rules' && Wildcard(Key(list'[j].suffix))
              && rules'[Key(list'[j].suffix)] == list'[j].site
    {
      assert list'[j].suffix == list[j].suffix;
      if Key(list[j].suffix) == Key(list[i].suffix) {
        KeyInjective(list[j].suffix, list[i].suffix);
      }
    }
    forall k | k in rules' && Wildcard(k) ensures exists j :: 0 <= j < |list'| && Key(list'[j].suffix) == k {
      var j :| 0 <= j < |list| && Key(list[j].suffix) == k;
      assert Key(list'[j].suffix) == k;
    }
  }

  lemma AppendedListed(rules: map<string, string>, list: seq<Rule>, rule: Rule)
    requires Listed(rules, list) && Wildcard(Key(rule.suffix))
    requires forall i :: 0 <= i < |list| ==> list[i].suffix != rule.suffix
    ensures Listed(rules[Key(rule.suffix) := rule.site], list + [rule])
  {
    var list', rules' := list + [rule], rules[Key(rule.suffix) := rule.site];
    forall j | 0 <= j < |list|
      ensures Key(list'[j].suffix) in rules' && rules'[Key(list'[j].suffix)] == list'[j].site
    {
      if Key(list[j].suffix) == Key(rule.suffix) {
        KeyInjective(list[j].suffix, rule.suffix);
      }
    }
    forall k | k in rules' && Wildcard(k) ensures exists j :: 0 <= j < |list'| && Key(list'[j].suffix) == k {
      if k in rules {
        var j :| 0 <= j < |list| && Key(list[j].suffix) == k;
        assert Key(list'[j].suffix) == k;
      } else {
        assert Key(list'[|list|].suffix) == k;
      }
    }
  }

  lemma RearrangedListed(rules: map<string, string>, list: seq<Rule>, sorted: seq<Rule>)
    requires Listed(rules, list) && Rearranged(list, sorted)
    ensures Listed(rules, sorted)
  {
    forall j | 0 <= j < |sorted|
      ensures Key(sorted[j].suffix) in rules && Wildcard(Key(sorted[j].suffix))
              && rules[Key(sorted[j].suffix)] == sorted[j].site
    {
      assert sorted[j] in list;
    }
    forall k | k in rules && Wildcard(k) ensures exists j :: 0 <= j < |sorted| && Key(sorted[j].suffix) == k {
      var i :| 0 <= i < |list| && Key(list[i].suffix) == k;
      assert list[i] in sorted;
    }
  }

  lemma ReplacedKept(rules: map<string, string>, list: seq<Rule>, i: nat, site: string)
    requires Kept(rules, list) && i < |list|
    ensures Kept(rules[Key(list[i].suffix) := site], list[i := Rule(list[i].suffix, site)])
  {
    ReplacedListed(rules, list, i, site);
    var list' := list[i := Rule(list[i].suffix, site)];
    assert forall j :: 0 <= j < |list| ==> list'[j].suffix == list[j].suffix;
  }

  /** A key that is no wildcard leaves the list alone, a wildcard the table. */
  lemma OtherKey(rules: map<string, string>, list: seq<Rule>, table: map<string, string>, key: string, site: string)
    requires Kept(rules, list) && Tabled(rules, table)
    ensures !Wildcard(key) ==> Kept(rules[key := site], list) && Tabled(rules[key := site], table[key := site])
    ensures Wildcard(key) ==> Tabled(rules[key := site], table)
  {
    var rules' := rules[key := site];
    assert forall k :: k != key ==> (Exact(rules', k) <==> Exact(rules, k));
    if !Wildcard(key) {
      assert forall k :: Wildcard(k) ==> k != key;
    }
  }

  /** In a list sorted by length the first match is the longest. */
  lemma FirstIsLongest(rules: map<string, string>, list: seq<Rule>, i: nat, host: string)
    requires Kept(rules, list) && i < |list| && Matches(Key(list[i].suffix), host)
    requires forall j :: 0 <= j < i ==> !Matches(Key(list[j].suffix), host)
    ensures BySuffix(rules, host, list[i].site)
  {
    forall k | k in rules && Matches(k, host) ensures |k| <= |Key(list[i].suffix)| {
      var j :| 0 <= j < |list| && Key(list[j].suffix) == k;
    }
    assert LongestMatch(rules, host, Key(list[i].suffix)) && rules[Key(list[i].suffix)] == list[i].site;
  }

  lemma NoneIsNone(rules: map<string, string>, list: seq<Rule>, host: string)
    requires Kept(rules, list) && forall j :: 0 <= j < |list| ==> !Matches(Key(list[j].suffix), host)
    ensures BySuffix(rules, host, [])
  {
    forall k | k in rules && Wildcard(k) ensures !Matches(k, host) {
      var j :| 0 <= j < |list| && Key(list[j].suffix) == k;
    }
  }

  /** No rule is for the empty name. */
  lemma {:induction false} NoEmptyKey(adds: seq<Mapping>)
    ensures [] !in Rules(adds) && NoMatch(Rules(adds), [])
  {
    if adds != [] {
      NoEmptyKey(adds[..|adds| - 1]);
    }
  }

  /** What Add does to the rules. */
  lemma RulesOneMore(adds: seq<Mapping>, m: Mapping)
    ensures Rules(adds + [m]) ==
            if m.pattern == [] || m.site == [] then Rules(adds) else Rules(adds)[Normalize(m.pattern) := m.site]
  {
    assert (adds + [m])[..|adds|] == adds;
  }

  class SiteMap {
    var exact: map<string, string>
    var suffixes: seq<Rule>
    ghost var adds: seq<Mapping>  // every mapping offered so far

    ghost predicate Valid()
      reads this
    {
      Tabled(Rules(adds), exact) && Kept(Rules(adds), suffixes)
    }

    constructor ()
      ensures Valid() && adds == []
    {
      exact, suffixes, adds := map[], [], [];
    }

    method Add(pattern: string, site: string)
      requires Valid()
      modifies this
      ensures Valid() && adds == old(adds) + [Mapping(pattern, site)]
    {
      ghost var before := Rules(adds);
      RulesOneMore(adds, Mapping(pattern, site));
      adds := adds + [Mapping(pattern, site)];
      if pattern == [] || site == [] {
        return;
      }
      var key := NormalizeKey(pattern);
      AddKey(key, site, before);
    }

    /** A wildcard key goes into the list, any other into the table. */
    method AddKey(key: string, site: string, ghost before: map<string, string>)
      requires Tabled(before, exact) && Kept(before, suffixes)
      modifies this`exact, this`suffixes
      ensures Tabled(before[key := site], exact) && Kept(before[key := site], suffixes)
    {
      OtherKey(before, suffixes, exact, key, site);
      if |key| >= 2 && key[0] == '*' && key[1] == '.' {
        assert Key(key[1..]) == key;
        AddSuffix(key[1..], site, before);
        return;
      }
      exact := exact[key := site];
    }

    /** Replace the site of a known suffix, or insert a new one. */
    method AddSuffix(suffix: string, site: string, ghost rules: map<string, string>)
      requires Wildcard(Key(suffix)) && Kept(rules, suffixes)
      modifies this`suffixes
      ensures Kept(rules[Key(suffix) := site], suffixes)
    {
      var i := 0;
      while i < |suffixes|
        invariant 0 <= i <= |suffixes| && suffixes == old(suffixes)
        invariant forall j :: 0 <= j < i ==> suffixes[j].suffix != suffix
      {
        if suffixes[i].suffix == suffix {
          ReplacedKept(rules, suffixes, i, site);
          suffixes := suffixes[i := Rule(suffix, site)];
          return;
        }
        i := i + 1;
      }
      InsertSuffix(Rule(suffix, site), rules);
    }

    method InsertSuffix(rule: Rule, ghost rules: map<string, string>)
      requires Wildcard(Key(rule.suffix)) && Kept(rules, suffixes)
      requires forall i :: 0 <= i < |suffixes| ==> suffixes[i].suffix != rule.suffix
      modifies this`suffixes
      ensures Kept(rules[Key(rule.suffix) := rule.site], suffixes)
    {
      var grown := suffixes + [rule];
      AppendedListed(rules, suffixes, rule);
      suffixes := SortByLength(grown);
      RearrangedListed(rules[Key(rule.suffix) := rule.site], grown, suffixes);
    }

    /** The empty string stands for no site. */
    method Lookup(dataServer: string) returns (site: string)
      requires Valid()
      ensures Answer(Rules(adds), dataServer, site)
    {
      if dataServer == [] || (|exact| == 0 && |suffixes| == 0) {
        return [];
      }
      var full := NormalizeKey(dataServer);
      if full in exact {
        return exact[full];
      }
      var host := NormalizeKey(HostnameOnly(dataServer));
      if host == [] {
        NoEmptyKey(adds);
        return [];
      }
      if host in exact {
        return exact[host];
      }
      site := FirstSuffix(host);
    }

    /** The first suffix in the list that the host ends in. */
    method FirstSuffix(host: string) returns (site: string)
      requires Valid()
      ensures BySuffix(Rules(adds), host, site)
    {
      ghost var rules := Rules(adds);
      var i := 0;
      while i < |suffixes|
        invariant 0 <= i <= |suffixes|
        invariant forall j :: 0 <= j < i ==> !Matches(Key(suffixes[j].suffix), host)
      {
        var suffix := suffixes[i].suffix;
        assert Key(suffix)[1..] == suffix;
        if |host| > |suffix| && host[|host| - |suffix|..] == suffix {
          FirstIsLongest(rules, suffixes, i, host);
          return suffixes[i].site;
        }
        i := i + 1;
      }
      NoneIsNone(rules, suffixes, host);
      return [];
    }
  }
}
