/**
 * The configuration document (pkg/config/config.go): a list of apps, each
 * with a name, the ports steered to it and its backend targets, and the
 * check that no port value is claimed twice.
 */
module ProxyConfig {
  import opened Wrappers

  datatype App = App(name: string, ports: seq<int>, targets: seq<string>)

  datatype Config = Config(apps: seq<App>)

  datatype ConfigError = DuplicatePorts

  /** Every port entry of every app, app by app, each app's ports in listed order. */
  function AllPorts(apps: seq<App>): seq<int>
  {
    if apps == [] then [] else AllPorts(apps[..|apps| - 1]) + apps[|apps| - 1].ports
  }

  /** No value occurs at two positions of s. */
  predicate Distinct<T(==)>(s: seq<T>)
  {
    forall i, j :: 0 <= i < j < |s| ==> s[i] != s[j]
  }

  /**
   * `validateConfig`: scans every port of every app, remembering the values
   * seen in a set, and fails on the first value seen before. It fails exactly
   * when some port value occurs twice across the whole configuration,
   * including twice within one app.
   */
  method ValidateConfig(cfg: Config) returns (err: Option<ConfigError>)
    ensures err.None? <==> Distinct(AllPorts(cfg.apps))
  {
    var ports: set<int> := {};
    ghost var scanned: seq<int> := [];
    for i := 0 to |cfg.apps|
      invariant scanned == AllPorts(cfg.apps[..i])
      invariant Distinct(scanned)
      invariant ports == set p | p in scanned
    {
      var app := cfg.apps[i];
      assert cfg.apps[..i + 1][..i] == cfg.apps[..i];
      for j := 0 to |app.ports|
        invariant scanned == AllPorts(cfg.apps[..i]) + app.ports[..j]
        invariant Distinct(scanned)
        invariant ports == set p | p in scanned
      {
        var port := app.ports[j];
        if port in ports {
          AllPortsPrefix(cfg.apps, i, j + 1);
          assert app.ports[..j + 1] == app.ports[..j] + [port];
          ghost var k :| 0 <= k < |scanned| && scanned[k] == port;
          assert AllPorts(cfg.apps)[k] == AllPorts(cfg.apps)[|scanned|];
          return Some(DuplicatePorts);
        }
        assert app.ports[..j + 1] == app.ports[..j] + [port];
        ports := ports + {port};
        scanned := scanned + [port];
      }
      assert app.ports[..|app.ports|] == app.ports;
    }
    assert cfg.apps[..|cfg.apps|] == cfg.apps;
    return None;
  }

  /** The port list of a concatenation of app lists is the concatenation of their port lists. */
  lemma {:induction false} AllPortsAppend(a: seq<App>, b: seq<App>)
    ensures AllPorts(a + b) == AllPorts(a) + AllPorts(b)
  {
    if b == [] {
      assert a + b == a;
    } else {
      var b' := b[..|b| - 1];
      assert (a + b)[..|a + b| - 1] == a + b';
      AllPortsAppend(a, b');
    }
  }

  /**
   * The ports scanned before position j of app i (all earlier apps' ports,
   * then the first j ports of app i) are a prefix of the full port list.
   */
  lemma AllPortsPrefix(apps: seq<App>, i: nat, j: nat)
    requires i < |apps| && j <= |apps[i].ports|
    ensures AllPorts(apps[..i]) + apps[i].ports[..j] <= AllPorts(apps)
  {
    assert apps == apps[..i + 1] + apps[i + 1..];
    AllPortsAppend(apps[..i + 1], apps[i + 1..]);
    assert apps[..i + 1][..i] == apps[..i];
  }

  /** A port value occurs in the port list exactly when some app lists it. */
  lemma {:induction false} AllPortsMembership(apps: seq<App>, p: int)
    ensures p in AllPorts(apps) <==> exists i :: 0 <= i < |apps| && p in apps[i].ports
  {
    if apps != [] {
      var init := apps[..|apps| - 1];
      AllPortsMembership(init, p);
      if p in AllPorts(init) {
        var i :| 0 <= i < |init| && p in init[i].ports;
        assert p in apps[i].ports;
      }
    }
  }

  /** Appending one value keeps a sequence duplicate-free iff the value is new. */
  lemma DistinctSnoc<T>(s: seq<T>, x: T)
    ensures Distinct(s + [x]) <==> Distinct(s) && x !in s
  {
    if Distinct(s + [x]) {
      assert forall i, j :: 0 <= i < j < |s| ==> (s + [x])[i] == s[i] && (s + [x])[j] == s[j];
      forall k | 0 <= k < |s|
        ensures s[k] != x
      {
        assert (s + [x])[k] == s[k] && (s + [x])[|s|] == x;
      }
    }
  }

  /** Duplicate-freedom is the statement that every value occurs at most once. */
  lemma {:induction false} DistinctIffSingleOccurrences<T>(s: seq<T>)
    ensures Distinct(s) <==> forall x :: multiset(s)[x] <= 1
  {
    if s != [] {
      var init, last := s[..|s| - 1], s[|s| - 1];
      assert s == init + [last];
      DistinctIffSingleOccurrences(init);
      DistinctSnoc(init, last);
      assert multiset(s) == multiset(init) + multiset{last};
      if Distinct(s) {
        forall x ensures multiset(s)[x] <= 1 {
          assert multiset(s)[x] == multiset(init)[x] + if x == last then 1 else 0;
        }
      } else if !Distinct(init) {
        var x :| multiset(init)[x] > 1;
        assert multiset(s)[x] >= multiset(init)[x];
      } else {
        assert last in multiset(init);
        assert multiset(s)[last] == multiset(init)[last] + 1;
      }
    }
  }

  /**
   * Whether validation succeeds depends only on the multiset of port values:
   * reordering ports, or moving them between apps, does not change it.
   */
  lemma ValidationDependsOnlyOnPortMultiset(a: seq<App>, b: seq<App>)
    requires multiset(AllPorts(a)) == multiset(AllPorts(b))
    ensures Distinct(AllPorts(a)) <==> Distinct(AllPorts(b))
  {
    DistinctIffSingleOccurrences(AllPorts(a));
    DistinctIffSingleOccurrences(AllPorts(b));
  }

  /** Validation never looks at names or targets: equal port lists, equal port sequence. */
  lemma {:induction false} ValidationIgnoresNamesAndTargets(a: seq<App>, b: seq<App>)
    requires |a| == |b|
    requires forall i :: 0 <= i < |a| ==> a[i].ports == b[i].ports
    ensures AllPorts(a) == AllPorts(b)
  {
    if a != [] {
      ValidationIgnoresNamesAndTargets(a[..|a| - 1], b[..|b| - 1]);
    }
  }

  /** An empty app list, or apps that list no ports, have no ports to clash. */
  lemma {:induction false} NoPortsValidate(apps: seq<App>)
    requires forall i :: 0 <= i < |apps| ==> apps[i].ports == []
    ensures AllPorts(apps) == [] && Distinct(AllPorts(apps))
  {
    if apps != [] {
      NoPortsValidate(apps[..|apps| - 1]);
    }
  }

  /** In a duplicate-free configuration no port is listed by two different apps. */
  lemma {:induction false} ValidatedPortHasOneOwner(apps: seq<App>, i: nat, j: nat, p: int)
    requires Distinct(AllPorts(apps))
    requires i < j < |apps| && p in apps[i].ports
    ensures p !in apps[j].ports
  {
    var init, last := apps[..|apps| - 1], apps[|apps| - 1];
    assert AllPorts(apps) == AllPorts(init) + last.ports;
    assert Distinct(AllPorts(init)) by {
      assert forall k :: 0 <= k < |AllPorts(init)| ==> AllPorts(apps)[k] == AllPorts(init)[k];
    }
    if j == |apps| - 1 {
      AllPortsMembership(init, p);
      assert p in init[i].ports;
      var k :| 0 <= k < |AllPorts(init)| && AllPorts(init)[k] == p;
      assert AllPorts(apps)[k] == p;
      forall m | 0 <= m < |last.ports|
        ensures last.ports[m] != p
      {
        assert AllPorts(apps)[|AllPorts(init)| + m] == last.ports[m];
      }
    } else {
      ValidatedPortHasOneOwner(init, i, j, p);
    }
  }
}
