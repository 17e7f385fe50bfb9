/** The keys that give each group its own rows in the shared table and its own entries in
    the service cache. */
module Keys {

  datatype Group = Group(operator: string, namespace: string, name: string)

  function GroupPK(g: Group): string {
    "GROUP#" + g.operator + "#" + g.namespace + "#" + g.name
  }

  const CLUSTER := "CLUSTER#"
  const HISTORY := "HISTORY#"

  function ClusterSK(cluster: string): string {
    CLUSTER + cluster
  }

  function HistorySK(timestamp: string): string {
    HISTORY + timestamp
  }

  /** What a row of a group is for. */
  datatype Kind = Config | Lock | Status(cluster: string) | History(timestamp: string)

  function SortKey(kind: Kind): string {
    match kind
    case Config => "CONFIG"
    case Lock => "LOCK"
    case Status(cluster) => ClusterSK(cluster)
    case History(timestamp) => HistorySK(timestamp)
  }

  type Key = (string, string)

  function RowKey(g: Group, kind: Kind): Key {
    (GroupPK(g), SortKey(kind))
  }

  // ---- cache keys ----

  function GroupConfigKey(namespace: string, name: string): string {
    "config:" + namespace + ":" + name
  }

  function ClusterStatusKey(namespace: string, name: string, cluster: string): string {
    "status:" + namespace + ":" + name + ":" + cluster
  }

  function GroupStateKey(namespace: string, name: string): string {
    "state:" + namespace + ":" + name
  }

  /** The formats, by an example each. */
  lemma KeyFormats()
    ensures GroupPK(Group("op", "ns", "g")) == "GROUP#op#ns#g"
    ensures SortKey(Config) == "CONFIG" && SortKey(Lock) == "LOCK"
    ensures SortKey(Status("c")) == "CLUSTER#c" && SortKey(History("t")) == "HISTORY#t"
    ensures GroupConfigKey("ns", "g") == "config:ns:g" && GroupStateKey("ns", "g") == "state:ns:g"
    ensures ClusterStatusKey("ns", "g", "c") == "status:ns:g:c"
  {
  }

  // ---- injectivity ----

  predicate Free(s: string, c: char) {
    c !in s
  }

  lemma Parts(c: char, x: string, y: string)
    ensures var s := x + [c] + y;
            && s[|x|] == c
            && (forall k :: 0 <= k < |x| ==> s[k] == x[k])
            && (forall k :: |x| < k < |s| ==> s[k] == y[k - |x| - 1])
            && s[..|x|] == x && s[|x| + 1..] == y
  {
  }

  /** Text before the first separator is determined. */
  lemma FirstPart(c: char, x: string, y: string, x': string, y': string)
    requires Free(x, c) && Free(x', c) && x + [c] + y == x' + [c] + y'
    ensures x == x' && y == y'
  {
    Parts(c, x, y);
    Parts(c, x', y');
    assert |x| == |x'|;
  }

  /** Text after the last separator is determined. */
  lemma LastPart(c: char, x: string, y: string, x': string, y': string)
    requires Free(y, c) && Free(y', c) && x + [c] + y == x' + [c] + y'
    ensures x == x' && y == y'
  {
    Parts(c, x, y);
    Parts(c, x', y');
    assert |x| == |x'|;
  }

  lemma SamePrefix(p: string, s: string, s': string)
    requires p + s == p + s'
    ensures s == s'
  {
    assert s == (p + s)[|p|..] && s' == (p + s')[|p|..];
  }

  predicate Plain(g: Group) {
    Free(g.namespace, '#') && Free(g.name, '#') && Free(g.namespace, ':') && Free(g.name, ':')
  }

  /** Two groups share a partition only if they are one group, for any operator names. */
  lemma GroupPKInjective(g: Group, g': Group)
    requires Plain(g) && Plain(g')
    ensures GroupPK(g) == GroupPK(g') <==> g == g'
  {
    if GroupPK(g) == GroupPK(g') {
      var front, front' := "GROUP#" + g.operator + "#" + g.namespace, "GROUP#" + g'.operator + "#" + g'.namespace;
      LastPart('#', front, g.name, front', g'.name);
      LastPart('#', "GROUP#" + g.operator, g.namespace, "GROUP#" + g'.operator, g'.namespace);
      SamePrefix("GROUP#", g.operator, g'.operator);
    }
  }

  lemma SortKeyInjective(k: Kind, k': Kind)
    ensures SortKey(k) == SortKey(k') <==> k == k'
  {
    var s, s' := SortKey(k), SortKey(k');
    if s == s' {
      assert k.Config? ==> s[0] == 'C' && s[1] == 'O';
      assert k'.Config? ==> s'[0] == 'C' && s'[1] == 'O';
      assert k.Status? ==> s[0] == 'C' && s[1] == 'L';
      assert k'.Status? ==> s'[0] == 'C' && s'[1] == 'L';
      assert k.Lock? ==> s[0] == 'L';
      assert k'.Lock? ==> s'[0] == 'L';
      assert k.History? ==> s[0] == 'H';
      assert k'.History? ==> s'[0] == 'H';
      if k.Status? { SamePrefix(CLUSTER, k.cluster, k'.cluster); }
      if k.History? { SamePrefix(HISTORY, k.timestamp, k'.timestamp); }
    }
  }

  /** Row keys are injective in the operator, the namespace, the name and the kind. */
  lemma RowKeyInjective(g: Group, k: Kind, g': Group, k': Kind)
    requires Plain(g) && Plain(g')
    ensures RowKey(g, k) == RowKey(g', k') <==> g == g' && k == k'
  {
    GroupPKInjective(g, g');
    SortKeyInjective(k, k');
  }

  /** Cache keys are injective in the namespace, the name and the cluster, and the three
      caches have no key in common. */
  lemma CacheKeysInjective(g: Group, cluster: string, g': Group, cluster': string)
    requires Plain(g) && Plain(g')
    ensures var n, m, n', m' := g.namespace, g.name, g'.namespace, g'.name;
            && (GroupConfigKey(n, m) == GroupConfigKey(n', m') <==> n == n' && m == m')
            && (GroupStateKey(n, m) == GroupStateKey(n', m') <==> n == n' && m == m')
            && (ClusterStatusKey(n, m, cluster) == ClusterStatusKey(n', m', cluster')
                <==> n == n' && m == m' && cluster == cluster')
            && GroupConfigKey(n, m) != GroupStateKey(n', m')
            && GroupConfigKey(n, m) != ClusterStatusKey(n', m', cluster')
            && GroupStateKey(n, m) != ClusterStatusKey(n', m', cluster')
  {
    var n, m, n', m' := g.namespace, g.name, g'.namespace, g'.name;
    if GroupConfigKey(n, m) == GroupConfigKey(n', m') {
      assert "config:" + (n + ":" + m) == GroupConfigKey(n, m) && "config:" + (n' + ":" + m') == GroupConfigKey(n', m');
      SamePrefix("config:", n + ":" + m, n' + ":" + m');
      FirstPart(':', n, m, n', m');
    }
    if GroupStateKey(n, m) == GroupStateKey(n', m') {
      assert "state:" + (n + ":" + m) == GroupStateKey(n, m) && "state:" + (n' + ":" + m') == GroupStateKey(n', m');
      SamePrefix("state:", n + ":" + m, n' + ":" + m');
      FirstPart(':', n, m, n', m');
    }
    StatusKeyInjective(n, m, cluster, n', m', cluster');
    assert GroupConfigKey(n, m)[0] == 'c';
    assert GroupStateKey(n, m)[0] == GroupStateKey(n', m')[0] == 's' && GroupStateKey(n, m)[4] == 'e';
    assert ClusterStatusKey(n', m', cluster')[0] == 's' && ClusterStatusKey(n', m', cluster')[4] == 'u';
  }

  lemma StatusKeyInjective(n: string, m: string, c: string, n': string, m': string, c': string)
    requires Free(n, ':') && Free(m, ':') && Free(n', ':') && Free(m', ':')
    ensures ClusterStatusKey(n, m, c) == ClusterStatusKey(n', m', c') <==> n == n' && m == m' && c == c'
  {
    if ClusterStatusKey(n, m, c) == ClusterStatusKey(n', m', c') {
      var rest, rest' := m + ":" + c, m' + ":" + c';
      assert "status:" + (n + ":" + rest) == ClusterStatusKey(n, m, c);
      assert "status:" + (n' + ":" + rest') == ClusterStatusKey(n', m', c');
      SamePrefix("status:", n + ":" + rest, n' + ":" + rest');
      FirstPart(':', n, rest, n', rest');
      FirstPart(':', m, c, m', c');
    }
  }

  /** The conditions are needed: with a separator in a namespace two groups share rows, and
      with a colon they share cache entries. */
  lemma SeparatorsCollide()
    ensures GroupPK(Group("op", "a#b", "c")) == GroupPK(Group("op", "a", "b#c"))
    ensures GroupConfigKey("a:b", "c") == GroupConfigKey("a", "b:c")
  {
    assert "a#b" + "#" + "c" == "a" + "#" + "b#c";
    assert "a:b" + ":" + "c" == "a" + ":" + "b:c";
    var p := "GROUP#" + "op" + "#";
    assert GroupPK(Group("op", "a#b", "c")) == p + ("a#b" + "#" + "c");
    assert GroupPK(Group("op", "a", "b#c")) == p + ("a" + "#" + "b#c");
    assert GroupConfigKey("a:b", "c") == "config:" + ("a:b" + ":" + "c");
    assert GroupConfigKey("a", "b:c") == "config:" + ("a" + ":" + "b:c");
  }

  // ---- partitions ----

  /** The rows of a group. */
  function Partition<V>(table: map<Key, V>, g: Group): map<Key, V> {
    map key | key in table && key.0 == GroupPK(g) :: table[key]
  }

  /** No write of one group's row, put or deletion, changes a row of another group. */
  lemma WritesStayInTheirPartition<V>(table: map<Key, V>, g: Group, k: Kind, row: V, g': Group)
    requires Plain(g) && Plain(g') && g != g'
    ensures Partition(table[RowKey(g, k) := row], g') == Partition(table, g')
    ensures Partition(table - {RowKey(g, k)}, g') == Partition(table, g')
  {
    GroupPKInjective(g, g');
  }
}
