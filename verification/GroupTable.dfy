/** The batched deletions and reads of a group's rows in the shared table. */
module GroupTable {
  import opened Records
  import opened Keys

  /** A row, as far as it matters here; an empty name stands for an absent attribute. */
  datatype Item = Item(clusterName: string, content: string)

  type Rows = map<Key, Item>

  predicate HasPrefix(s: string, prefix: string) {
    |prefix| <= |s| && s[..|prefix|] == prefix
  }

  /** The rows a query by partition and prefix finds. */
  predicate Queried(rows: Rows, pk: string, prefix: string, sk: string) {
    (pk, sk) in rows && HasPrefix(sk, prefix)
  }

  lemma PrefixIff(s: string, prefix: string)
    ensures HasPrefix(s, prefix) <==> exists rest: string :: s == prefix + rest
  {
    if HasPrefix(s, prefix) { assert s == prefix + s[|prefix|..]; }
  }

  /** The queries by prefix find exactly the status rows, and the history, of their group. */
  lemma QueriedKinds(rows: Rows, g: Group, g': Group, kind: Kind)
    requires RowKey(g', kind) in rows
    ensures var (pk, sk) := RowKey(g', kind);
            && (Queried(rows, GroupPK(g), CLUSTER, sk) && pk == GroupPK(g) <==> kind.Status? && pk == GroupPK(g))
            && (Queried(rows, GroupPK(g), HISTORY, sk) && pk == GroupPK(g) <==> kind.History? && pk == GroupPK(g))
  {
    var sk := SortKey(kind);
    match kind
    case Config => assert sk[1] == 'O' && CLUSTER[1] == 'L' && HISTORY[1] == 'I';
    case Lock => assert sk[0] == 'L' && CLUSTER[0] == 'C' && HISTORY[0] == 'H';
    case Status(cluster) =>
      assert sk[..|CLUSTER|] == CLUSTER;
      assert sk[0] == 'C' && HISTORY[0] == 'H';
    case History(timestamp) =>
      assert sk[..|HISTORY|] == HISTORY;
      assert sk[0] == 'H' && CLUSTER[0] == 'C';
  }

  // ---- batches ----

  function Concat(batches: seq<seq<string>>): seq<string> {
    if batches == [] then [] else Concat(batches[..|batches| - 1]) + batches[|batches| - 1]
  }

  /** The batches cut a list: each piece of it is in one batch, in order, no batch is empty
      or over the limit, and there are no more batches than needed. */
  predicate Cuts(batches: seq<seq<string>>, s: seq<string>, limit: nat) {
    && Concat(batches) == s
    && (forall i :: 0 <= i < |batches| ==> 0 < |batches[i]| <= limit)
    && (forall i :: 0 <= i < |batches| - 1 ==> |batches[i]| == limit)
  }

  lemma CutsOneMore(batches: seq<seq<string>>, s: seq<string>, limit: nat, i: nat, end: nat)
    requires i < end <= |s| && end <= i + limit && Cuts(batches, s[..i], limit)
    requires forall k :: 0 <= k < |batches| ==> |batches[k]| == limit
    ensures Cuts(batches + [s[i..end]], s[..end], limit)
  {
    assert (batches + [s[i..end]])[..|batches|] == batches;
    assert s[..i] + s[i..end] == s[..end];
  }

  predicate InOneBatch(batches: seq<seq<string>>, x: string) {
    exists i :: 0 <= i < |batches| && x in batches[i] && forall j :: 0 <= j < |batches| && x in batches[j] ==> j == i
  }

  /** Every record is in exactly one batch. */
  lemma {:induction false} InExactlyOneBatch(batches: seq<seq<string>>, s: seq<string>, x: string)
    requires Concat(batches) == s && NoRepeats(s) && x in s
    ensures InOneBatch(batches, x)
  {
    var n := |batches| - 1;
    var before, last := Concat(batches[..n]), batches[n];
    assert s == before + last;
    if x in before {
      assert NoRepeats(before) by { assert forall i :: 0 <= i < |before| ==> s[i] == before[i]; }
      InExactlyOneBatch(batches[..n], before, x);
      NotInBoth(before, last, x);
      StillInOneBatch(batches, x);
    } else {
      OnlyInTheLast(batches, x);
    }
  }

  lemma StillInOneBatch(batches: seq<seq<string>>, x: string)
    requires |batches| > 0 && InOneBatch(batches[..|batches| - 1], x) && x !in batches[|batches| - 1]
    ensures InOneBatch(batches, x)
  {
    var before := batches[..|batches| - 1];
    var i :| 0 <= i < |before| && x in before[i] && forall j :: 0 <= j < |before| && x in before[j] ==> j == i;
    assert x in batches[i];
    forall j | 0 <= j < |batches| && x in batches[j] ensures j == i { assert j < |before| ==> before[j] == batches[j]; }
  }

  lemma OnlyInTheLast(batches: seq<seq<string>>, x: string)
    requires |batches| > 0 && x in batches[|batches| - 1] && x !in Concat(batches[..|batches| - 1])
    ensures InOneBatch(batches, x)
  {
    var n := |batches| - 1;
    forall j | 0 <= j < |batches| && x in batches[j] ensures j == n {
      if j < n { InConcat(batches[..n], j); }
    }
  }

  lemma NotInBoth(before: seq<string>, last: seq<string>, x: string)
    requires NoRepeats(before + last) && x in before
    ensures x !in last
  {
    var s := before + last;
    var k :| 0 <= k < |before| && before[k] == x;
    forall l | 0 <= l < |last| ensures last[l] != x {
      assert s[k] == x && s[|before| + l] == last[l];
    }
  }

  lemma {:induction false} InConcat(batches: seq<seq<string>>, j: nat)
    requires j < |batches|
    ensures forall y :: y in batches[j] ==> y in Concat(batches)
    decreases |batches|
  {
    var n := |batches| - 1;
    if j < n {
      InConcat(batches[..n], j);
    }
  }

  /** Some answered batch holds the name. */
  ghost predicate Answered(batches: seq<seq<string>>, answered: nat -> bool, name: string) {
    exists i :: 0 <= i < |batches| && answered(i) && name in batches[i]
  }

  lemma OneMoreAnswer(batches: seq<seq<string>>, answered: nat -> bool, batch: seq<string>)
    ensures forall name :: Answered(batches + [batch], answered, name)
              <==> Answered(batches, answered, name) || (answered(|batches|) && name in batch)
  {
    var all := batches + [batch];
    forall name
      ensures Answered(all, answered, name) <==>
                Answered(batches, answered, name) || (answered(|batches|) && name in batch)
    {
      if i :| 0 <= i < |batches| && answered(i) && name in batches[i] { assert all[i] == batches[i]; }
      assert all[|batches|] == batch;
    }
  }

  /** No batch is empty, so nothing is found exactly if none is answered. */
  lemma SomeAnswer(batches: seq<seq<string>>, answered: nat -> bool, statuses: map<string, Item>)
    requires forall i :: 0 <= i < |batches| ==> 0 < |batches[i]|
    requires forall name :: name in statuses <==> Answered(batches, answered, name)
    ensures |statuses| == 0 <==> forall i :: 0 <= i < |batches| ==> !answered(i)
  {
    if i :| 0 <= i < |batches| && answered(i) {
      assert batches[i][0] in batches[i];
      assert batches[i][0] in statuses;
    } else {
      assert statuses == map[];
    }
  }

  /** How the store answers a batch: not at all, or leaving some of it undone. */
  datatype Answer = Failed | Processed(left: set<string>)

  predicate AllDone(answers: nat -> Answer, n: nat) {
    forall i :: 0 <= i < n ==> answers(i) == Processed({})
  }

  /** The record is in a batch that is answered, and is not left undone. */
  ghost predicate Removed(batches: seq<seq<string>>, answers: nat -> Answer, sk: string) {
    exists i :: 0 <= i < |batches| && answers(i).Processed? && sk in batches[i] && sk !in answers(i).left
  }

  lemma OneMoreRemoval(batches: seq<seq<string>>, answers: nat -> Answer, batch: seq<string>)
    ensures forall sk :: Removed(batches + [batch], answers, sk) <==>
              Removed(batches, answers, sk)
              || (answers(|batches|).Processed? && sk in batch && sk !in answers(|batches|).left)
  {
    var all := batches + [batch];
    forall sk
      ensures Removed(all, answers, sk) <==>
                Removed(batches, answers, sk)
                || (answers(|batches|).Processed? && sk in batch && sk !in answers(|batches|).left)
    {
      if i :| 0 <= i < |batches| && answers(i).Processed? && sk in batches[i] && sk !in answers(i).left {
        assert all[i] == batches[i];
      }
      assert all[|batches|] == batch;
    }
  }

  /** The table without the rows of a batch, except those left undone. */
  function Without(rows: Rows, pk: string, batch: seq<string>, left: set<string>): Rows {
    map key | key in rows && !(key.0 == pk && key.1 in batch && key.1 !in left) :: rows[key]
  }

  /** Nothing but listed rows is gone, and nothing is changed. */
  ghost predicate OnlyLess(before: Rows, after: Rows, pk: string, listed: seq<string>) {
    && (forall key :: key in after ==> key in before && after[key] == before[key])
    && (forall key: Key :: key in before && (key.0 != pk || key.1 !in listed) ==> key in after)
  }

  class Table {
    var rows: Rows

    constructor ()
      ensures rows == map[]
    {
      rows := map[];
    }

    /** DeleteAllHistoryRecords and DeleteAllClusterStatuses, after the query listed the
        records: gone are exactly the records that an answered batch did not leave undone;
        they succeed only if every listed record is gone, and they touch nothing else. */
    method DeleteAll(pk: string, prefix: string, listed: seq<string>, answers: nat -> Answer)
      returns (ok: bool, batches: seq<seq<string>>)
      requires NoRepeats(listed) && forall sk :: sk in listed <==> Queried(rows, pk, prefix, sk)
      modifies this
      ensures Cuts(batches, listed, 25) && forall sk :: sk in listed ==> InOneBatch(batches, sk)
      ensures ok <==> AllDone(answers, |batches|)
      ensures forall sk :: (pk, sk) in rows <==> (pk, sk) in old(rows) && !Removed(batches, answers, sk)
      ensures ok ==> forall sk :: !Queried(rows, pk, prefix, sk)
      ensures forall key: Key :: key.0 != pk || !HasPrefix(key.1, prefix) ==>
                (key in rows <==> key in old(rows)) && (key in rows ==> rows[key] == old(rows)[key])
      ensures forall key :: key in rows ==> key in old(rows) && rows[key] == old(rows)[key]
    {
      batches := [];
      var errs := 0;
      var i := 0;
      while i < |listed|
        invariant 0 <= i <= |listed|
        invariant Cuts(batches, listed[..i], 25)
        invariant i < |listed| ==> forall k :: 0 <= k < |batches| ==> |batches[k]| == 25
        invariant errs == 0 <==> AllDone(answers, |batches|)
        invariant errs == 0 ==> forall sk :: sk in listed[..i] ==> (pk, sk) !in rows
        invariant forall sk :: (pk, sk) in rows <==> (pk, sk) in old(rows) && !Removed(batches, answers, sk)
        invariant OnlyLess(old(rows), rows, pk, listed)
      {
        var end := i + 25;
        if end > |listed| {
          end := |listed|;
        }
        var batch := listed[i..end];
        CutsOneMore(batches, listed, 25, i, end);
        var answer := answers(|batches|);
        OneMoreRemoval(batches, answers, batch);
        batches := batches + [batch];
        assert listed[..end] == listed[..i] + batch;
        match answer {
          case Failed => errs := errs + 1;
          case Processed(left) =>
            rows := Without(rows, pk, batch, left);
            if left != {} {
              errs := errs + 1;
            }
        }
        i := end;
      }
      assert listed[..i] == listed;
      forall sk | sk in listed ensures InOneBatch(batches, sk) { InExactlyOneBatch(batches, listed, sk); }
      return errs == 0, batches;
    }

    /** A named status row of any group, or of one. */
    predicate Named(key: Key)
      reads this
    {
      key in rows && HasPrefix(key.1, CLUSTER) && rows[key].clusterName != ""
    }

    predicate Own(pk: string, name: string)
      reads this
    {
      name != "" && (pk, ClusterSK(name)) in rows && rows[(pk, ClusterSK(name))].clusterName == name
    }

    /** The rows of one batch, added to those found before. */
    method Responses(pk: string, batch: seq<string>, before: map<string, Item>) returns (statuses: map<string, Item>)
      requires |batch| > 0 && forall name :: name in batch ==> Own(pk, name)
      requires forall name :: name in before ==> Own(pk, name) && before[name] == rows[(pk, ClusterSK(name))]
      ensures forall name :: name in statuses <==> name in before || name in batch
      ensures forall name :: name in statuses ==> Own(pk, name) && statuses[name] == rows[(pk, ClusterSK(name))]
      ensures statuses != map[]
    {
      statuses := before;
      var j := 0;
      while j < |batch|
        invariant 0 <= j <= |batch|
        invariant forall name :: name in statuses <==> name in before || name in batch[..j]
        invariant forall name :: name in statuses ==> Own(pk, name) && statuses[name] == rows[(pk, ClusterSK(name))]
      {
        assert batch[j] in batch;
        statuses := statuses[batch[j] := rows[(pk, ClusterSK(batch[j]))]];
        j := j + 1;
      }
      assert batch[0] in batch;
    }

    /** The batched reads of the listed rows: each is requested once, and the result holds
        exactly the rows of the answered batches. */
    method BatchGet(pk: string, listed: seq<string>, answered: nat -> bool)
      returns (statuses: map<string, Item>, batches: seq<seq<string>>)
      requires NoRepeats(listed) && forall name :: name in listed ==> Own(pk, name)
      ensures Cuts(batches, listed, 100) && forall name :: name in listed ==> InOneBatch(batches, name)
      ensures forall name :: name in statuses <==> Answered(batches, answered, name)
      ensures forall name :: name in statuses ==> Own(pk, name) && statuses[name] == rows[(pk, ClusterSK(name))]
    {
      statuses, batches := map[], [];
      var i := 0;
      while i < |listed|
        invariant 0 <= i <= |listed|
        invariant Cuts(batches, listed[..i], 100)
        invariant i < |listed| ==> forall k :: 0 <= k < |batches| ==> |batches[k]| == 100
        invariant forall name :: name in statuses ==> Own(pk, name) && statuses[name] == rows[(pk, ClusterSK(name))]
        invariant forall name :: name in statuses <==> Answered(batches, answered, name)
      {
        var end := i + 100;
        if end > |listed| {
          end := |listed|;
        }
        var batch := listed[i..end];
        CutsOneMore(batches, listed, 100, i, end);
        OneMoreAnswer(batches, answered, batch);
        assert forall name :: name in batch ==> name in listed;
        if answered(|batches|) {
          statuses := Responses(pk, batch, statuses);
        }
        batches := batches + [batch];
        i := end;
      }
      assert listed[..i] == listed;
      forall name | name in listed ensures InOneBatch(batches, name) { InExactlyOneBatch(batches, listed, name); }
    }

    /** GetAllClusterStatuses, after the query listed the names, none if it failed. If some
        batch is answered the result is the group's own rows, exactly those of the answered
        batches. If none is, the scan that follows takes in every group of the table. */
    method GetAllClusterStatuses(pk: string, listed: seq<string>, answered: nat -> bool, scanned: bool)
      returns (statuses: map<string, Item>, batches: seq<seq<string>>)
      requires NoRepeats(listed) && forall name :: name in listed ==> Own(pk, name)
      ensures Cuts(batches, listed, 100)
      ensures (exists i :: 0 <= i < |batches| && answered(i)) ==>
                && (forall name :: name in statuses <==> Answered(batches, answered, name))
                && (forall name :: name in statuses ==> Own(pk, name) && statuses[name] == rows[(pk, ClusterSK(name))])
      ensures (forall i :: 0 <= i < |batches| ==> !answered(i)) ==>
                && (forall name ::
                      name in statuses <==> scanned && exists key :: Named(key) && rows[key].clusterName == name)
                && (forall name :: name in statuses ==> exists key :: Named(key) && rows[key] == statuses[name])
    {
      statuses, batches := BatchGet(pk, listed, answered);
      SomeAnswer(batches, answered, statuses);
      if |statuses| == 0 && scanned {
        statuses := Scan();
      }
    }

    /** The scan for cluster rows: it has no condition on the partition. */
    method Scan() returns (statuses: map<string, Item>)
      ensures forall name :: name in statuses <==> exists key :: Named(key) && rows[key].clusterName == name
      ensures forall name :: name in statuses ==> exists key :: Named(key) && rows[key] == statuses[name]
    {
      statuses := map[];
      var left := rows.Keys;
      while left != {}
        invariant left <= rows.Keys
        invariant forall name ::
                    name in statuses <==> exists key :: key !in left && Named(key) && rows[key].clusterName == name
        invariant forall name :: name in statuses ==> exists key :: Named(key) && rows[key] == statuses[name]
      {
        var key :| key in left;
        left := left - {key};
        if HasPrefix(key.1, CLUSTER) && rows[key].clusterName != "" {
          statuses := statuses[rows[key].clusterName := rows[key]];
        }
      }
    }
  }
}
