/** Status records and how updates of them are merged and compared.
  */
module StatusTypes {
  import opened Options

  type Time = int

  // The empty status stands for a status that was not informed.
  datatype SubscriptionValue = SubscriptionValue(status: string, message: Option<string>, lastProcessed: Option<Time>) {
    predicate SoftEqual(other: SubscriptionValue) {
      message == other.message && status == other.status
    }

    // This update, with what it does not inform taken from an older value.
    function MergedWith(older: SubscriptionValue): SubscriptionValue {
      var merged := if status == "" then older.status else status;
      SubscriptionValue(
        merged,
        if message.None? && merged == older.status then older.message else message,
        if lastProcessed.None? then older.lastProcessed else lastProcessed)
    }
  }

  datatype IngestValue = IngestValue(status: string, message: Option<string>, lastIngested: Option<Time>) {
    predicate SoftEqual(other: IngestValue) {
      message == other.message && status == other.status
    }
  }

  datatype StatusValue = StatusValue(lastUpdated: Time, ingest: IngestValue, subs: map<string, SubscriptionValue>)

  type Subscriptions = map<string, SubscriptionValue>

  // Same names, and the same core data for each of them.
  ghost predicate SoftSame(a: Subscriptions, b: Subscriptions) {
    a.Keys == b.Keys && forall n <- a :: a[n].status == b[n].status && a[n].message == b[n].message
  }

  class SubscriptionStatus {
    var status: string
    var message: Option<string>
    var lastProcessed: Option<Time>

    function Value(): SubscriptionValue
      reads this
    {
      SubscriptionValue(status, message, lastProcessed)
    }

    constructor (status: string, message: Option<string>, lastProcessed: Option<Time>)
      ensures Value() == SubscriptionValue(status, message, lastProcessed)
    {
      this.status, this.message, this.lastProcessed := status, message, lastProcessed;
    }

    method Merge(existing: SubscriptionStatus?)
      modifies this
      ensures Value() == if existing == null then old(Value()) else old(Value().MergedWith(existing.Value()))
    {
      if existing == null {
        return;
      }
      if lastProcessed == None && existing.lastProcessed != None {
        lastProcessed := existing.lastProcessed;
      }
      if status == "" && existing.status != "" {
        status := existing.status;
      }
      if message == None && existing.message != None && status == existing.status {
        message := existing.message;
      }
    }
  }

  // Comparing the sizes first makes one pass over one of the maps enough.
  method EqualSoftStatus(s: StatusValue, other: StatusValue) returns (equal: bool)
    ensures equal <==>
              && s.ingest.status == other.ingest.status && s.ingest.message == other.ingest.message
              && s.subs.Keys == other.subs.Keys
              && forall n <- s.subs ::
                   s.subs[n].status == other.subs[n].status && s.subs[n].message == other.subs[n].message
  {
    if !s.ingest.SoftEqual(other.ingest) || |s.subs| != |other.subs| {
      assert SoftSame(s.subs, other.subs) ==> |s.subs.Keys| == |other.subs.Keys|;
      return false;
    }
    var todo := s.subs.Keys;
    while todo != {}
      invariant todo <= s.subs.Keys
      invariant forall k <- s.subs.Keys - todo :: k in other.subs && s.subs[k].SoftEqual(other.subs[k])
    {
      var k :| k in todo;
      if k !in other.subs || !s.subs[k].SoftEqual(other.subs[k]) {
        return false;
      }
      todo := todo - {k};
    }
    SameSizeSubset(s.subs.Keys, other.subs.Keys);
    return true;
  }

  method EqualStatus(s: StatusValue, other: StatusValue) returns (equal: bool)
    ensures equal <==> s == other
  {
    if s.ingest != other.ingest || |s.subs| != |other.subs| {
      return false;
    }
    var todo := s.subs.Keys;
    while todo != {}
      invariant todo <= s.subs.Keys
      invariant forall k <- s.subs.Keys - todo :: k in other.subs && s.subs[k] == other.subs[k]
    {
      var k :| k in todo;
      if k !in other.subs || s.subs[k] != other.subs[k] {
        return false;
      }
      todo := todo - {k};
    }
    SameSizeSubset(s.subs.Keys, other.subs.Keys);
    return s.lastUpdated == other.lastUpdated;
  }

  lemma {:induction false} SameSizeSubset<T>(a: set<T>, b: set<T>)
    requires a <= b && |a| == |b|
    ensures a == b
  {
    if a != {} {
      var x :| x in a;
      SameSizeSubset(a - {x}, b - {x});
    }
  }

  // ---------- A sequence of updates ----------

  // Every update merged into what the ones before it left.
  function Fold(updates: seq<SubscriptionValue>): SubscriptionValue
    requires updates != []
  {
    var last := updates[|updates| - 1];
    if |updates| == 1 then last else last.MergedWith(Fold(updates[..|updates| - 1]))
  }

  // The status in force after the first n updates: the latest one that was informed.
  function StatusAfter(updates: seq<SubscriptionValue>, n: nat): string
    requires n <= |updates|
  {
    if n == 0 then ""
    else if updates[n - 1].status != "" then updates[n - 1].status
    else StatusAfter(updates, n - 1)
  }

  function LatestProcessed(updates: seq<SubscriptionValue>, n: nat): Option<Time>
    requires n <= |updates|
  {
    if n == 0 then None
    else if updates[n - 1].lastProcessed.Some? then updates[n - 1].lastProcessed
    else LatestProcessed(updates, n - 1)
  }

  // Update k informed message m, and no later update informed one or changed the status.
  ghost predicate MessageStands(updates: seq<SubscriptionValue>, n: nat, k: nat, m: string)
    requires n <= |updates|
  {
    && k < n && updates[k].message == Some(m)
    && forall j :: k < j < n ==> updates[j].message.None? && StatusAfter(updates, j + 1) == StatusAfter(updates, k + 1)
  }

  // What the merged value says, read off the list of updates without merging: the latest
  // informed status and processing time, and the latest message of the present status.
  lemma {:induction false} FoldReadsOff(updates: seq<SubscriptionValue>, n: nat)
    requires 1 <= n <= |updates|
    ensures var v := Fold(updates[..n]);
            && v.status == StatusAfter(updates, n)
            && v.lastProcessed == LatestProcessed(updates, n)
            && (forall m :: v.message == Some(m) <==> exists k :: MessageStands(updates, n, k, m))
    decreases n
  {
    var v := Fold(updates[..n]);
    if n == 1 {
      assert StatusAfter(updates, 0) == "" && LatestProcessed(updates, 0) == None;
      forall m ensures v.message == Some(m) <==> exists k :: MessageStands(updates, 1, k, m) {
        if v.message == Some(m) { assert MessageStands(updates, 1, 0, m); }
      }
    } else {
      assert updates[..n][..n - 1] == updates[..n - 1];
      FoldReadsOff(updates, n - 1);
      forall m ensures v.message == Some(m) <==> exists k :: MessageStands(updates, n, k, m) {
        MessageOneMore(updates, n - 1, n, m);
      }
    }
  }

  // A message stands after one more update if that update informed it, or if it stood before, and
  // the update neither informed one nor changed the status.
  lemma MessageOneMore(updates: seq<SubscriptionValue>, p: nat, n: nat, m: string)
    requires 1 <= p < n <= |updates| && n == p + 1
    ensures (exists k :: MessageStands(updates, n, k, m))
            <==> updates[p].message == Some(m)
                 || (updates[p].message.None? && StatusAfter(updates, n) == StatusAfter(updates, p)
                     && exists k :: MessageStands(updates, p, k, m))
  {
    if updates[p].message == Some(m) {
      assert MessageStands(updates, n, p, m);
    } else {
      if k :| MessageStands(updates, n, k, m) {
        StoodBefore(updates, p, n, k, m);
      }
      if k :| MessageStands(updates, p, k, m)
              && updates[p].message.None? && StatusAfter(updates, n) == StatusAfter(updates, p) {
        StandsOn(updates, p, n, k, m);
      }
    }
  }

  lemma StoodBefore(updates: seq<SubscriptionValue>, p: nat, n: nat, k: nat, m: string)
    requires k < p < n <= |updates| && n == p + 1 && MessageStands(updates, n, k, m)
    ensures MessageStands(updates, p, k, m)
    ensures updates[p].message.None? && StatusAfter(updates, n) == StatusAfter(updates, p)
  {
    assert MessageStands(updates, p, k, m);
    StatusStretch(updates, p, k, m);
  }

  lemma StandsOn(updates: seq<SubscriptionValue>, p: nat, n: nat, k: nat, m: string)
    requires p < n <= |updates| && n == p + 1 && MessageStands(updates, p, k, m)
    requires updates[p].message.None? && StatusAfter(updates, n) == StatusAfter(updates, p)
    ensures MessageStands(updates, n, k, m)
  {
    StatusStretch(updates, p, k, m);
  }

  lemma StatusStretch(updates: seq<SubscriptionValue>, n: nat, k: nat, m: string)
    requires n <= |updates| && MessageStands(updates, n, k, m)
    ensures StatusAfter(updates, n) == StatusAfter(updates, k + 1)
  {
    if k < n - 1 { assert updates[n - 1].message.None?; }
  }

  // A processing time or a status, once informed, is there after every later update.
  lemma {:induction false} NeverLost(updates: seq<SubscriptionValue>, k: nat, n: nat)
    requires k < n <= |updates|
    ensures updates[k].lastProcessed.Some? ==> Fold(updates[..n]).lastProcessed.Some?
    ensures updates[k].status != "" ==> Fold(updates[..n]).status != ""
    decreases n
  {
    FoldReadsOff(updates, n);
    if k < n - 1 {
      NeverLost(updates, k, n - 1);
      FoldReadsOff(updates, n - 1);
    }
  }
}
