/**
 * De-duplication of a batch of state changes (internal/action/statewriter_sql.go): the
 * winning change of every subject, and what the updates built from a batch are.
 */
module StateUpdates {
  import opened Common
  import opened StateChanges

  /** A subject: its kind and ID. */
  datatype Key = Key(kind: Kind, id: nat)

  predicate About(c: Change, k: Key) {
    c.kind == k.kind && c.subject == Some(k.id)
  }

  /** c updates the row of k. */
  predicate Updates(c: Change, k: Key) {
    c.Lifecycle() && About(c, k)
  }

  function KeyOf(c: Change): Key
    requires c.subject.Some?
  {
    Key(c.kind, c.subject.value)
  }

  // ------------------------------------------------------------ de-duplication

  /** The newest update of k in a batch; a tie goes to the change enqueued last. */
  function Latest(batch: seq<Change>, k: Key): Option<Change> {
    if batch == [] then None
    else
      var prev, c := Latest(batch[..|batch| - 1], k), batch[|batch| - 1];
      if Updates(c, k) && (prev.None? || prev.value.at <= c.at) then Some(c) else prev
  }

  /** What Latest means: an update of k that no other one in the batch is newer than, the last one among equals. */
  lemma {:induction false} LatestIsNewest(batch: seq<Change>, k: Key)
    ensures Latest(batch, k).None? ==> forall d :: d in batch ==> !Updates(d, k)
    ensures Latest(batch, k).Some? ==> exists i :: WinsAt(batch, k, i) && batch[i] == Latest(batch, k).value
  {
    if batch != [] {
      var prefix, c := batch[..|batch| - 1], batch[|batch| - 1];
      LatestIsNewest(prefix, k);
      assert forall j :: 0 <= j < |prefix| ==> prefix[j] == batch[j];
      if Latest(prefix, k).Some? {
        var i :| WinsAt(prefix, k, i) && prefix[i] == Latest(prefix, k).value;
        assert Updates(c, k) && prefix[i].at <= c.at ==> WinsAt(batch, k, |batch| - 1);
        assert !(Updates(c, k) && prefix[i].at <= c.at) ==> WinsAt(batch, k, i);
      } else if Updates(c, k) {
        assert forall j :: 0 <= j < |prefix| ==> prefix[j] in prefix;
        assert WinsAt(batch, k, |batch| - 1);
      }
    }
  }

  /** batch[i] updates k, nothing in the batch is newer, and no later update is as new. */
  ghost predicate WinsAt(batch: seq<Change>, k: Key, i: int) {
    && 0 <= i < |batch| && Updates(batch[i], k)
    && forall j :: 0 <= j < |batch| && Updates(batch[j], k) ==>
         batch[j].at < batch[i].at || (batch[j].at == batch[i].at && j <= i)
  }

  /** The subjects a batch updates, in first-seen order. */
  function Seen(batch: seq<Change>): seq<Key> {
    if batch == [] then []
    else
      var before, c := Seen(batch[..|batch| - 1]), batch[|batch| - 1];
      if c.subject.Some? && Updates(c, KeyOf(c)) && KeyOf(c) !in before then before + [KeyOf(c)] else before
  }

  /** The winning change of every seen subject of one kind. */
  function Winners(batch: seq<Change>, order: seq<Key>, kind: Kind): seq<Change> {
    if order == [] then []
    else
      var rest, k := Winners(batch, order[..|order| - 1], kind), order[|order| - 1];
      if k.kind == kind && Latest(batch, k).Some? then rest + [Latest(batch, k).value] else rest
  }

  lemma {:induction false} SeenIsUpdated(batch: seq<Change>, k: Key)
    ensures k in Seen(batch) <==> Latest(batch, k).Some?
    ensures forall i, j :: 0 <= i < j < |Seen(batch)| ==> Seen(batch)[i] != Seen(batch)[j]
  {
    if batch != [] {
      SeenIsUpdated(batch[..|batch| - 1], k);
    }
  }

  /** The first loop of latestUpdates: the winner of every subject, and the subjects in first-seen order. */
  method CollectLatest(changes: seq<Change>) returns (latest: map<Key, Change>, order: seq<Key>)
    ensures order == Seen(changes)
    ensures forall k :: k in latest <==> Latest(changes, k).Some?
    ensures forall k :: k in latest ==> Latest(changes, k) == Some(latest[k])
  {
    latest, order := map[], [];
    for i := 0 to |changes|
      invariant order == Seen(changes[..i])
      invariant forall k :: k in latest <==> Latest(changes[..i], k).Some?
      invariant forall k :: k in latest ==> Latest(changes[..i], k) == Some(latest[k])
    {
      var c := changes[i];
      assert changes[..i + 1][..i] == changes[..i];
      if !c.updateSubject || c.shadow || c.subject.None? {
        continue;
      }
      var k := KeyOf(c);
      SeenIsUpdated(changes[..i], k);
      if k !in latest {
        order := order + [k];
      }
      if k !in latest || !(c.at < latest[k].at) {
        latest := latest[k := c];
      }
    }
    assert changes[..|changes|] == changes;
  }

  // ------------------------------------------------------ what the updates of a batch are

  /** The change wins its subject in the batch. */
  ghost predicate IsWinner(batch: seq<Change>, k: Key, c: Change) {
    exists i :: WinsAt(batch, k, i) && batch[i] == c
  }

  /** Position a of the updates is about k. */
  predicate Picks(out: map<Kind, seq<Change>>, k: Key, a: int) {
    k.kind in out && 0 <= a < |out[k.kind]| && About(out[k.kind][a], k)
  }

  ghost predicate NotSeenBy(batch: seq<Change>, k: Key, i: int) {
    forall j :: 0 <= j <= i && j < |batch| ==> !Updates(batch[j], k)
  }

  /** The batch updates a before it updates b. */
  ghost predicate SeenFirst(batch: seq<Change>, a: Key, b: Key) {
    exists i :: 0 <= i < |batch| && Updates(batch[i], a) && NotSeenBy(batch, b, i)
  }

  /** Position a of the updates of a kind is the winner of its subject. */
  ghost predicate HoldsWinner(out: map<Kind, seq<Change>>, batch: seq<Change>, kind: Kind, a: int)
    requires kind in out && 0 <= a < |out[kind]|
  {
    var c := out[kind][a];
    c.kind == kind && c.subject.Some? && IsWinner(batch, KeyOf(c), c)
  }

  /**
   * What the updates of a batch are: the winner of every subject the batch updates, each
   * once and under its kind, in first-seen order, and nothing else.
   */
  ghost predicate AreLatest(out: map<Kind, seq<Change>>, batch: seq<Change>) {
    && (forall kind, a :: kind in out && 0 <= a < |out[kind]| ==> HoldsWinner(out, batch, kind, a))
    && (forall i, k :: 0 <= i < |batch| && Updates(batch[i], k) ==> exists a :: Picks(out, k, a))
    && (forall kind, a, b :: kind in out && 0 <= a < b < |out[kind]| ==>
          && HoldsWinner(out, batch, kind, a) && HoldsWinner(out, batch, kind, b)
          && SeenFirst(batch, KeyOf(out[kind][a]), KeyOf(out[kind][b])))
    && (forall kind :: kind in out ==> out[kind] != [])
  }

  lemma {:induction false} SeenInOrder(batch: seq<Change>, a: nat, b: nat)
    requires a < b < |Seen(batch)|
    ensures SeenFirst(batch, Seen(batch)[a], Seen(batch)[b])
  {
    var prefix := batch[..|batch| - 1];
    var ka, kb := Seen(batch)[a], Seen(batch)[b];
    if b < |Seen(prefix)| {
      SeenInOrder(prefix, a, b);
      var i :| 0 <= i < |prefix| && Updates(prefix[i], ka) && NotSeenBy(prefix, kb, i);
      assert forall j :: 0 <= j <= i ==> prefix[j] == batch[j];
      assert Updates(batch[i], ka) && NotSeenBy(batch, kb, i);
    } else {
      NewSubject(prefix, ka, kb);
      var i :| 0 <= i < |prefix| && Updates(prefix[i], ka);
      assert forall j :: 0 <= j < |prefix| ==> prefix[j] == batch[j];
      assert Updates(batch[i], ka) && NotSeenBy(batch, kb, i);
    }
  }

  /** A seen subject is updated by the prefix, any other one is not. */
  lemma NewSubject(prefix: seq<Change>, a: Key, b: Key)
    requires a in Seen(prefix) && b !in Seen(prefix)
    ensures exists i :: 0 <= i < |prefix| && Updates(prefix[i], a)
    ensures forall i :: 0 <= i < |prefix| ==> !Updates(prefix[i], b)
  {
    SeenIsUpdated(prefix, a);
    SeenIsUpdated(prefix, b);
    LatestIsNewest(prefix, a);
    LatestIsNewest(prefix, b);
    var i :| WinsAt(prefix, a, i);
    assert Updates(prefix[i], a);
  }

  lemma LatestWins(batch: seq<Change>, k: Key)
    requires Latest(batch, k).Some?
    ensures IsWinner(batch, k, Latest(batch, k).value) && Updates(Latest(batch, k).value, k)
  {
    LatestIsNewest(batch, k);
  }

  /** Where a winner comes from. */
  lemma {:induction false} WinnersFrom(batch: seq<Change>, order: seq<Key>, kind: Kind, a: nat) returns (p: nat)
    requires a < |Winners(batch, order, kind)|
    ensures p < |order| && order[p].kind == kind && Latest(batch, order[p]) == Some(Winners(batch, order, kind)[a])
  {
    var rest := order[..|order| - 1];
    if a < |Winners(batch, rest, kind)| {
      p := WinnersFrom(batch, rest, kind, a);
    } else {
      p := |order| - 1;
    }
  }

  lemma {:induction false} WinnersInOrder(batch: seq<Change>, order: seq<Key>, kind: Kind, a: nat, b: nat)
    returns (p: nat, q: nat)
    requires a < b < |Winners(batch, order, kind)|
    ensures p < q < |order|
    ensures Latest(batch, order[p]) == Some(Winners(batch, order, kind)[a])
    ensures Latest(batch, order[q]) == Some(Winners(batch, order, kind)[b])
  {
    var rest := order[..|order| - 1];
    if b < |Winners(batch, rest, kind)| {
      p, q := WinnersInOrder(batch, rest, kind, a, b);
    } else {
      p := WinnersFrom(batch, rest, kind, a);
      q := |order| - 1;
    }
  }

  lemma {:induction false} WinnersHave(batch: seq<Change>, order: seq<Key>, p: nat) returns (a: nat)
    requires p < |order| && Latest(batch, order[p]).Some?
    ensures a < |Winners(batch, order, order[p].kind)|
    ensures Winners(batch, order, order[p].kind)[a] == Latest(batch, order[p]).value
  {
    var rest := order[..|order| - 1];
    if p < |rest| {
      a := WinnersHave(batch, rest, p);
    } else {
      a := |Winners(batch, rest, order[p].kind)|;
    }
  }

  /** The winners are what the updates are to be. */
  lemma WinnersAreLatest(out: map<Kind, seq<Change>>, batch: seq<Change>)
    requires forall kind :: kind in out <==> Winners(batch, Seen(batch), kind) != []
    requires forall kind :: kind in out ==> out[kind] == Winners(batch, Seen(batch), kind)
    ensures AreLatest(out, batch)
  {
    forall kind, a | kind in out && 0 <= a < |out[kind]|
      ensures HoldsWinner(out, batch, kind, a)
    {
      var p := WinnersFrom(batch, Seen(batch), kind, a);
      LatestWins(batch, Seen(batch)[p]);
    }
    forall i, k | 0 <= i < |batch| && Updates(batch[i], k)
      ensures exists a :: Picks(out, k, a)
    {
      LatestIsNewest(batch, k);
      assert batch[i] in batch;
      SeenIsUpdated(batch, k);
      var p :| 0 <= p < |Seen(batch)| && Seen(batch)[p] == k;
      var a := WinnersHave(batch, Seen(batch), p);
      LatestWins(batch, k);
      assert Picks(out, k, a);
    }
    forall kind, a, b | kind in out && 0 <= a < b < |out[kind]|
      ensures HoldsWinner(out, batch, kind, a) && HoldsWinner(out, batch, kind, b)
      ensures SeenFirst(batch, KeyOf(out[kind][a]), KeyOf(out[kind][b]))
    {
      var p, q := WinnersInOrder(batch, Seen(batch), kind, a, b);
      LatestWins(batch, Seen(batch)[p]);
      LatestWins(batch, Seen(batch)[q]);
      SeenInOrder(batch, p, q);
    }
  }

  /** latestUpdates: one winning change per subject, grouped by kind in first-seen order. */
  method LatestUpdates(changes: seq<Change>) returns (out: map<Kind, seq<Change>>)
    ensures AreLatest(out, changes)
  {
    var latest, order := CollectLatest(changes);
    out := map[];
    for i := 0 to |order|
      invariant forall kind :: kind in out <==> Winners(changes, order[..i], kind) != []
      invariant forall kind :: kind in out ==> out[kind] == Winners(changes, order[..i], kind)
    {
      var k := order[i];
      assert order[..i + 1][..i] == order[..i];
      SeenIsUpdated(changes, k);
      out := out[k.kind := (if k.kind in out then out[k.kind] else []) + [latest[k]]];
    }
    assert order[..|order|] == order;
    WinnersAreLatest(out, changes);
  }

  // ------------------------------------------------------------- one subject's update

  /** The change about k among these, if any. */
  function FindAbout(changes: seq<Change>, k: Key): (r: Option<Change>)
    ensures r.Some? ==> r.value in changes && About(r.value, k)
    ensures r.None? ==> forall c :: c in changes ==> !About(c, k)
  {
    if changes == [] then None
    else if About(changes[|changes| - 1], k) then Some(changes[|changes| - 1])
    else FindAbout(changes[..|changes| - 1], k)
  }

  /** The row of k is joined with the change about it among the updates of its kind. */
  function UpdateFor(out: map<Kind, seq<Change>>, k: Key): Option<Change> {
    if k.kind in out then FindAbout(out[k.kind], k) else None
  }

  lemma WinnerIsUnique(batch: seq<Change>, k: Key, c: Change, d: Change)
    requires IsWinner(batch, k, c) && IsWinner(batch, k, d)
    ensures c == d
  {
    var i :| WinsAt(batch, k, i) && batch[i] == c;
    var j :| WinsAt(batch, k, j) && batch[j] == d;
  }

  /** Whatever the updates of a batch are, the row of k gets the newest update of k. */
  lemma UpdateIsLatest(out: map<Kind, seq<Change>>, batch: seq<Change>, k: Key)
    requires AreLatest(out, batch)
    ensures UpdateFor(out, k) == Latest(batch, k)
  {
    var u := UpdateFor(out, k);
    if Latest(batch, k).Some? {
      LatestWins(batch, k);
      var i :| WinsAt(batch, k, i) && batch[i] == Latest(batch, k).value;
      var a :| Picks(out, k, a);
      assert out[k.kind][a] in out[k.kind];
    }
    if u.Some? {
      var a :| 0 <= a < |out[k.kind]| && out[k.kind][a] == u.value;
      assert HoldsWinner(out, batch, k.kind, a) && KeyOf(u.value) == k;
      var i :| WinsAt(batch, k, i) && batch[i] == u.value;
      LatestIsNewest(batch, k);
      assert batch[i] in batch;
      LatestWins(batch, k);
      WinnerIsUnique(batch, k, u.value, Latest(batch, k).value);
    }
  }
}
