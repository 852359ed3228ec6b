/**
 * The subject rows the state writer maintains (internal/action/statewriter_sql.go,
 * internal/action/stateevents.go): the guarded updates of identities, proxies and
 * accounts, and what replaying, reordering and re-batching changes does to a row.
 */
module StateRows {
  import opened Common
  import opened StateChanges
  import opened StateUpdates

  // ------------------------------------------------------------------- the rows

  /** The columns an update sets from the change alone. */
  datatype Image = Image(state: LifecycleState, reason: string, banUntil: Option<int>, quarantineUntil: Option<int>)

  /** A row of identities or proxies. */
  datatype Row = Row(image: Image, changedAt: int, updatedAt: int, activatedAt: Option<int>)

  function StateReason(c: Change): string {
    if c.stateReason != "" then c.stateReason else if c.rule != "" then c.rule else c.reason
  }

  function ImageOf(c: Change): Image {
    match c.kind
    case Identity =>
      Image(c.to, StateReason(c),
            if c.to == Banned && !c.permanent then c.until else None,
            if c.to == Quarantined then c.until else None)
    case Account =>
      Image(c.to, "", if c.to == Banned && !c.permanent then c.until else None, None)
    case Proxy =>
      Image(c.to, StateReason(c),
            if !c.permanent && (c.to == Banned || c.to == Quarantined) then c.until else None, None)
  }

  /** Only identities have activated_at, and only activations set it. */
  predicate Activates(c: Change) {
    c.kind == Identity && c.to == Active
  }

  /** updateIdentitiesSQL and updateProxiesSQL for one row: the strict timestamp guard. */
  function UpdateRow(row: Row, c: Change): Row {
    if row.changedAt < c.at then
      Row(ImageOf(c), c.at, c.at, if Activates(c) then Some(c.at) else row.activatedAt)
    else row
  }

  /** One committed batch, as the row of k sees it. */
  function ApplyBatch(row: Row, batch: seq<Change>, k: Key): Row {
    match Latest(batch, k)
    case None => row
    case Some(c) => UpdateRow(row, c)
  }

  /** The row of k after a history of committed batches. */
  function Replay(row: Row, history: seq<seq<Change>>, k: Key): Row {
    if history == [] then row
    else ApplyBatch(Replay(row, history[..|history| - 1], k), history[|history| - 1], k)
  }

  ghost function ChangesOf(history: seq<seq<Change>>): set<Change> {
    set batch, c | batch in history && c in batch :: c
  }

  /** c updates k and is newer than the row. */
  predicate Newer(row: Row, c: Change, k: Key) {
    Updates(c, k) && row.changedAt < c.at
  }

  lemma ChangesOfAppend(history: seq<seq<Change>>, batch: seq<Change>)
    ensures ChangesOf(history + [batch]) == ChangesOf(history) + set c | c in batch
  {
    assert forall c :: c in ChangesOf(history + [batch]) <==> c in ChangesOf(history) || c in batch by {
      forall c | c in ChangesOf(history) || c in batch
        ensures c in ChangesOf(history + [batch])
      {
        if c in batch {
          assert batch in history + [batch];
        }
      }
    }
  }

  /** The row is the original one, or carries a change of the history newer than it. */
  ghost predicate Carries(row: Row, history: seq<seq<Change>>, k: Key, c: Change) {
    var r := Replay(row, history, k);
    && c in ChangesOf(history) && Newer(row, c, k)
    && r.image == ImageOf(c) && r.changedAt == c.at && r.updatedAt == c.at
    && (Activates(c) ==> r.activatedAt == Some(c.at))
  }

  /**
   * Last writer wins under every batching, order and replay: the row carries a
   * newest change of the history, or is the original row when none is newer.
   */
  lemma {:induction false} NewestWins(row: Row, history: seq<seq<Change>>, k: Key)
    ensures forall d :: d in ChangesOf(history) && Updates(d, k) ==> d.at <= Replay(row, history, k).changedAt
    ensures Replay(row, history, k) == row || exists c :: Carries(row, history, k, c)
    ensures (forall d :: d in ChangesOf(history) && Newer(row, d, k) ==> !Activates(d)) ==>
              Replay(row, history, k).activatedAt == row.activatedAt
  {
    if history != [] {
      var before, batch := history[..|history| - 1], history[|history| - 1];
      assert history == before + [batch];
      NewestWins(row, before, k);
      ChangesOfAppend(before, batch);
      LatestIsNewest(batch, k);
      var was := Replay(row, before, k);
      if Latest(batch, k).Some? && was.changedAt < Latest(batch, k).value.at {
        assert Carries(row, history, k, Latest(batch, k).value);
      } else if was != row {
        var c :| Carries(row, before, k, c);
        assert Carries(row, history, k, c);
      }
    }
  }

  // ---------------------------------------------------- through the updates of the batches

  /** The statement of the batch's updates, as the row of k sees it. */
  function ApplyUpdates(row: Row, out: map<Kind, seq<Change>>, k: Key): Row {
    match UpdateFor(out, k)
    case None => row
    case Some(c) => UpdateRow(row, c)
  }

  function ReplayUpdates(row: Row, outs: seq<map<Kind, seq<Change>>>, k: Key): Row {
    if outs == [] then row else ApplyUpdates(ReplayUpdates(row, outs[..|outs| - 1], k), outs[|outs| - 1], k)
  }

  /** For every committed batch the updates that were built from it. */
  ghost predicate UpdatesOf(outs: seq<map<Kind, seq<Change>>>, history: seq<seq<Change>>) {
    |outs| == |history| && forall i :: 0 <= i < |outs| ==> AreLatest(outs[i], history[i])
  }

  /** The row of k after the updates built from a history is the row after the history. */
  lemma {:induction false} UpdatesReplay(row: Row, outs: seq<map<Kind, seq<Change>>>, history: seq<seq<Change>>, k: Key)
    requires UpdatesOf(outs, history)
    ensures ReplayUpdates(row, outs, k) == Replay(row, history, k)
  {
    if history != [] {
      UpdatesReplay(row, outs[..|outs| - 1], history[..|history| - 1], k);
      UpdateIsLatest(outs[|outs| - 1], history[|history| - 1], k);
    }
  }

  /** What the columns of a row say about the change it carries. */
  predicate Columns(image: Image, c: Change) {
    && image.state == c.to
    && (image.banUntil.Some? <==>
          && c.until.Some? && !c.permanent
          && (c.to == Banned || (c.kind == Proxy && c.to == Quarantined)))
    && (image.quarantineUntil.Some? <==> c.until.Some? && c.kind == Identity && c.to == Quarantined)
    && (image.banUntil.Some? ==> image.banUntil == c.until)
    && (image.quarantineUntil.Some? ==> image.quarantineUntil == c.until)
    && (c.kind == Account ==> image.reason == "")
    && (c.kind != Account && image.reason == "" ==> c.stateReason == "" && c.rule == "" && c.reason == "")
    && (c.kind != Account && c.stateReason != "" ==> image.reason == c.stateReason)
    && (c.kind != Account && c.stateReason == "" && c.rule != "" ==> image.reason == c.rule)
    && (c.kind != Account && c.stateReason == "" && c.rule == "" ==> image.reason == c.reason)
  }

  /**
   * Under every batching, order and replay: no update of the history is newer than the row,
   * and a row that changed shows the state, the deadline that belongs to it, the reason and
   * the time of one of the updates.
   */
  lemma RowShowsNewest(row: Row, outs: seq<map<Kind, seq<Change>>>, history: seq<seq<Change>>, k: Key)
    requires UpdatesOf(outs, history)
    ensures var r := ReplayUpdates(row, outs, k);
            && (forall d :: d in ChangesOf(history) && Updates(d, k) ==> d.at <= r.changedAt)
            && (r == row || exists c ::
                  && c in ChangesOf(history) && Updates(c, k) && row.changedAt < c.at
                  && Columns(r.image, c) && r.changedAt == c.at && r.updatedAt == c.at
                  && (c.kind == Identity && c.to == Active ==> r.activatedAt == Some(c.at)))
  {
    UpdatesReplay(row, outs, history, k);
    NewestWins(row, history, k);
    if Replay(row, history, k) != row {
      var c :| Carries(row, history, k, c);
      assert Columns(ImageOf(c), c);
    }
  }

  /** Any two histories of the same changes leave the same row. */
  ghost predicate Convergent(row: Row, changes: set<Change>, k: Key) {
    forall h1, h2 :: ChangesOf(h1) == changes && ChangesOf(h2) == changes ==> Replay(row, h1, k) == Replay(row, h2, k)
  }

  /** c is a newest change of k among those newer than the row. */
  ghost predicate Top(row: Row, changes: set<Change>, k: Key, c: Change) {
    && c in changes && Newer(row, c, k)
    && forall d :: d in changes && Newer(row, d, k) ==> d.at <= c.at
  }

  /**
   * The newest changes agree on the row image, and either activate the identity
   * or no newer change does.
   */
  ghost predicate TopDecides(row: Row, changes: set<Change>, k: Key) {
    forall c, d :: Top(row, changes, k, c) && d in changes && Newer(row, d, k) ==>
      && (d.at == c.at ==> ImageOf(d) == ImageOf(c))
      && (Activates(d) ==> Activates(c))
  }

  lemma ReplayTop(row: Row, changes: set<Change>, k: Key, history: seq<seq<Change>>)
    requires ChangesOf(history) == changes
    ensures Replay(row, history, k) == row ==> forall d :: d in changes ==> !Newer(row, d, k)
    ensures Replay(row, history, k) != row ==> exists c :: Top(row, changes, k, c) && Carries(row, history, k, c)
  {
    NewestWins(row, history, k);
    if Replay(row, history, k) != row {
      var c :| Carries(row, history, k, c);
      assert Top(row, changes, k, c);
    }
  }

  lemma TopDecidesConverges(row: Row, changes: set<Change>, k: Key, h1: seq<seq<Change>>, h2: seq<seq<Change>>)
    requires TopDecides(row, changes, k)
    requires ChangesOf(h1) == changes && ChangesOf(h2) == changes
    ensures Replay(row, h1, k) == Replay(row, h2, k)
  {
    ReplayTop(row, changes, k, h1);
    ReplayTop(row, changes, k, h2);
    var r1, r2 := Replay(row, h1, k), Replay(row, h2, k);
    if r1 != row && r2 != row {
      var c1 :| Top(row, changes, k, c1) && Carries(row, h1, k, c1);
      var c2 :| Top(row, changes, k, c2) && Carries(row, h2, k, c2);
      assert c1.at == c2.at && ImageOf(c1) == ImageOf(c2);
      assert Activates(c1) <==> Activates(c2);
      if !Activates(c1) {
        NewestWins(row, h1, k);
        NewestWins(row, h2, k);
      }
    }
  }

  /**
   * With distinct times every history of the same changes leaves the same state, reason,
   * times and deadlines: those of the newest change, or the original ones.
   */
  lemma DistinctTimesConverge(row: Row, changes: set<Change>, k: Key, h1: seq<seq<Change>>, h2: seq<seq<Change>>)
    requires ChangesOf(h1) == changes && ChangesOf(h2) == changes
    requires forall c, d :: c in changes && d in changes && Updates(c, k) && Updates(d, k) && c.at == d.at ==> c == d
    ensures Replay(row, h1, k).(activatedAt := None) == Replay(row, h2, k).(activatedAt := None)
  {
    ReplayTop(row, changes, k, h1);
    ReplayTop(row, changes, k, h2);
    if Replay(row, h1, k) != row && Replay(row, h2, k) != row {
      var c1 :| Top(row, changes, k, c1) && Carries(row, h1, k, c1);
      var c2 :| Top(row, changes, k, c2) && Carries(row, h2, k, c2);
      assert c1.at == c2.at;
    }
  }

  /** Some order of a set of changes. */
  lemma Listed(changes: set<Change>) returns (batch: seq<Change>)
    ensures (set c | c in batch) == changes
  {
    if changes == {} {
      batch := [];
    } else {
      var c :| c in changes;
      var rest := Listed(changes - {c});
      batch := rest + [c];
      assert (set x | x in batch) == (set x | x in rest) + {c};
    }
  }

  lemma LatestOfOne(c: Change, k: Key)
    ensures Latest([c], k) == if Updates(c, k) then Some(c) else None
  {
    var none: seq<Change> := [];
    assert [c][..0] == none;
  }

  lemma ReplayOne(row: Row, batch: seq<Change>, k: Key)
    ensures Replay(row, [batch], k) == ApplyBatch(row, batch, k)
  {
    var none: seq<seq<Change>> := [];
    assert [batch][..0] == none;
  }

  lemma ReplayTwo(row: Row, first: seq<Change>, second: seq<Change>, k: Key)
    ensures Replay(row, [first, second], k) == ApplyBatch(ApplyBatch(row, first, k), second, k)
  {
    assert [first, second][..1] == [first];
    ReplayOne(row, first, k);
  }

  lemma ChangesOfTwo(first: seq<Change>, second: seq<Change>)
    ensures ChangesOf([first, second]) == (set c | c in first) + (set c | c in second)
    ensures ChangesOf([second]) == set c | c in second
  {
    assert [first, second] == [first] + [second] && [first] == [] + [first] && [second] == [] + [second];
    ChangesOfAppend([], first);
    ChangesOfAppend([], second);
    ChangesOfAppend([first], second);
  }

  /** A history that commits c on its own first, then everything in one batch. */
  lemma FirstThenAll(row: Row, changes: set<Change>, k: Key, batch: seq<Change>, c: Change)
    requires (set d | d in batch) == changes && c in changes && Updates(c, k)
    ensures ChangesOf([[c], batch]) == changes && ChangesOf([batch]) == changes
    ensures Replay(row, [[c], batch], k) == ApplyBatch(UpdateRow(row, c), batch, k)
    ensures Replay(row, [batch], k) == ApplyBatch(row, batch, k)
  {
    ChangesOfTwo([c], batch);
    assert (set d | d in [c]) == {c};
    LatestOfOne(c, k);
    ReplayOne(row, batch, k);
    ReplayTwo(row, [c], batch, k);
  }

  /** Without TopDecides two histories of the same changes leave different rows. */
  lemma Diverges(row: Row, changes: set<Change>, k: Key, c: Change, d: Change)
    requires row.activatedAt.Some? ==> row.activatedAt.value <= row.changedAt
    requires Top(row, changes, k, c) && d in changes && Newer(row, d, k)
    requires !((d.at == c.at ==> ImageOf(d) == ImageOf(c)) && (Activates(d) ==> Activates(c)))
    ensures !Convergent(row, changes, k)
  {
    var batch := Listed(changes);
    LatestIsNewest(batch, k);
    FirstThenAll(row, changes, k, batch, c);
    FirstThenAll(row, changes, k, batch, d);
    assert Latest(batch, k).value.at == c.at;
    var r0, r1, r2 := Replay(row, [batch], k), Replay(row, [[c], batch], k), Replay(row, [[d], batch], k);
    if d.at == c.at {
      assert r1 == UpdateRow(row, c) && r2 == UpdateRow(row, d);
      assert ImageOf(d) != ImageOf(c);
    } else {
      assert r2.activatedAt != row.activatedAt || r0 != r1;
      assert r0 != r1 || r0 != r2;
    }
  }

  /**
   * Exactly when replays converge: every batching, order and replay of a set of
   * changes leaves the same row if and only if TopDecides. Ties below the newest
   * time do no harm; a tie at the newest time, and an activation older than a
   * newest change that is not one, do.
   */
  lemma ConvergesIff(row: Row, changes: set<Change>, k: Key)
    requires row.activatedAt.Some? ==> row.activatedAt.value <= row.changedAt
    ensures Convergent(row, changes, k) <==> TopDecides(row, changes, k)
  {
    if TopDecides(row, changes, k) {
      forall h1, h2 | ChangesOf(h1) == changes && ChangesOf(h2) == changes
        ensures Replay(row, h1, k) == Replay(row, h2, k)
      {
        TopDecidesConverges(row, changes, k, h1, h2);
      }
    } else {
      var c, d :| Top(row, changes, k, c) && d in changes && Newer(row, d, k)
        && !((d.at == c.at ==> ImageOf(d) == ImageOf(c)) && (Activates(d) ==> Activates(c)));
      Diverges(row, changes, k, c, d);
    }
  }

  /** The premise of ConvergesIff is an invariant of the updates. */
  lemma {:induction false} ActivationNeverAhead(row: Row, history: seq<seq<Change>>, k: Key)
    requires row.activatedAt.Some? ==> row.activatedAt.value <= row.changedAt
    ensures var r := Replay(row, history, k); r.activatedAt.Some? ==> r.activatedAt.value <= r.changedAt
  {
    if history != [] {
      ActivationNeverAhead(row, history[..|history| - 1], k);
    }
  }

  /** An identity activated at 1 and banned at 2: activated_at depends on whether the two were batched together. */
  lemma ActivatedAtDependsOnBatching(activate: Change, ban: Change)
    requires activate == Change(1, 1, Identity, Some(7), Active, None, false, "", "", "", false, false, true)
    requires ban == Change(2, 2, Identity, Some(7), Banned, None, true, "", "", "", false, false, true)
    ensures var row, k := Row(Image(Pending, "", None, None), 0, 0, None), Key(Identity, 7);
            && Replay(row, [[activate, ban]], k).activatedAt == None
            && Replay(row, [[activate], [ban]], k).activatedAt == Some(1)
            && !Convergent(row, {activate, ban}, k)
  {
    var row, k := Row(Image(Pending, "", None, None), 0, 0, None), Key(Identity, 7);
    assert [activate, ban][..1] == [activate];
    LatestOfOne(activate, k);
    LatestOfOne(ban, k);
    assert Latest([activate, ban], k) == Some(ban);
    ReplayOne(row, [activate, ban], k);
    ReplayTwo(row, [activate], [ban], k);
    ConvergesIff(row, {activate, ban}, k);
    assert Top(row, {activate, ban}, k, ban);
  }

  // ------------------------------------------------------------------- accounts

  /** An account row and the stored state events its guard reads. */
  datatype AccountState = AccountState(image: Image, updatedAt: int, log: set<Change>)

  /** The events updateAccountsSQL takes for state changes of k. */
  predicate Counts(e: Change, k: Key) {
    About(e, k) && !e.shadow && !e.cooldown
  }

  /** updateAccountsSQL for one row: applied unless a newer state event of the account is stored. */
  function UpdateAccount(a: AccountState, c: Change, k: Key): AccountState {
    if exists e :: e in a.log && Counts(e, k) && e.at > c.at then a
    else a.(image := ImageOf(c), updatedAt := Max(a.updatedAt, c.at))
  }

  /**
   * Exactly when an account takes a change: unless a newer event of the account is stored
   * that is neither a shadow nor a cooldown.
   */
  lemma AccountTakesIff(a: AccountState, c: Change, k: Key)
    ensures var n := UpdateAccount(a, c, k);
            if exists e :: e in a.log && e.kind == k.kind && e.subject == Some(k.id) && !e.shadow && !e.cooldown
                           && e.at > c.at
            then n == a
            else n.log == a.log && Columns(n.image, c) && n.updatedAt == Max(a.updatedAt, c.at)
  {
    assert forall e :: e in a.log ==>
             (Counts(e, k) <==> e.kind == k.kind && e.subject == Some(k.id) && !e.shadow && !e.cooldown);
  }

  /** One transaction: the rows first, then the events (stored once per ID). */
  function ApplyAccountBatch(a: AccountState, batch: seq<Change>, k: Key): AccountState {
    var n := match Latest(batch, k)
             case None => a
             case Some(c) => UpdateAccount(a, c, k);
    n.(log := a.log + set c | c in batch && c.subject.Some?)
  }

  function ReplayAccount(a: AccountState, history: seq<seq<Change>>, k: Key): AccountState {
    if history == [] then a
    else ApplyAccountBatch(ReplayAccount(a, history[..|history| - 1], k), history[|history| - 1], k)
  }

  /** The same through the updates that were built from the batch. */
  function ApplyAccountUpdates(a: AccountState, out: map<Kind, seq<Change>>, batch: seq<Change>, k: Key): AccountState {
    var n := match UpdateFor(out, k)
             case None => a
             case Some(c) => UpdateAccount(a, c, k);
    n.(log := a.log + set c | c in batch && c.subject.Some?)
  }

  function ReplayAccountUpdates(a: AccountState, outs: seq<map<Kind, seq<Change>>>, history: seq<seq<Change>>, k: Key)
      : AccountState
    requires |outs| == |history|
  {
    if history == [] then a
    else ApplyAccountUpdates(ReplayAccountUpdates(a, outs[..|outs| - 1], history[..|history| - 1], k),
                             outs[|outs| - 1], history[|history| - 1], k)
  }

  lemma {:induction false} AccountUpdatesReplay(a: AccountState, outs: seq<map<Kind, seq<Change>>>,
                                                history: seq<seq<Change>>, k: Key)
    requires UpdatesOf(outs, history)
    ensures ReplayAccountUpdates(a, outs, history, k) == ReplayAccount(a, history, k)
  {
    if history != [] {
      AccountUpdatesReplay(a, outs[..|outs| - 1], history[..|history| - 1], k);
      UpdateIsLatest(outs[|outs| - 1], history[|history| - 1], k);
    }
  }

  /** last is the time of the newest stored state event of k, or before every change when there is none. */
  ghost predicate LastStored(log: set<Change>, last: int, k: Key) {
    && (forall e :: e in log && Counts(e, k) ==> e.at <= last)
    && ((exists e :: e in log && Counts(e, k)) ==> exists e :: e in log && Counts(e, k) && e.at == last)
  }

  /** The changes of a history that fit the account rule. */
  ghost predicate FitsAccountRule(changes: set<Change>, log: set<Change>, last: int, k: Key) {
    // Executor changes update the account exactly when they are not cooldowns.
    && (forall c :: c in changes ==> (Counts(c, k) <==> Updates(c, k)))
    // No change ties with the newest stored event, and equal times carry equal images.
    && (forall c :: c in changes && Updates(c, k) ==> c.at != last)
    && (forall c, d :: c in changes && d in changes && Updates(c, k) && Updates(d, k) && c.at == d.at ==>
          ImageOf(c) == ImageOf(d))
    // Without stored events the row counts as older than every change.
    && ((forall e :: e in log ==> !Counts(e, k)) ==> forall c :: c in changes && Updates(c, k) ==> last < c.at)
  }

  lemma {:induction false} LogHolds(a: AccountState, history: seq<seq<Change>>, k: Key, e: Change)
    ensures e in ReplayAccount(a, history, k).log <==> e in a.log || (e in ChangesOf(history) && e.subject.Some?)
  {
    if history != [] {
      var before, batch := history[..|history| - 1], history[|history| - 1];
      assert history == before + [batch];
      LogHolds(a, before, k, e);
      ChangesOfAppend(before, batch);
    }
  }

  /**
   * The account rule over the event log gives the row the strict timestamp guard
   * gives, under every batching, order and replay. row is the same account with a
   * state_changed_at column holding the time of its newest stored event.
   */
  lemma {:induction false} LogRuleIsTimestampRule(a: AccountState, row: Row, history: seq<seq<Change>>, k: Key)
    requires k.kind == Account && row.image == a.image
    requires LastStored(a.log, row.changedAt, k)
    requires FitsAccountRule(ChangesOf(history), a.log, row.changedAt, k)
    ensures var n, r := ReplayAccount(a, history, k), Replay(row, history, k);
            && n.image == r.image
            && n.updatedAt == (if r == row then a.updatedAt else Max(a.updatedAt, r.changedAt))
  {
    if history != [] {
      var before, batch := history[..|history| - 1], history[|history| - 1];
      assert history == before + [batch];
      ChangesOfAppend(before, batch);
      LogRuleIsTimestampRule(a, row, before, k);
      NewestWins(row, before, k);
      LatestIsNewest(batch, k);
      var n, r := ReplayAccount(a, before, k), Replay(row, before, k);
      if Latest(batch, k).Some? {
        var c := Latest(batch, k).value;
        assert c in ChangesOf(history);
        GuardsAgree(a, row, before, k, c);
        if c.at == r.changedAt {
          var d :| Carries(row, before, k, d);
          assert d in ChangesOf(history) && ImageOf(d) == ImageOf(c);
        }
      }
    }
  }

  /** A change is held back by the log exactly when it is older than the row. */
  lemma GuardsAgree(a: AccountState, row: Row, history: seq<seq<Change>>, k: Key, c: Change)
    requires LastStored(a.log, row.changedAt, k)
    requires FitsAccountRule(ChangesOf(history), a.log, row.changedAt, k)
    requires Updates(c, k) && c.at != row.changedAt
    requires (forall e :: e in a.log ==> !Counts(e, k)) ==> row.changedAt < c.at
    ensures (exists e :: e in ReplayAccount(a, history, k).log && Counts(e, k) && e.at > c.at)
            <==> c.at < Replay(row, history, k).changedAt
  {
    var r := Replay(row, history, k);
    NewestWins(row, history, k);
    if c.at < r.changedAt {
      if r == row {
        var e :| e in a.log && Counts(e, k) && e.at == row.changedAt;
        LogHolds(a, history, k, e);
      } else {
        var d :| Carries(row, history, k, d);
        LogHolds(a, history, k, d);
      }
    } else {
      forall e | e in ReplayAccount(a, history, k).log && Counts(e, k)
        ensures e.at <= c.at
      {
        LogHolds(a, history, k, e);
        ChangedAtGrows(row, history, k);
      }
    }
  }

  lemma {:induction false} ChangedAtGrows(row: Row, history: seq<seq<Change>>, k: Key)
    ensures row.changedAt <= Replay(row, history, k).changedAt
  {
    if history != [] {
      ChangedAtGrows(row, history[..|history| - 1], k);
    }
  }

  /** c updates the account and no event stored before the history is newer. */
  ghost predicate Live(a: AccountState, c: Change, k: Key) {
    Updates(c, k) && forall e :: e in a.log && Counts(e, k) ==> e.at <= c.at
  }

  /** Applying c would change nothing. */
  predicate Idle(a: AccountState, c: Change) {
    ImageOf(c) == a.image && c.at <= a.updatedAt
  }

  /** Idle changes leave the row alone, and updated_at never passes the newest applied change. */
  lemma {:induction false} AccountBounds(a: AccountState, history: seq<seq<Change>>, k: Key, bound: int)
    requires forall d :: d in ChangesOf(history) && Live(a, d, k) ==> d.at <= bound
    ensures var n := ReplayAccount(a, history, k);
            && a.updatedAt <= n.updatedAt <= Max(a.updatedAt, bound)
            && ((forall d :: d in ChangesOf(history) && Live(a, d, k) ==> Idle(a, d)) ==>
                  n.image == a.image && n.updatedAt == a.updatedAt)
  {
    if history != [] {
      var before, batch := history[..|history| - 1], history[|history| - 1];
      assert history == before + [batch];
      ChangesOfAppend(before, batch);
      AccountBounds(a, before, k, bound);
      LatestIsNewest(batch, k);
      if Latest(batch, k).Some? {
        var c := Latest(batch, k).value;
        assert c in ChangesOf(history);
        if !Live(a, c, k) {
          var e :| e in a.log && Counts(e, k) && e.at > c.at;
          LogHolds(a, before, k, e);
        }
      }
    }
  }

  /** A batch whose winner is as new as every stored event is applied. */
  lemma WinnerApplied(n: AccountState, batch: seq<Change>, k: Key, w: Change)
    requires Latest(batch, k) == Some(w) && forall e :: e in n.log && Counts(e, k) ==> e.at <= w.at
    ensures var r := ApplyAccountBatch(n, batch, k); r.image == ImageOf(w) && r.updatedAt == Max(n.updatedAt, w.at)
  {
  }

  /** A batch whose winner is older than a stored event changes nothing in the row. */
  lemma WinnerHeldBack(n: AccountState, batch: seq<Change>, k: Key, c: Change)
    requires c in n.log && Counts(c, k) && (Latest(batch, k).Some? ==> Latest(batch, k).value.at < c.at)
    ensures var r := ApplyAccountBatch(n, batch, k); r.image == n.image && r.updatedAt == n.updatedAt
  {
  }

  /** When no counted event is newer than a live change, the row carries an update of that time. */
  lemma {:induction false} AccountCarries(a: AccountState, history: seq<seq<Change>>, k: Key, c: Change)
    returns (d: Change)
    requires c in ChangesOf(history) && Live(a, c, k)
    requires forall d :: d in ChangesOf(history) && Updates(d, k) ==> Counts(d, k)
    requires forall e :: e in ChangesOf(history) && Counts(e, k) ==> e.at <= c.at
    ensures d in ChangesOf(history) && Updates(d, k) && d.at == c.at
    ensures var n := ReplayAccount(a, history, k);
            n.image == ImageOf(d) && n.updatedAt == Max(a.updatedAt, c.at)
  {
    var before, batch := history[..|history| - 1], history[|history| - 1];
    assert history == before + [batch];
    ChangesOfAppend(before, batch);
    LatestIsNewest(batch, k);
    var n := ReplayAccount(a, before, k);
    if Latest(batch, k).Some? && Latest(batch, k).value.at == c.at {
      AccountBounds(a, before, k, c.at);
      forall e | e in n.log && Counts(e, k)
        ensures e.at <= c.at
      {
        LogHolds(a, before, k, e);
      }
      d := Latest(batch, k).value;
      WinnerApplied(n, batch, k, d);
    } else {
      d := AccountCarries(a, before, k, c);
      LogHolds(a, before, k, c);
      WinnerHeldBack(n, batch, k, c);
    }
  }

  /** A live change that no counted event of the history is newer than ends up in the row. */
  lemma AccountNewestWins(a: AccountState, history: seq<seq<Change>>, k: Key, c: Change)
    requires c in ChangesOf(history) && Live(a, c, k)
    requires forall d :: d in ChangesOf(history) && Updates(d, k) ==> Counts(d, k)
    requires forall e :: e in ChangesOf(history) && Counts(e, k) ==> e.at <= c.at
    requires forall d :: d in ChangesOf(history) && Updates(d, k) && d.at == c.at ==> ImageOf(d) == ImageOf(c)
    ensures var n := ReplayAccount(a, history, k);
            n.image == ImageOf(c) && n.updatedAt == Max(a.updatedAt, c.at)
  {
    var d := AccountCarries(a, history, k, c);
  }

  /** The account is not behind c: it carries an update of that time, or the log has a newer counted event. */
  ghost predicate NotBehind(n: AccountState, k: Key, c: Change) {
    || (exists e :: e in n.log && Counts(e, k) && e.at > c.at)
    || (c.at <= n.updatedAt && exists d :: d in n.log && Updates(d, k) && d.at == c.at
                                      && n.image == ImageOf(d) && Columns(n.image, d))
  }

  /** No update of the history is ever left out of an account, under any batching, order and replay. */
  lemma AccountNotBehind(a: AccountState, history: seq<seq<Change>>, k: Key, c: Change)
    requires c in ChangesOf(history) && Updates(c, k)
    requires forall d :: d in ChangesOf(history) && Updates(d, k) ==> Counts(d, k)
    ensures NotBehind(ReplayAccount(a, history, k), k, c)
  {
    var n := ReplayAccount(a, history, k);
    if forall e :: e in n.log && Counts(e, k) ==> e.at <= c.at {
      forall e | (e in a.log || e in ChangesOf(history)) && Counts(e, k)
        ensures e.at <= c.at
      {
        LogHolds(a, history, k, e);
      }
      var d := AccountCarries(a, history, k, c);
      assert Columns(ImageOf(d), d);
      LogHolds(a, history, k, d);
    }
  }

  /** c is a newest live change. */
  ghost predicate LiveTop(a: AccountState, changes: set<Change>, k: Key, c: Change) {
    c in changes && Live(a, c, k) && forall d :: d in changes && Live(a, d, k) ==> d.at <= c.at
  }

  /**
   * The newest live changes agree on the row image, and a counted event newer than
   * them may only be among the changes when every live change is idle.
   */
  ghost predicate AccountDecides(a: AccountState, changes: set<Change>, k: Key) {
    && (forall c, d :: LiveTop(a, changes, k, c) && LiveTop(a, changes, k, d) ==> ImageOf(d) == ImageOf(c))
    && (forall c, d, e ::
          (LiveTop(a, changes, k, c) && d in changes && Live(a, d, k) && e in changes && Counts(e, k) && e.at > c.at)
          ==> Idle(a, d))
  }

  ghost predicate AccountConvergent(a: AccountState, changes: set<Change>, k: Key) {
    forall h1, h2 :: ChangesOf(h1) == changes && ChangesOf(h2) == changes ==>
      ReplayAccount(a, h1, k) == ReplayAccount(a, h2, k)
  }

  lemma SameLog(a: AccountState, k: Key, h1: seq<seq<Change>>, h2: seq<seq<Change>>)
    requires ChangesOf(h1) == ChangesOf(h2)
    ensures ReplayAccount(a, h1, k).log == ReplayAccount(a, h2, k).log
  {
    forall e
      ensures e in ReplayAccount(a, h1, k).log <==> e in ReplayAccount(a, h2, k).log
    {
      LogHolds(a, h1, k, e);
      LogHolds(a, h2, k, e);
    }
  }

  /** A newest live change, when there is a live one. */
  lemma NewestLive(a: AccountState, changes: set<Change>, k: Key) returns (c: Change)
    requires exists d :: d in changes && Live(a, d, k)
    ensures LiveTop(a, changes, k, c)
  {
    c :| c in changes && Live(a, c, k);
    var rest := changes - {c};
    if exists d :: d in rest && Live(a, d, k) {
      var d := NewestLive(a, rest, k);
      c := if c.at < d.at then d else c;
    }
  }

  /** Unless a newer event is among the changes, every history ends with the newest live change. */
  lemma AccountTopWins(a: AccountState, changes: set<Change>, k: Key, c: Change, h: seq<seq<Change>>)
    requires AccountDecides(a, changes, k) && LiveTop(a, changes, k, c) && ChangesOf(h) == changes
    requires forall d :: d in changes && Updates(d, k) ==> Counts(d, k)
    requires forall e :: e in changes && Counts(e, k) ==> e.at <= c.at
    ensures ReplayAccount(a, h, k).image == ImageOf(c)
    ensures ReplayAccount(a, h, k).updatedAt == Max(a.updatedAt, c.at)
  {
    assert forall d :: d in changes && Updates(d, k) && d.at == c.at ==> LiveTop(a, changes, k, d);
    AccountNewestWins(a, h, k, c);
  }

  lemma AccountDecidesConverges(a: AccountState, changes: set<Change>, k: Key, h1: seq<seq<Change>>,
                                h2: seq<seq<Change>>)
    requires AccountDecides(a, changes, k) && ChangesOf(h1) == changes && ChangesOf(h2) == changes
    requires forall d :: d in changes && Updates(d, k) ==> Counts(d, k)
    ensures ReplayAccount(a, h1, k) == ReplayAccount(a, h2, k)
  {
    SameLog(a, k, h1, h2);
    var bound := a.updatedAt;
    if exists d :: d in changes && Live(a, d, k) {
      var c := NewestLive(a, changes, k);
      bound := c.at;
      if forall e :: e in changes && Counts(e, k) ==> e.at <= c.at {
        AccountTopWins(a, changes, k, c, h1);
        AccountTopWins(a, changes, k, c, h2);
        return;
      }
    }
    AccountBounds(a, h1, k, bound);
    AccountBounds(a, h2, k, bound);
  }

  /** The account after c, then e, then everything in one batch. */
  lemma AccountAfterThree(a: AccountState, k: Key, first: seq<Change>, second: seq<Change>, all: seq<Change>)
    requires forall c :: c in first || c in second ==> c in all
    ensures ChangesOf([first, second, all]) == set c | c in all
    ensures ReplayAccount(a, [first, second, all], k)
            == ApplyAccountBatch(ApplyAccountBatch(ApplyAccountBatch(a, first, k), second, k), all, k)
  {
    var h1, h2 := [first], [first, second];
    assert h1 == [] + [first] && h2 == h1 + [second] && [first, second, all] == h2 + [all];
    ChangesOfAppend([], first);
    ChangesOfAppend(h1, second);
    ChangesOfAppend(h2, all);
    assert [first, second, all][..2] == h2 && h2[..1] == h1 && h1[..0] == [];
    assert ReplayAccount(a, h1, k) == ApplyAccountBatch(a, first, k);
    assert ReplayAccount(a, h2, k) == ApplyAccountBatch(ReplayAccount(a, h1, k), second, k);
  }

  lemma {:induction false} LatestOfLast(batch: seq<Change>, c: Change, k: Key)
    requires Updates(c, k) && forall d :: d in batch && Updates(d, k) ==> d.at <= c.at
    ensures Latest(batch + [c], k) == Some(c)
  {
    assert (batch + [c])[..|batch|] == batch;
    LatestIsNewest(batch, k);
  }

  /** A change that updates, counts and ties, committed last in its batch, stays. */
  lemma TieGoesLast(a: AccountState, changes: set<Change>, k: Key, batch: seq<Change>, c: Change)
    requires (set d | d in batch) == changes && c in changes && Live(a, c, k)
    requires forall d :: d in changes && Updates(d, k) ==> d.at <= c.at
    ensures ChangesOf([[], [], batch + [c]]) == changes
    ensures ReplayAccount(a, [[], [], batch + [c]], k).image == ImageOf(c)
  {
    LatestOfLast(batch, c, k);
    AccountAfterThree(a, k, [], [], batch + [c]);
    assert (set d | d in batch + [c]) == changes;
    assert ApplyAccountBatch(a, [], k) == a;
  }

  /** Once e is stored, nothing older than it is applied. */
  lemma ClosedByEvent(a: AccountState, changes: set<Change>, k: Key, batch: seq<Change>, first: seq<Change>, e: Change)
    requires (set d | d in batch) == changes && e in changes && Counts(e, k) && !Updates(e, k)
    requires forall d :: d in changes && Live(a, d, k) ==> d.at < e.at
    requires forall d :: d in first ==> d in changes
    ensures ChangesOf([first, [e], batch]) == changes
    ensures var n, r := ReplayAccount(a, [first, [e], batch], k), ApplyAccountBatch(a, first, k);
            n.image == r.image && n.updatedAt == r.updatedAt
  {
    AccountAfterThree(a, k, first, [e], batch);
    LatestIsNewest([e], k);
    LatestIsNewest(batch, k);
    var one := ApplyAccountBatch(a, first, k);
    var two := ApplyAccountBatch(one, [e], k);
    assert two.image == one.image && two.updatedAt == one.updatedAt && e in two.log;
    if Latest(batch, k).Some? {
      var c := Latest(batch, k).value;
      if Live(a, c, k) {
        assert e.at > c.at;
      } else {
        var stored :| stored in a.log && Counts(stored, k) && stored.at > c.at;
        assert stored in two.log;
      }
    }
  }

  lemma NotConvergent(a: AccountState, changes: set<Change>, k: Key, h1: seq<seq<Change>>, h2: seq<seq<Change>>)
    requires ChangesOf(h1) == changes && ChangesOf(h2) == changes && ReplayAccount(a, h1, k) != ReplayAccount(a, h2, k)
    ensures !AccountConvergent(a, changes, k)
  {
  }

  lemma NoneNewer(a: AccountState, changes: set<Change>, k: Key, c: Change, x: Change)
    requires LiveTop(a, changes, k, c) && x in changes && Updates(x, k)
    ensures x.at <= c.at
  {
    assert x.at > c.at ==> Live(a, x, k);
  }

  lemma TieDiverges(a: AccountState, changes: set<Change>, k: Key, c: Change, d: Change)
    requires LiveTop(a, changes, k, c) && LiveTop(a, changes, k, d) && ImageOf(d) != ImageOf(c)
    ensures !AccountConvergent(a, changes, k)
  {
    var batch := Listed(changes);
    forall x | x in changes && Updates(x, k)
      ensures x.at <= c.at && x.at <= d.at
    {
      NoneNewer(a, changes, k, c, x);
      NoneNewer(a, changes, k, d, x);
    }
    TieGoesLast(a, changes, k, batch, c);
    TieGoesLast(a, changes, k, batch, d);
    NotConvergent(a, changes, k, [[], [], batch + [c]], [[], [], batch + [d]]);
  }

  lemma EventDiverges(a: AccountState, changes: set<Change>, k: Key, c: Change, d: Change, e: Change)
    requires LiveTop(a, changes, k, c) && d in changes && Live(a, d, k) && !Idle(a, d)
    requires e in changes && Counts(e, k) && e.at > c.at
    ensures !AccountConvergent(a, changes, k)
  {
    var batch := Listed(changes);
    assert !Updates(e, k) by {
      assert Updates(e, k) ==> Live(a, e, k);
    }
    ClosedByEvent(a, changes, k, batch, [], e);
    ClosedByEvent(a, changes, k, batch, [d], e);
    assert ApplyAccountBatch(a, [], k) == a;
    LatestOfOne(d, k);
    WinnerApplied(a, [d], k, d);
    NotConvergent(a, changes, k, [[], [e], batch], [[d], [e], batch]);
  }

  /** Exactly when an account converges: if and only if AccountDecides, given that every update counts. */
  lemma AccountConvergesIff(a: AccountState, changes: set<Change>, k: Key)
    requires forall d :: d in changes && Updates(d, k) ==> Counts(d, k)
    ensures AccountConvergent(a, changes, k) <==> AccountDecides(a, changes, k)
  {
    if AccountDecides(a, changes, k) {
      forall h1, h2 | ChangesOf(h1) == changes && ChangesOf(h2) == changes
        ensures ReplayAccount(a, h1, k) == ReplayAccount(a, h2, k)
      {
        AccountDecidesConverges(a, changes, k, h1, h2);
      }
    } else if c, d :| LiveTop(a, changes, k, c) && LiveTop(a, changes, k, d) && ImageOf(d) != ImageOf(c) {
      TieDiverges(a, changes, k, c, d);
    } else {
      var c, d, e :| LiveTop(a, changes, k, c) && d in changes && Live(a, d, k)
        && e in changes && Counts(e, k) && e.at > c.at && !Idle(a, d);
      EventDiverges(a, changes, k, c, d, e);
    }
  }

  /**
   * A state event that only records (a manual operation whose synchronous insert
   * failed) counts for the guard without updating the row, so with it the order
   * of commits decides.
   */
  lemma RecordedOnlyEventMatters(ban: Change, unban: Change)
    requires ban == Change(1, 3, Account, Some(7), Banned, None, true, "", "", "", false, false, true)
    requires unban == Change(2, 5, Account, Some(7), Active, None, false, "", "", "", false, false, false)
    ensures var a, k := AccountState(Image(Active, "", None, None), 0, {}), Key(Account, 7);
            && ReplayAccount(a, [[ban], [unban]], k).image.state == Banned
            && ReplayAccount(a, [[unban], [ban]], k).image.state == Active
  {
    var a, k := AccountState(Image(Active, "", None, None), 0, {}), Key(Account, 7);
    LatestOfOne(ban, k);
    LatestOfOne(unban, k);
    assert [[ban], [unban]][..1] == [[ban]] && [[unban], [ban]][..1] == [[unban]];
    assert ReplayAccount(a, [[ban]], k) == ApplyAccountBatch(a, [ban], k);
    assert ReplayAccount(a, [[unban]], k) == ApplyAccountBatch(a, [unban], k);
    assert unban in ReplayAccount(a, [[unban]], k).log;
  }
}
