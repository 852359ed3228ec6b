/**
 * The state writer end to end: the batches its runs commit, replayed in commit order
 * on the rows they update.
 */
module StateWriterRows {
  import opened Salvaging
  import opened StateChanges
  import opened StateWriters
  import W = StateWriterRuns
  import opened StateUpdates
  import R = StateRows

  /** The updates built from the batches a run committed, in order. */
  type Outs = seq<map<Kind, seq<Change>>>

  /** The row of an identity or a proxy after a run. */
  function RowAfter(outs: Outs, row: R.Row, k: Key): R.Row {
    R.ReplayUpdates(row, outs, k)
  }

  /** A change that counts as written is not newer than the row of its subject. */
  lemma WrittenReachesRow(cfg: Config, run: seq<W.State>, steps: seq<W.Step>, i: nat, outs: Outs, row: R.Row, k: Key,
                          c: Change)
    requires W.IsRun(cfg, run, steps) && i < |run| && R.UpdatesOf(outs, run[i].committed)
    requires Settled(c, true) in run[i].settled && Updates(c, k) && !k.kind.Account?
    ensures c.at <= RowAfter(outs, row, k).changedAt
  {
    W.EveryChangeInOnePlace(cfg, run, steps, i, c);
    R.RowShowsNewest(row, outs, run[i].committed, k);
  }

  /** The account and its event log after a run. */
  function AccountAfter(s: W.State, outs: Outs, a: R.AccountState, k: Key): R.AccountState
    requires |outs| == |s.committed|
  {
    R.ReplayAccountUpdates(a, outs, s.committed, k)
  }

  /** A change of a known subject that counts as written, of an account too, is in the event log. */
  lemma WrittenIsLogged(cfg: Config, run: seq<W.State>, steps: seq<W.Step>, i: nat, outs: Outs, a: R.AccountState,
                        k: Key, c: Change)
    requires W.IsRun(cfg, run, steps) && i < |run| && R.UpdatesOf(outs, run[i].committed)
    requires Settled(c, true) in run[i].settled && c.subject.Some?
    ensures c in AccountAfter(run[i], outs, a, k).log
  {
    W.EveryChangeInOnePlace(cfg, run, steps, i, c);
    R.AccountUpdatesReplay(a, outs, run[i].committed, k);
    R.LogHolds(a, run[i].committed, k, c);
  }

  /** Every update of the account that was committed also counts for the account rule. */
  ghost predicate UpdatesCount(s: W.State, k: Key) {
    forall d :: d in R.ChangesOf(s.committed) && Updates(d, k) ==> R.Counts(d, k)
  }

  /** The same for accounts: the row carries a change of that time, or a newer counted event is in the log. */
  lemma WrittenReachesAccount(cfg: Config, run: seq<W.State>, steps: seq<W.Step>, i: nat, outs: Outs,
                              a: R.AccountState, k: Key, c: Change)
    requires W.IsRun(cfg, run, steps) && i < |run| && R.UpdatesOf(outs, run[i].committed) && UpdatesCount(run[i], k)
    requires Settled(c, true) in run[i].settled && Updates(c, k)
    ensures R.NotBehind(AccountAfter(run[i], outs, a, k), k, c)
  {
    W.EveryChangeInOnePlace(cfg, run, steps, i, c);
    R.AccountUpdatesReplay(a, outs, run[i].committed, k);
    R.AccountNotBehind(a, run[i].committed, k, c);
  }

  /** The change has not reached the database yet. */
  predicate OnItsWay(s: W.State, c: Change) {
    c in s.callers || c in s.q.lifecycle || c in s.q.events || c in W.InHand(s.flush) || c in s.carry
  }

  /** The change was given up: lost on the way in, or rejected by the database. */
  predicate GivenUp(s: W.State, c: Change) {
    c in s.lost || Settled(c, false) in s.settled
  }

  lemma InSettled(settled: seq<Settled<Change>>, c: Change)
    requires c in Changes(settled)
    ensures Settled(c, true) in settled || Settled(c, false) in settled
  {
    var i :| 0 <= i < |settled| && Changes(settled)[i] == c;
    assert settled[i] == Settled(c, settled[i].written);
  }

  /** How many changes were given up. */
  function Losses(s: W.State): int {
    |s.lost| + |s.settled| - W.CountWritten(s.settled)
  }

  /** The subject's row, or the account with its log, has taken the change into account. */
  ghost predicate Reached(s: W.State, outs: Outs, row: R.Row, a: R.AccountState, k: Key, c: Change)
    requires |outs| == |s.committed|
  {
    if k.kind.Account? then R.NotBehind(AccountAfter(s, outs, a, k), k, c)
    else c.at <= RowAfter(outs, row, k).changedAt
  }

  /**
   * No state change is lost silently: whatever enqueuers, flushes, retries, salvage and
   * shutdown did, each change that arrived is on its way, was given up, or has reached
   * its subject, and what was given up is in the Dropped counter or about to be counted.
   */
  lemma NothingLostSilently(cfg: Config, run: seq<W.State>, steps: seq<W.Step>, i: nat, outs: Outs, row: R.Row,
                            a: R.AccountState, k: Key, c: Change)
    requires W.IsRun(cfg, run, steps) && i < |run| && R.UpdatesOf(outs, run[i].committed)
    requires c in run[i].arrived && Updates(c, k)
    requires k.kind.Account? ==> UpdatesCount(run[i], k)
    ensures OnItsWay(run[i], c) || GivenUp(run[i], c) || Reached(run[i], outs, row, a, k, c)
    ensures run[i].dropped + run[i].uncounted == Losses(run[i])
  {
    var s := run[i];
    W.RunKeeps(cfg, run, steps, i);
    W.EveryChangeInOnePlace(cfg, run, steps, i, c);
    if c in Changes(s.settled) {
      InSettled(s.settled, c);
      if Settled(c, true) in s.settled {
        if k.kind.Account? {
          WrittenReachesAccount(cfg, run, steps, i, outs, a, k, c);
        } else {
          WrittenReachesRow(cfg, run, steps, i, outs, row, k, c);
        }
      }
    }
  }
}
