/**
 The pending occupancy change that a thread keeps for every node (NodeInfo::getOccChange,
 incOccChange and decOccChange, src/db/routeNode.h). A stamp tells which batch the stored
 number belongs to, so that nothing is ever cleared.
 */
module OccChange {

  datatype Change = Change(occChange: int, stamp: int)

  function Get(c: Change, batch: int): int { if batch != c.stamp then 0 else c.occChange }

  function Inc(c: Change, batch: int): Change {
    if batch != c.stamp then Change(1, batch) else c.(occChange := c.occChange + 1)
  }

  function Dec(c: Change, batch: int): Change {
    if batch != c.stamp then Change(-1, batch) else c.(occChange := c.occChange - 1)
  }

  /** One update, made during the given batch. */
  datatype Update = Update(up: bool, batch: int)

  function After(c: Change, history: seq<Update>): Change {
    if |history| == 0 then c
    else
      var before, u := After(c, history[..|history| - 1]), history[|history| - 1];
      if u.up then Inc(before, u.batch) else Dec(before, u.batch)
  }

  /** What an entry set to zero at the start of the batch would hold. */
  function Balance(history: seq<Update>, batch: int): int {
    if |history| == 0 then 0
    else
      var u := history[|history| - 1];
      Balance(history[..|history| - 1], batch) + (if u.batch != batch then 0 else if u.up then 1 else -1)
  }

  /** Stamps never go back, and begin after the initial one. */
  predicate Ordered(first: int, history: seq<Update>, batch: int) {
    && first < batch
    && (forall i :: 0 <= i < |history| ==> first < history[i].batch <= batch)
    && (forall i, j :: 0 <= i < j < |history| ==> history[i].batch <= history[j].batch)
  }

  lemma {:induction false} StampFollows(c: Change, history: seq<Update>)
    ensures After(c, history).stamp == if |history| == 0 then c.stamp else history[|history| - 1].batch
  {
  }

  lemma {:induction false} NoBalanceYet(history: seq<Update>, batch: int)
    requires forall i :: 0 <= i < |history| ==> history[i].batch != batch
    ensures Balance(history, batch) == 0
  {
    if |history| > 0 { NoBalanceYet(history[..|history| - 1], batch); }
  }

  /**
   For stamps that never go back, the entry that is never cleared reads like one that is set
   to zero before every batch.
   */
  lemma {:induction false} ReadsAsCleared(c: Change, history: seq<Update>, batch: int)
    requires Ordered(c.stamp, history, batch)
    ensures Get(After(c, history), batch) == Balance(history, batch)
  {
    if |history| > 0 {
      var last := |history| - 1;
      var front, u := history[..last], history[last];
      StampFollows(c, front);
      if u.batch == batch {
        ReadsAsCleared(c, front, batch);
      } else {
        NoBalanceYet(history, batch);
      }
    }
  }
}
