/** What the store's actions promise, proved about the functions that give
    their meaning in module GameStore. */
module GameStoreProperties {
  import opened Wrappers
  import opened GameStore

  // ---------------------------------------------------------------------------
  // The action log

  /** The log after `addLog` has been called with each entry of `entries`, in order. */
  function LoggedAll(log: seq<LogEntry>, entries: seq<LogEntry>): seq<LogEntry>
  {
    if entries == [] then log
    else Logged(LoggedAll(log, entries[..|entries| - 1]), entries[|entries| - 1])
  }

  /** However many entries are logged, the log holds at most 50, and the ones
      logged last come first, newest to oldest. */
  lemma {:induction false} LogNewestFirst(log: seq<LogEntry>, entries: seq<LogEntry>)
    requires |log| <= MaxLog
    ensures |LoggedAll(log, entries)| == Min(|log| + |entries|, MaxLog)
    ensures forall i :: 0 <= i < Min(|entries|, MaxLog) ==>
              LoggedAll(log, entries)[i] == entries[|entries| - 1 - i]
  {
    if entries != [] {
      var front := entries[..|entries| - 1];
      LogNewestFirst(log, front);
      var before := LoggedAll(log, front);
      var after := LoggedAll(log, entries);
      assert after == Logged(before, entries[|entries| - 1]);
      forall i | 0 <= i < Min(|entries|, MaxLog)
        ensures after[i] == entries[|entries| - 1 - i]
      {
        if i > 0 {
          assert after[i] == after[1..][i - 1] == before[i - 1];
          assert before[i - 1] == front[|front| - 1 - (i - 1)];
        }
      }
    }
  }

  // ---------------------------------------------------------------------------
  // XP and levels

  /** `gainXp` adds the XP and raises the level by exactly one when the new XP
      reaches the threshold, never by more, whatever the overshoot. */
  lemma AwardRaisesLevelAtMostOnce(c: Character, amount: int)
    ensures Awarded(c, amount).xp == c.xp + amount
    ensures Awarded(c, amount).level == c.level + 1 <==> c.xp + amount >= c.xpToNext
    ensures Awarded(c, amount).level == c.level <==> c.xp + amount < c.xpToNext
    ensures c.xp + amount >= c.xpToNext ==> Awarded(c, amount).xpToNext == Awarded(c, amount).level * XpPerLevel
    ensures c.xp + amount < c.xpToNext ==> Awarded(c, amount).xpToNext == c.xpToNext
    ensures Awarded(c, amount).name == c.name && Awarded(c, amount).characterClass == c.characterClass
    ensures Awarded(c, amount).abilities == c.abilities
  {
  }

  lemma AwardKeepsCharacterValid(c: Character, amount: int)
    requires CharacterValid(c)
    ensures CharacterValid(Awarded(c, amount))
  {
  }

  /** A character at level 1 with 90 of 100 XP who gains 20 XP reaches
      level 2 with 110 XP and a next threshold of 200. */
  lemma AwardExample()
    ensures Awarded(Character("Aventureiro", Warrior, 1, 90, 100, []), 20)
         == Character("Aventureiro", Warrior, 2, 110, 200, [])
  {
  }

  /** Gaining 350 XP at once from 0 crosses three thresholds but yields a
      single level. */
  lemma AwardOvershootExample()
    ensures Awarded(InitialCharacter(), 350).level == 2
    ensures Awarded(InitialCharacter(), 350).xpToNext == 200
    ensures Awarded(InitialCharacter(), 350).xp == 350
  {
  }

  function AwardedAll(c: Character, amounts: seq<int>): Character
    decreases |amounts|
  {
    if amounts == [] then c else AwardedAll(Awarded(c, amounts[0]), amounts[1..])
  }

  function Sum(amounts: seq<int>): int
  {
    if amounts == [] then 0 else amounts[0] + Sum(amounts[1..])
  }

  /** Over any run of awards the XP is the sum of the awards, the level never
      drops and it rises by at most one per award. */
  lemma {:induction false} AwardsLevelBound(c: Character, amounts: seq<int>)
    ensures c.level <= AwardedAll(c, amounts).level <= c.level + |amounts|
    ensures AwardedAll(c, amounts).xp == c.xp + Sum(amounts)
    ensures CharacterValid(c) ==> CharacterValid(AwardedAll(c, amounts))
    decreases |amounts|
  {
    if amounts != [] {
      AwardsLevelBound(Awarded(c, amounts[0]), amounts[1..]);
    }
  }

  // ---------------------------------------------------------------------------
  // The task list

  ghost predicate IdsDistinct(tasks: seq<Task>)
  {
    forall i, j :: 0 <= i < j < |tasks| ==> tasks[i].id != tasks[j].id
  }

  /** Every task has between 1 and its maximum HP. */
  ghost predicate HpInRange(tasks: seq<Task>)
  {
    forall i :: 0 <= i < |tasks| ==> 1 <= tasks[i].currentHp <= tasks[i].hitPoints
  }

  /** A patch that leaves the id alone leaves every lookup by id where it was. */
  lemma {:induction false} IndexAfterUpdate(tasks: seq<Task>, id: TaskId, p: TaskPatch, key: TaskId)
    requires p.id.None?
    ensures TaskIndex(Updated(tasks, id, p), key) == TaskIndex(tasks, key)
  {
    if tasks != [] {
      var u := Updated(tasks, id, p);
      assert u[1..] == Updated(tasks[1..], id, p);
      IndexAfterUpdate(tasks[1..], id, p, key);
    }
  }

  /** After `updateTask(id, p)`, looking up `id` finds the patched task and
      looking up any other id finds what it found before. */
  lemma FindAfterUpdate(tasks: seq<Task>, id: TaskId, p: TaskPatch, key: TaskId)
    requires p.id.None?
    ensures FindTask(tasks, key).None? ==> FindTask(Updated(tasks, id, p), key).None?
    ensures FindTask(tasks, key).Some? && key == id ==>
              FindTask(Updated(tasks, id, p), key) == Some(Applied(FindTask(tasks, key).value, p))
    ensures key != id ==> FindTask(Updated(tasks, id, p), key) == FindTask(tasks, key)
  {
    IndexAfterUpdate(tasks, id, p, key);
  }

  /** With distinct ids, `updateTask` changes exactly the one task with the id. */
  lemma UpdateTouchesOneTask(tasks: seq<Task>, id: TaskId, p: TaskPatch, i: nat)
    requires IdsDistinct(tasks)
    requires TaskIndex(tasks, id) == Some(i)
    ensures Updated(tasks, id, p) == tasks[i := Applied(tasks[i], p)]
  {
  }

  lemma UpdateKeepsIds(tasks: seq<Task>, id: TaskId, p: TaskPatch)
    requires p.id.None?
    requires IdsDistinct(tasks)
    ensures IdsDistinct(Updated(tasks, id, p))
  {
    var u := Updated(tasks, id, p);
    forall i, j | 0 <= i < j < |u| ensures u[i].id != u[j].id {
      assert u[i].id == tasks[i].id && u[j].id == tasks[j].id;
    }
  }

  /** `deleteTask` works piecewise, so the kept tasks keep their order. */
  lemma {:induction false} RemovedSplits(a: seq<Task>, b: seq<Task>, id: TaskId)
    ensures Removed(a + b, id) == Removed(a, id) + Removed(b, id)
  {
    if a != [] {
      assert (a + b)[1..] == a[1..] + b;
      RemovedSplits(a[1..], b, id);
    } else {
      assert a + b == b;
    }
  }

  /** Deleting an id no task has leaves the list as it was. */
  lemma {:induction false} RemovedNoMatch(tasks: seq<Task>, id: TaskId)
    requires forall t :: t in tasks ==> t.id != id
    ensures Removed(tasks, id) == tasks
  {
    if tasks != [] {
      assert tasks[0] in tasks;
      assert forall t :: t in tasks[1..] ==> t in tasks;
      RemovedNoMatch(tasks[1..], id);
      assert [tasks[0]] + tasks[1..] == tasks;
    }
  }

  /** A task built by `addTask` starts with all its HP and is the one found
      under its id; a fresh id keeps ids distinct and the log stays capped. */
  lemma AddedKeepsInvariants(b: Board, data: TaskData, id: TaskId, now: Time)
    requires BoardValid(b) && IdsDistinct(b.tasks) && HpInRange(b.tasks)
    requires forall t :: t in b.tasks ==> t.id != id
    requires data.hitPoints >= 1
    ensures BoardValid(Added(b, data, id, now))
    ensures IdsDistinct(Added(b, data, id, now).tasks)
    ensures HpInRange(Added(b, data, id, now).tasks)
    ensures FindTask(Added(b, data, id, now).tasks, id) == Some(NewTask(data, id, now))
    ensures NewTask(data, id, now).currentHp == data.hitPoints
  {
    var ts := Added(b, data, id, now).tasks;
    assert ts == b.tasks + [NewTask(data, id, now)];
    forall i, j | 0 <= i < j < |ts| ensures ts[i].id != ts[j].id {
      if j == |b.tasks| {
        assert ts[i] in b.tasks;
      }
    }
    forall k | 0 <= k < |b.tasks| ensures ts[k].id != id {
      assert ts[k] in b.tasks;
    }
    assert ts[|b.tasks|].id == id;
  }

  /** The seed quests start in the backlog at full HP. */
  lemma InitialTasksFresh(now: Time)
    ensures HpInRange(InitialTasks(now))
    ensures forall t :: t in InitialTasks(now) ==> t.status == Backlog && t.currentHp == t.hitPoints
  {
  }

  /** The seed quests have distinct ids. */
  lemma InitialIdsDistinct(now: Time)
    ensures IdsDistinct(InitialTasks(now))
  {
  }

  lemma InitialCharacterValid()
    ensures CharacterValid(InitialCharacter()) && InitialCharacter().level == 1 && InitialCharacter().xp == 0
  {
  }

  // ---------------------------------------------------------------------------
  // moveTask

  /** `moveTask` on an unknown id changes nothing; otherwise it sets the status,
      and XP is awarded (with the completion time set) exactly when the task
      enters `done` from another status. */
  lemma MoveAwardsOnlyOnEntry(b: Board, id: TaskId, s: Status, now: Time)
    ensures FindTask(b.tasks, id).None? ==> Moved(b, id, s, now) == b
    ensures FindTask(b.tasks, id).Some? ==>
              var t := FindTask(b.tasks, id).value;
              var entering := s == Done && t.status != Done;
              && Moved(b, id, s, now).character == (if entering then Awarded(b.character, t.xpReward) else b.character)
              && FindTask(Moved(b, id, s, now).tasks, id)
                 == Some(t.(status := s, completedAt := if entering then Some(now) else t.completedAt))
  {
    if FindTask(b.tasks, id).Some? {
      var t := FindTask(b.tasks, id).value;
      if s == Done && t.status != Done {
        FindAfterUpdate(b.tasks, id, StatusPatch(s).(completedAt := Some(now)), id);
      } else {
        FindAfterUpdate(b.tasks, id, StatusPatch(s), id);
      }
    }
  }

  /** Completing the same task twice awards its XP once. */
  lemma CompletionAwardsOnce(b: Board, id: TaskId, now1: Time, now2: Time)
    ensures Moved(Moved(b, id, Done, now1), id, Done, now2).character == Moved(b, id, Done, now1).character
  {
    MoveAwardsOnlyOnEntry(b, id, Done, now1);
    MoveAwardsOnlyOnEntry(Moved(b, id, Done, now1), id, Done, now2);
  }

  lemma MoveKeepsInvariants(b: Board, id: TaskId, s: Status, now: Time)
    requires BoardValid(b) && IdsDistinct(b.tasks) && HpInRange(b.tasks)
    ensures BoardValid(Moved(b, id, s, now))
    ensures IdsDistinct(Moved(b, id, s, now).tasks) && HpInRange(Moved(b, id, s, now).tasks)
  {
    if FindTask(b.tasks, id).Some? {
      var t := FindTask(b.tasks, id).value;
      if s == Done && t.status != Done {
        UpdateKeepsIds(b.tasks, id, StatusPatch(s).(completedAt := Some(now)));
      } else {
        UpdateKeepsIds(b.tasks, id, StatusPatch(s));
      }
    }
  }

  // ---------------------------------------------------------------------------
  // attemptMoveTask

  /** Every attempt on a known task logs exactly one roll entry, carrying the
      roll and the success flag. A failure logs nothing else; a success logs
      one more entry, a move entry, in front of it. The older entries follow,
      cut to the cap. */
  lemma AttemptLogsOneRoll(b: Board, id: TaskId, s: Status, roll: int, now: Time)
    requires FindTask(b.tasks, id).Some?
    ensures var t := FindTask(b.tasks, id).value;
            var r := Attempted(b, id, s, roll, now);
            var e := RollEntry(roll, t, r.success);
            && e.kind == RollLog && e.diceRoll == Some(roll) && e.success == Some(roll >= t.armorClass)
            && (!r.success ==> r.board.actionLog == Logged(b.actionLog, e))
            && (r.success ==>
                  && |r.board.actionLog| >= 2
                  && r.board.actionLog[0].kind == MoveLog
                  && r.board.actionLog[1] == e
                  && r.board.actionLog[2..] == b.actionLog[..Min(|b.actionLog|, MaxLog - 2)])
  {
    var t := FindTask(b.tasks, id).value;
    var r := Attempted(b, id, s, roll, now);
    var e := RollEntry(roll, t, r.success);
    if r.success {
      var rolled := b.(actionLog := Logged(b.actionLog, e));
      var second: LogEntry;
      if s == Done && t.currentHp - 1 > 0 {
        second := MoveEntry(QuestDamaged(t.name, t.currentHp - 1, t.hitPoints));
      } else if s == Done && t.status != Done {
        second := MoveEntry(QuestCompleted(t.name, t.xpReward));
      } else {
        second := MoveEntry(QuestMoved(t.name, s));
      }
      assert r.board.actionLog == Logged(rolled.actionLog, second);
      var l1 := rolled.actionLog;
      var l2 := r.board.actionLog;
      assert l2[2..] == l2[1..][1..] == l1[..|l2| - 1][1..];
      assert l1[..|l2| - 1][1..] == l1[1..][..|l2| - 2];
    }
  }

  /** A successful attack toward any status but `done` moves the task there
      and changes neither the other tasks' data nor the character. */
  lemma AttemptAdvances(b: Board, id: TaskId, s: Status, roll: int, now: Time)
    requires FindTask(b.tasks, id).Some? && roll >= FindTask(b.tasks, id).value.armorClass
    requires s != Done
    ensures var r := Attempted(b, id, s, roll, now);
            && r.success
            && r.board.tasks == Updated(b.tasks, id, StatusPatch(s))
            && r.board.character == b.character
            && FindTask(r.board.tasks, id) == Some(FindTask(b.tasks, id).value.(status := s))
  {
    FindAfterUpdate(b.tasks, id, StatusPatch(s), id);
  }

  /** A successful attack toward `done` on a task with more than one HP left
      only removes one HP: the status stays, no XP is awarded, and a damage
      entry with the new HP follows the roll entry in the log. */
  lemma AttemptDamages(b: Board, id: TaskId, roll: int, now: Time)
    requires FindTask(b.tasks, id).Some? && roll >= FindTask(b.tasks, id).value.armorClass
    requires FindTask(b.tasks, id).value.currentHp > 1
    ensures var t := FindTask(b.tasks, id).value;
            var r := Attempted(b, id, Done, roll, now);
            && r.success
            && r.board.tasks == Updated(b.tasks, id, HpPatch(t.currentHp - 1))
            && r.board.character == b.character
            && FindTask(r.board.tasks, id) == Some(t.(currentHp := t.currentHp - 1))
            && r.board.actionLog
               == Logged(Logged(b.actionLog, RollEntry(roll, t, true)),
                         MoveEntry(QuestDamaged(t.name, t.currentHp - 1, t.hitPoints)))
  {
    var t := FindTask(b.tasks, id).value;
    FindAfterUpdate(b.tasks, id, HpPatch(t.currentHp - 1), id);
  }

  /** A successful attack toward `done` on a task with one HP (or none) left
      completes it; its XP is awarded only if it was not already done. */
  lemma AttemptSlays(b: Board, id: TaskId, roll: int, now: Time)
    requires FindTask(b.tasks, id).Some? && roll >= FindTask(b.tasks, id).value.armorClass
    requires FindTask(b.tasks, id).value.currentHp <= 1
    ensures var t := FindTask(b.tasks, id).value;
            var r := Attempted(b, id, Done, roll, now);
            && r.success
            && FindTask(r.board.tasks, id).Some?
            && FindTask(r.board.tasks, id).value.status == Done
            && FindTask(r.board.tasks, id).value.currentHp == t.currentHp
            && r.board.character == (if t.status != Done then Awarded(b.character, t.xpReward) else b.character)
  {
    var t := FindTask(b.tasks, id).value;
    var rolled := b.(actionLog := Logged(b.actionLog, RollEntry(roll, t, true)));
    MoveAwardsOnlyOnEntry(rolled, id, Done, now);
  }

  /** Attacking a task that is already done never awards XP. */
  lemma AttemptOnDoneAwardsNothing(b: Board, id: TaskId, s: Status, roll: int, now: Time)
    requires FindTask(b.tasks, id).Some? && FindTask(b.tasks, id).value.status == Done
    ensures Attempted(b, id, s, roll, now).board.character == b.character
  {
    var t := FindTask(b.tasks, id).value;
    var rolled := b.(actionLog := Logged(b.actionLog, RollEntry(roll, t, roll >= t.armorClass)));
    MoveAwardsOnlyOnEntry(rolled, id, s, now);
  }

  /** Attempts keep the log capped, the character's thresholds, distinct ids
      and every task's HP between 1 and its maximum. */
  lemma AttemptKeepsInvariants(b: Board, id: TaskId, s: Status, roll: int, now: Time)
    requires BoardValid(b) && IdsDistinct(b.tasks) && HpInRange(b.tasks)
    ensures BoardValid(Attempted(b, id, s, roll, now).board)
    ensures IdsDistinct(Attempted(b, id, s, roll, now).board.tasks)
    ensures HpInRange(Attempted(b, id, s, roll, now).board.tasks)
  {
    match FindTask(b.tasks, id)
    case None =>
    case Some(t) =>
      var success := roll >= t.armorClass;
      var rolled := b.(actionLog := Logged(b.actionLog, RollEntry(roll, t, success)));
      if success {
        if s == Done && t.currentHp - 1 > 0 {
          var i := TaskIndex(b.tasks, id).value;
          UpdateTouchesOneTask(b.tasks, id, HpPatch(t.currentHp - 1), i);
          UpdateKeepsIds(b.tasks, id, HpPatch(t.currentHp - 1));
        } else {
          MoveKeepsInvariants(rolled, id, s, now);
        }
      }
  }
}
