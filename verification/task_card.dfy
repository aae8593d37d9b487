/** The quest card (src/components/TaskCard.tsx): the status pipeline a card's
    attack button follows, the AC bands that pick its monster and colour, and
    how a finished dice roll is handed to the store. */
module TaskCard {
  import opened Wrappers
  import opened GameStore
  import opened GameStoreProperties

  /** The `flow` table: the status a card's attack aims at; `done` has none. */
  function NextStatus(s: Status): (r: Option<Status>)
    ensures r.None? <==> s == Done
    ensures r.Some? ==> r.value != Backlog && r.value != s
  {
    match s
    case Backlog => Some(Todo)
    case Todo => Some(InProgress)
    case InProgress => Some(Review)
    case Review => Some(Done)
    case Done => None
  }

  /** A status's position in the pipeline, from 0 (backlog) to 4 (done). */
  function Stage(s: Status): nat
  {
    match s
    case Backlog => 0
    case Todo => 1
    case InProgress => 2
    case Review => 3
    case Done => 4
  }

  /** Every status but `done` has a successor, one stage further on. */
  lemma NextStatusAdvancesOneStage(s: Status)
    ensures NextStatus(s).None? <==> s == Done
    ensures NextStatus(s).Some? ==> Stage(NextStatus(s).value) == Stage(s) + 1
  {
  }

  /** The statuses a card passes through from `s` when each attack it launches
      moves it on: at most four steps, ending in `done`, never revisiting one. */
  function Journey(s: Status): (path: seq<Status>)
    decreases 4 - Stage(s)
    ensures |path| == 5 - Stage(s)
    ensures path[0] == s && path[|path| - 1] == Done
    ensures forall i :: 0 <= i < |path| - 1 ==> NextStatus(path[i]) == Some(path[i + 1])
    ensures forall i :: 0 <= i < |path| ==> Stage(path[i]) == Stage(s) + i
  {
    match NextStatus(s)
    case None => [s]
    case Some(t) => [s] + Journey(t)
  }

  /** The journey never comes back to a status it has left. */
  lemma JourneyNeverRevisits(s: Status)
    ensures forall i, j :: 0 <= i < j < |Journey(s)| ==> Journey(s)[i] != Journey(s)[j]
  {
    var path := Journey(s);
    forall i, j | 0 <= i < j < |path| ensures path[i] != path[j] {
      assert Stage(path[i]) == Stage(s) + i && Stage(path[j]) == Stage(s) + j;
    }
  }

  // ---------------------------------------------------------------------------
  // AC bands

  /** How many of the cut points 8, 12, 15 and 18 an AC reaches: 0 for the
      easiest band, 4 for the hardest. */
  function Band(ac: int): nat
  {
    (if ac >= 8 then 1 else 0) + (if ac >= 12 then 1 else 0)
      + (if ac >= 15 then 1 else 0) + (if ac >= 18 then 1 else 0)
  }

  lemma BandMonotone(a: int, b: int)
    requires a <= b
    ensures Band(a) <= Band(b) <= 4
  {
  }

  const Icons: seq<string> := ["🐀", "🐺", "🧟", "👹", "🐉"]
  const Colors: seq<string> := ["text-gray-600", "text-green-600", "text-yellow-600", "text-orange-600", "text-red-600"]

  /** `getMonsterIcon`: a rat below AC 8 up to a dragon from AC 18. */
  function MonsterIcon(ac: int): (r: string)
    ensures r in Icons
    ensures r == Icons[0] <==> ac < 8
    ensures r == Icons[4] <==> ac >= 18
  {
    if ac >= 18 then "🐉"
    else if ac >= 15 then "👹"
    else if ac >= 12 then "🧟"
    else if ac >= 8 then "🐺"
    else "🐀"
  }

  /** `getDifficultyColor`: grey below AC 8 up to red from AC 18. */
  function DifficultyColor(ac: int): (r: string)
    ensures r in Colors
    ensures r == Colors[0] <==> ac < 8
    ensures r == Colors[4] <==> ac >= 18
  {
    if ac >= 18 then "text-red-600"
    else if ac >= 15 then "text-orange-600"
    else if ac >= 12 then "text-yellow-600"
    else if ac >= 8 then "text-green-600"
    else "text-gray-600"
  }

  /** The icon and the colour are both read off the AC's band. */
  lemma IconAndColorFollowBand(ac: int)
    ensures Band(ac) < |Icons| && MonsterIcon(ac) == Icons[Band(ac)]
    ensures Band(ac) < |Colors| && DifficultyColor(ac) == Colors[Band(ac)]
  {
  }

  /** Icon and colour use the same bands: two ACs share an icon exactly when
      they share a colour. */
  lemma ColorBandsAreIconBands(a: int, b: int)
    ensures MonsterIcon(a) == MonsterIcon(b) <==> DifficultyColor(a) == DifficultyColor(b)
    ensures MonsterIcon(a) == MonsterIcon(b) <==> Band(a) == Band(b)
  {
    IconAndColorFollowBand(a);
    IconAndColorFollowBand(b);
  }

  // ---------------------------------------------------------------------------
  // The attack button and the dice roll

  /** The card's UI state that decides what the dice roller attacks. */
  class Card {
    var targetStatus: Status
    var showDiceRoller: bool

    constructor ()
      ensures targetStatus == Todo && !showDiceRoller
    {
      targetStatus := Todo;
      showDiceRoller := false;
    }

    /** `handleMoveAttempt`: aim at the next status and open the dice roller;
        a `done` task has no next status and nothing happens. */
    method HandleMoveAttempt(task: Task)
      modifies this
      ensures NextStatus(task.status).Some? ==>
                targetStatus == NextStatus(task.status).value && showDiceRoller
      ensures NextStatus(task.status).None? ==>
                targetStatus == old(targetStatus) && showDiceRoller == old(showDiceRoller)
    {
      var next := NextStatus(task.status);
      if next.Some? {
        targetStatus := next.value;
        showDiceRoller := true;
      }
    }

    /** `handleDiceRoll`: the roller's `result` is ignored; the store rolls
        again (`base` is its draw) and that roll alone decides the outcome. */
    method HandleDiceRoll(store: Store, task: Task, result: int, base: int, now: Time)
      requires store.Valid()
      requires 1 <= base <= store.diceType
      modifies store
      ensures store.Valid()
      ensures store.Snapshot()
           == Attempted(old(store.Snapshot()), task.id, targetStatus,
                        base + ClassBonus(old(store.character).characterClass), now).board
      ensures store.Settings() == old(store.Settings())
    {
      var _ := store.AttemptMoveTask(task.id, targetStatus, base, now);
    }
  }

  /** An attack launched from a card (aimed at the task's next status) never
      moves a task backwards: it either stays where it is or advances exactly
      one stage, and a task that stays has lost one HP or nothing. */
  lemma CardAttackNeverRetreats(b: Board, id: TaskId, roll: int, now: Time)
    requires FindTask(b.tasks, id).Some?
    requires NextStatus(FindTask(b.tasks, id).value.status).Some?
    ensures var t := FindTask(b.tasks, id).value;
            var r := Attempted(b, id, NextStatus(t.status).value, roll, now);
            && t.status != Done
            && FindTask(r.board.tasks, id).Some?
            && var t' := FindTask(r.board.tasks, id).value;
               && (t'.status == t.status || Stage(t'.status) == Stage(t.status) + 1)
               && (t'.status == t.status ==> t'.currentHp == t.currentHp || t'.currentHp == t.currentHp - 1)
  {
    var t := FindTask(b.tasks, id).value;
    var s := NextStatus(t.status).value;
    NextStatusAdvancesOneStage(t.status);
    if roll < t.armorClass {
    } else if s != Done {
      AttemptAdvances(b, id, s, roll, now);
    } else if t.currentHp > 1 {
      AttemptDamages(b, id, roll, now);
    } else {
      AttemptSlays(b, id, roll, now);
    }
  }
}
