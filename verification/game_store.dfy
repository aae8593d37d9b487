/** The game store of the quest board (src/store/gameStore.ts): a list of tasks
    ("quests") that are attacked with dice rolls, one character that gains XP and
    levels, an action log capped at 50 entries and a mage spell counter.

    The pure functions below give the meaning of every store action on the
    values it touches; `class Store` holds the store's fields and its methods
    replace them step by step, as the source's actions do through `set(...)`,
    and are proved against those functions. */
module GameStore {
  import opened Wrappers

  /** Task and sprint ids come from `crypto.randomUUID`; the model takes them as inputs. */
  type TaskId = string
  type SprintId = string
  /** A timestamp (`new Date()`), opaque: the model takes it as an input. */
  type Time = int

  const MaxLog: nat := 50
  const MaxSpells: nat := 3
  const XpPerLevel: nat := 100
  const DefaultDiceType: nat := 20

  function Min(a: int, b: int): int { if a <= b then a else b }

  // ---------------------------------------------------------------------------
  // Entities

  datatype Status = Backlog | Todo | InProgress | Review | Done

  datatype CharacterClass = Warrior | Mage | Rogue

  datatype Task = Task(
    id: TaskId,
    name: string,
    description: string,
    armorClass: int,
    hitPoints: int,
    currentHp: int,
    status: Status,
    xpReward: int,
    createdAt: Time,
    completedAt: Option<Time>)

  /** What a caller of `addTask` supplies: a task without its id and creation time. */
  datatype TaskData = TaskData(
    name: string,
    description: string,
    armorClass: int,
    hitPoints: int,
    currentHp: int,
    status: Status,
    xpReward: int,
    completedAt: Option<Time>)

  /** A `Partial<Task>`: every present field overwrites the task's field. */
  datatype TaskPatch = TaskPatch(
    id: Option<TaskId>,
    name: Option<string>,
    description: Option<string>,
    armorClass: Option<int>,
    hitPoints: Option<int>,
    currentHp: Option<int>,
    status: Option<Status>,
    xpReward: Option<int>,
    createdAt: Option<Time>,
    completedAt: Option<Time>)

  datatype Character = Character(
    name: string,
    characterClass: CharacterClass,
    level: int,
    xp: int,
    xpToNext: int,
    abilities: seq<string>)

  datatype Sprint = Sprint(
    id: SprintId,
    name: string,
    description: string,
    startDate: Time,
    endDate: Time,
    tasks: seq<TaskId>,
    isActive: bool)

  /** What a caller of `createSprint` supplies: a sprint without its id. */
  datatype SprintData = SprintData(
    name: string,
    description: string,
    startDate: Time,
    endDate: Time,
    tasks: seq<TaskId>,
    isActive: bool)

  datatype LogKind = RollLog | MoveLog | LevelUpLog | SprintLog

  /** The message of a log entry: which of the source's message templates, with
      the values it interpolates. */
  datatype LogMessage =
    | QuestCreated(name: string, armorClass: int, hitPoints: int)
    | QuestCompleted(name: string, xpReward: int)
    | QuestMoved(name: string, to: Status)
    | RollBeat(roll: int, armorClass: int, name: string)
    | RollFailed(roll: int, armorClass: int, name: string)
    | QuestDamaged(name: string, hp: int, maxHp: int)
    | LeveledUp(level: int)

  datatype LogEntry = LogEntry(
    kind: LogKind,
    message: LogMessage,
    diceRoll: Option<int>,
    success: Option<bool>)

  /** The `characterClasses` table. */
  datatype ClassInfo = ClassInfo(name: string, bonus: int, abilities: seq<string>)

  /** `characterClasses`: the warrior rolls with +2, the mage and the rogue
      with +1, and each class has three abilities. */
  function ClassTable(c: CharacterClass): (r: ClassInfo)
    ensures r.bonus == 2 <==> c == Warrior
    ensures 1 <= r.bonus <= 2 && |r.abilities| == 3
  {
    match c
    case Warrior => ClassInfo("Guerreiro", 2, ["Força Bruta", "Resistência", "Liderança"])
    case Mage => ClassInfo("Mago", 1, ["Reroll Spell", "Sabedoria Arcana", "Concentração"])
    case Rogue => ClassInfo("Ladino", 1, ["Sorte", "Agilidade", "Precisão"])
  }

  function ClassBonus(c: CharacterClass): int { ClassTable(c).bonus }

  // ---------------------------------------------------------------------------
  // Initial state

  function InitialTask(id: TaskId, name: string, description: string, ac: int, hp: int, xp: int, now: Time): Task
  {
    Task(id, name, description, ac, hp, hp, Backlog, xp, now, None)
  }

  /** The ten seed quests; all are created at the moment the store is built. */
  function InitialTasks(now: Time): seq<Task>
  {
    [ InitialTask("task-1", "Levantamento de Requisitos",
        "Definir funcionalidades e escopo do repositório de saberes", 8, 2, 80, now),
      InitialTask("task-2", "Modelagem do Banco de Dados",
        "Criar diagrama ER e estrutura das tabelas para armazenar conhecimentos", 12, 3, 120, now),
      InitialTask("task-3", "Implementar Sistema de Autenticação",
        "Desenvolver login/logout e controle de acesso de usuários", 15, 4, 150, now),
      InitialTask("task-4", "Criar Interface de Upload",
        "Tela para upload de documentos, vídeos e materiais de conhecimento", 10, 2, 100, now),
      InitialTask("task-5", "Sistema de Busca e Filtros",
        "Implementar busca textual e filtros por categoria, autor, data", 16, 5, 180, now),
      InitialTask("task-6", "Dashboard de Administração",
        "Painel para gestão de conteúdos, usuários e estatísticas", 13, 3, 130, now),
      InitialTask("task-7", "Sistema de Comentários",
        "Permitir comentários e discussões nos materiais compartilhados", 9, 2, 90, now),
      InitialTask("task-8", "Implementar Tags e Categorização",
        "Sistema de tags para organizar e categorizar o conhecimento", 11, 2, 110, now),
      InitialTask("task-9", "API RESTful",
        "Desenvolver endpoints para integração com outras aplicações", 14, 4, 160, now),
      InitialTask("task-10", "Testes Automatizados",
        "Criar suite de testes unitários e de integração", 17, 3, 170, now) ]
  }

  function InitialCharacter(): Character
  {
    Character("Aventureiro", Warrior, 1, 0, XpPerLevel, [ClassTable(Warrior).abilities[0]])
  }

  /** The character bookkeeping every action keeps: the level starts at 1 and
      the next threshold is always `level * 100`. */
  ghost predicate CharacterValid(c: Character)
  {
    c.level >= 1 && c.xpToNext == c.level * XpPerLevel
  }

  // ---------------------------------------------------------------------------
  // Log entries and `addLog`

  function RollEntry(roll: int, t: Task, success: bool): LogEntry
  {
    LogEntry(RollLog,
             if success then RollBeat(roll, t.armorClass, t.name) else RollFailed(roll, t.armorClass, t.name),
             Some(roll), Some(success))
  }

  function MoveEntry(m: LogMessage): LogEntry
  {
    LogEntry(MoveLog, m, None, None)
  }

  function LevelUpEntry(level: int): LogEntry
  {
    LogEntry(LevelUpLog, LeveledUp(level), None, None)
  }

  /** `addLog`: the new entry goes first and the log keeps its 50 most recent
      entries, the older ones in their old order. */
  function Logged(log: seq<LogEntry>, e: LogEntry): (r: seq<LogEntry>)
    ensures |r| == Min(|log| + 1, MaxLog)
    ensures r[0] == e
    ensures r[1..] == log[..|r| - 1]
  {
    ([e] + log)[..Min(|log| + 1, MaxLog)]
  }

  // ---------------------------------------------------------------------------
  // XP: `gainXp`

  /** `gainXp`: the XP is added; one threshold crossing raises the level by
      one and sets the next threshold to `level * 100`. */
  function Awarded(c: Character, amount: int): (r: Character)
    ensures r.xp == c.xp + amount
    ensures r.name == c.name && r.characterClass == c.characterClass && r.abilities == c.abilities
    ensures r.level == c.level || r.level == c.level + 1
  {
    var xp := c.xp + amount;
    if xp >= c.xpToNext then
      c.(xp := xp, level := c.level + 1, xpToNext := (c.level + 1) * XpPerLevel)
    else
      c.(xp := xp)
  }

  // ---------------------------------------------------------------------------
  // The task list: `find`, `updateTask`, `deleteTask`, `addTask`

  /** The index `tasks.find` stops at: the first task with the id. */
  function TaskIndex(tasks: seq<Task>, id: TaskId): (r: Option<nat>)
    ensures r.Some? ==> r.value < |tasks| && tasks[r.value].id == id
    ensures r.Some? ==> forall j :: 0 <= j < r.value ==> tasks[j].id != id
    ensures r.None? ==> forall j :: 0 <= j < |tasks| ==> tasks[j].id != id
  {
    if tasks == [] then None
    else if tasks[0].id == id then Some(0)
    else match TaskIndex(tasks[1..], id)
      case None => None
      case Some(k) => Some(k + 1)
  }

  function FindTask(tasks: seq<Task>, id: TaskId): Option<Task>
  {
    match TaskIndex(tasks, id)
    case None => None
    case Some(i) => Some(tasks[i])
  }

  function Or<T>(o: Option<T>, default: T): T
  {
    if o.Some? then o.value else default
  }

  /** `{ ...task, ...updates }` */
  function Applied(t: Task, p: TaskPatch): Task
  {
    Task(Or(p.id, t.id), Or(p.name, t.name), Or(p.description, t.description),
         Or(p.armorClass, t.armorClass), Or(p.hitPoints, t.hitPoints), Or(p.currentHp, t.currentHp),
         Or(p.status, t.status), Or(p.xpReward, t.xpReward), Or(p.createdAt, t.createdAt),
         if p.completedAt.Some? then p.completedAt else t.completedAt)
  }

  const NoChange: TaskPatch := TaskPatch(None, None, None, None, None, None, None, None, None, None)

  function StatusPatch(s: Status): TaskPatch { NoChange.(status := Some(s)) }

  function HpPatch(hp: int): TaskPatch { NoChange.(currentHp := Some(hp)) }

  /** `updateTask`: every task with the id gets the patch; the others, the
      length and the order stay as they were. */
  function Updated(tasks: seq<Task>, id: TaskId, p: TaskPatch): (r: seq<Task>)
    ensures |r| == |tasks|
    ensures forall i :: 0 <= i < |tasks| && tasks[i].id == id ==> r[i] == Applied(tasks[i], p)
    ensures forall i :: 0 <= i < |tasks| && tasks[i].id != id ==> r[i] == tasks[i]
  {
    if tasks == [] then []
    else [if tasks[0].id == id then Applied(tasks[0], p) else tasks[0]] + Updated(tasks[1..], id, p)
  }

  /** `deleteTask`: the tasks without the id. */
  function Removed(tasks: seq<Task>, id: TaskId): (r: seq<Task>)
    ensures |r| <= |tasks|
    ensures forall t :: t in r <==> t in tasks && t.id != id
  {
    if tasks == [] then []
    else (if tasks[0].id == id then [] else [tasks[0]]) + Removed(tasks[1..], id)
  }

  /** The task `addTask` builds: `currentHp` always starts at `hitPoints`. */
  function NewTask(data: TaskData, id: TaskId, now: Time): Task
  {
    Task(id, data.name, data.description, data.armorClass, data.hitPoints, data.hitPoints,
         data.status, data.xpReward, now, data.completedAt)
  }

  // ---------------------------------------------------------------------------
  // The actions that touch tasks, character and log together

  /** The part of the store that the task actions read and replace. */
  datatype Board = Board(tasks: seq<Task>, character: Character, actionLog: seq<LogEntry>)

  ghost predicate BoardValid(b: Board)
  {
    |b.actionLog| <= MaxLog && CharacterValid(b.character)
  }

  /** `addTask`: the task is appended and a creation entry is logged. */
  function Added(b: Board, data: TaskData, id: TaskId, now: Time): (r: Board)
    ensures |r.tasks| == |b.tasks| + 1 && r.tasks[..|b.tasks|] == b.tasks
    ensures r.tasks[|b.tasks|].id == id && r.tasks[|b.tasks|].currentHp == data.hitPoints
    ensures r.character == b.character
    ensures |r.actionLog| == Min(|b.actionLog| + 1, MaxLog) && r.actionLog[0].kind == MoveLog
  {
    var t := NewTask(data, id, now);
    Board(b.tasks + [t], b.character, Logged(b.actionLog, MoveEntry(QuestCreated(t.name, t.armorClass, t.hitPoints))))
  }

  /** `moveTask`: nothing for an unknown id. Entering `done` from another status
      stamps the completion time, awards the task's XP and logs the completion;
      any other move (including `done` to `done`) only sets the status and logs
      the move. */
  function Moved(b: Board, id: TaskId, newStatus: Status, now: Time): (r: Board)
    ensures FindTask(b.tasks, id).None? ==> r == b
    ensures |r.tasks| == |b.tasks|
    ensures r.character != b.character ==> newStatus == Done && FindTask(b.tasks, id).value.status != Done
    ensures FindTask(b.tasks, id).Some? ==> |r.actionLog| == Min(|b.actionLog| + 1, MaxLog)
  {
    match FindTask(b.tasks, id)
    case None => b
    case Some(t) =>
      if newStatus == Done && t.status != Done then
        Board(Updated(b.tasks, id, StatusPatch(newStatus).(completedAt := Some(now))),
              Awarded(b.character, t.xpReward),
              Logged(b.actionLog, MoveEntry(QuestCompleted(t.name, t.xpReward))))
      else
        Board(Updated(b.tasks, id, StatusPatch(newStatus)),
              b.character,
              Logged(b.actionLog, MoveEntry(QuestMoved(t.name, newStatus))))
  }

  datatype Attempt = Attempt(board: Board, success: bool)

  /** `attemptMoveTask` once the roll (base roll plus class bonus) is known. */
  function Attempted(b: Board, id: TaskId, newStatus: Status, roll: int, now: Time): (r: Attempt)
    ensures FindTask(b.tasks, id).None? ==> r == Attempt(b, false)
    ensures FindTask(b.tasks, id).Some? ==> r.success == (roll >= FindTask(b.tasks, id).value.armorClass)
    ensures !r.success ==> r.board.tasks == b.tasks && r.board.character == b.character
  {
    match FindTask(b.tasks, id)
    case None => Attempt(b, false)
    case Some(t) =>
      var success := roll >= t.armorClass;
      var rolled := b.(actionLog := Logged(b.actionLog, RollEntry(roll, t, success)));
      if !success then
        Attempt(rolled, false)
      else if newStatus == Done then
        var newHp := t.currentHp - 1;
        if newHp <= 0 then
          Attempt(Moved(rolled, id, newStatus, now), true)
        else
          Attempt(Board(Updated(rolled.tasks, id, HpPatch(newHp)),
                        rolled.character,
                        Logged(rolled.actionLog, MoveEntry(QuestDamaged(t.name, newHp, t.hitPoints)))),
                  true)
      else
        Attempt(Moved(rolled, id, newStatus, now), true)
  }

  // ---------------------------------------------------------------------------
  // Sprints

  /** `sprints.find`: the first sprint with the id, if any. */
  function FindSprint(sprints: seq<Sprint>, id: SprintId): (r: Option<Sprint>)
    ensures r.Some? ==> r.value.id == id
    ensures r.Some? ==> exists i :: 0 <= i < |sprints| && sprints[i] == r.value
                                    && forall j :: 0 <= j < i ==> sprints[j].id != id
    ensures r.None? ==> forall s :: s in sprints ==> s.id != id
  {
    if sprints == [] then None
    else if sprints[0].id == id then Some(sprints[0])
    else
      var r := FindSprint(sprints[1..], id);
      if r.Some? then
        var i :| 0 <= i < |sprints| - 1 && sprints[1..][i] == r.value
                 && forall j :: 0 <= j < i ==> sprints[1..][j].id != id;
        assert sprints[i + 1] == r.value;
        assert forall j :: 0 <= j < i + 1 ==> sprints[j].id != id by {
          forall j | 0 <= j < i + 1 ensures sprints[j].id != id {
            if j > 0 { assert sprints[j] == sprints[1..][j - 1]; }
          }
        }
        r
      else r
  }

  // ---------------------------------------------------------------------------
  // The store

  class Store {
    var tasks: seq<Task>
    var character: Character
    var sprints: seq<Sprint>
    var currentSprint: Option<Sprint>
    var actionLog: seq<LogEntry>
    var diceType: int
    var spellsUsed: int

    ghost predicate Valid()
      reads this
    {
      BoardValid(Snapshot()) && 0 <= spellsUsed <= MaxSpells && diceType >= 1
    }

    function Snapshot(): Board
      reads this
    {
      Board(tasks, character, actionLog)
    }

    /** The fields the task actions leave alone. */
    function Settings(): (seq<Sprint>, Option<Sprint>, int, int)
      reads this
    {
      (sprints, currentSprint, diceType, spellsUsed)
    }

    /** The store's initial state; `now` is the creation time of the seed quests. */
    constructor (now: Time)
      ensures Valid()
      ensures tasks == InitialTasks(now) && character == InitialCharacter()
      ensures sprints == [] && currentSprint == None && actionLog == []
      ensures diceType == DefaultDiceType && spellsUsed == 0
    {
      tasks := InitialTasks(now);
      character := InitialCharacter();
      sprints := [];
      currentSprint := None;
      actionLog := [];
      diceType := DefaultDiceType;
      spellsUsed := 0;
    }

    method AddLog(e: LogEntry)
      requires Valid()
      modifies this
      ensures Valid()
      ensures actionLog == Logged(old(actionLog), e)
      ensures tasks == old(tasks) && character == old(character) && Settings() == old(Settings())
    {
      actionLog := Logged(actionLog, e);
    }

    method AddTask(data: TaskData, id: TaskId, now: Time)
      requires Valid()
      modifies this
      ensures Valid()
      ensures Snapshot() == Added(old(Snapshot()), data, id, now)
      ensures Settings() == old(Settings())
    {
      var task := NewTask(data, id, now);
      tasks := tasks + [task];
      AddLog(MoveEntry(QuestCreated(task.name, task.armorClass, task.hitPoints)));
    }

    method UpdateTask(id: TaskId, updates: TaskPatch)
      requires Valid()
      modifies this
      ensures Valid()
      ensures tasks == Updated(old(tasks), id, updates)
      ensures character == old(character) && actionLog == old(actionLog) && Settings() == old(Settings())
    {
      tasks := Updated(tasks, id, updates);
    }

    method DeleteTask(id: TaskId)
      requires Valid()
      modifies this
      ensures Valid()
      ensures tasks == Removed(old(tasks), id)
      ensures character == old(character) && actionLog == old(actionLog) && Settings() == old(Settings())
    {
      tasks := Removed(tasks, id);
    }

    method GainXp(amount: int)
      requires Valid()
      modifies this
      ensures Valid()
      ensures character == Awarded(old(character), amount)
      ensures tasks == old(tasks) && actionLog == old(actionLog) && Settings() == old(Settings())
    {
      var newXp := character.xp + amount;
      var newLevel := character.level;
      var newXpToNext := character.xpToNext;
      if newXp >= character.xpToNext {
        newLevel := newLevel + 1;
        newXpToNext := newLevel * XpPerLevel;
      }
      character := character.(xp := newXp, level := newLevel, xpToNext := newXpToNext);
    }

    /** The log entry the source writes 500 ms after a level-up. */
    method LevelUp()
      requires Valid()
      modifies this
      ensures Valid()
      ensures actionLog == Logged(old(actionLog), LevelUpEntry(character.level))
      ensures tasks == old(tasks) && character == old(character) && Settings() == old(Settings())
    {
      AddLog(LevelUpEntry(character.level));
    }

    method MoveTask(id: TaskId, newStatus: Status, now: Time)
      requires Valid()
      modifies this
      ensures Valid()
      ensures Snapshot() == Moved(old(Snapshot()), id, newStatus, now)
      ensures Settings() == old(Settings())
    {
      var found := FindTask(tasks, id);
      if found.None? {
        return;
      }
      var task := found.value;
      var updates := StatusPatch(newStatus);
      if newStatus == Done && task.status != Done {
        updates := updates.(completedAt := Some(now));
        GainXp(task.xpReward);
        AddLog(MoveEntry(QuestCompleted(task.name, task.xpReward)));
      } else {
        AddLog(MoveEntry(QuestMoved(task.name, newStatus)));
      }
      UpdateTask(id, updates);
    }

    /** `rollDice`, with the draw `Math.floor(Math.random() * diceType) + 1`
        given as `base`. */
    method RollDice(base: int) returns (roll: int)
      requires 1 <= base <= diceType
      ensures roll == base + ClassTable(character.characterClass).bonus
      ensures 1 + ClassBonus(character.characterClass) <= roll <= diceType + ClassBonus(character.characterClass)
      ensures 2 <= roll <= diceType + 2
    {
      roll := base + ClassBonus(character.characterClass);
    }

    method AttemptMoveTask(taskId: TaskId, newStatus: Status, base: int, now: Time) returns (success: bool)
      requires Valid()
      requires 1 <= base <= diceType
      modifies this
      ensures Valid()
      ensures Attempt(Snapshot(), success)
           == Attempted(old(Snapshot()), taskId, newStatus, base + ClassBonus(old(character).characterClass), now)
      ensures Settings() == old(Settings())
    {
      var found := FindTask(tasks, taskId);
      if found.None? {
        return false;
      }
      var task := found.value;
      var roll := RollDice(base);
      success := roll >= task.armorClass;
      AddLog(RollEntry(roll, task, success));
      if success {
        if newStatus == Done {
          var newHp := task.currentHp - 1;
          if newHp <= 0 {
            MoveTask(taskId, newStatus, now);
          } else {
            UpdateTask(taskId, HpPatch(newHp));
            AddLog(MoveEntry(QuestDamaged(task.name, newHp, task.hitPoints)));
          }
        } else {
          MoveTask(taskId, newStatus, now);
        }
      }
    }

    method CreateSprint(data: SprintData, id: SprintId)
      requires Valid()
      modifies this
      ensures Valid()
      ensures sprints == old(sprints) + [Sprint(id, data.name, data.description, data.startDate,
                                                data.endDate, data.tasks, data.isActive)]
      ensures Snapshot() == old(Snapshot()) && currentSprint == old(currentSprint)
      ensures diceType == old(diceType) && spellsUsed == old(spellsUsed)
    {
      sprints := sprints + [Sprint(id, data.name, data.description, data.startDate,
                                   data.endDate, data.tasks, data.isActive)];
    }

    method SetActiveSprint(sprintId: SprintId)
      requires Valid()
      modifies this
      ensures Valid()
      ensures FindSprint(sprints, sprintId).Some? ==>
                currentSprint == FindSprint(sprints, sprintId) && spellsUsed == 0
      ensures FindSprint(sprints, sprintId).None? ==>
                currentSprint == old(currentSprint) && spellsUsed == old(spellsUsed)
      ensures Snapshot() == old(Snapshot()) && sprints == old(sprints) && diceType == old(diceType)
    {
      var sprint := FindSprint(sprints, sprintId);
      if sprint.Some? {
        currentSprint := sprint;
        ResetSpellsForSprint();
      }
    }

    method SetDiceType(diceFaces: int)
      requires Valid()
      requires diceFaces >= 1
      modifies this
      ensures Valid()
      ensures diceType == diceFaces
      ensures Snapshot() == old(Snapshot()) && sprints == old(sprints)
      ensures currentSprint == old(currentSprint) && spellsUsed == old(spellsUsed)
    {
      diceType := diceFaces;
    }

    /** A mage may cast three spells between sprint resets; others none. */
    method UseSpell() returns (cast: bool)
      requires Valid()
      modifies this
      ensures Valid()
      ensures cast == (character.characterClass == Mage && old(spellsUsed) < MaxSpells)
      ensures spellsUsed == if cast then old(spellsUsed) + 1 else old(spellsUsed)
      ensures Snapshot() == old(Snapshot()) && sprints == old(sprints)
      ensures currentSprint == old(currentSprint) && diceType == old(diceType)
    {
      if character.characterClass == Mage && spellsUsed < MaxSpells {
        spellsUsed := spellsUsed + 1;
        return true;
      }
      return false;
    }

    method ResetSpellsForSprint()
      requires Valid()
      modifies this
      ensures Valid()
      ensures spellsUsed == 0
      ensures Snapshot() == old(Snapshot()) && sprints == old(sprints)
      ensures currentSprint == old(currentSprint) && diceType == old(diceType)
    {
      spellsUsed := 0;
    }
  }
}
