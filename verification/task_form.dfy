/** The new-quest form (src/components/TaskForm.tsx): the difficulty label shown
    beside the AC slider, the blank-name guard, the task it submits to the
    store and the defaults it returns to. */
module TaskForm {
  import opened Wrappers
  import opened GameStore
  import opened TaskCard

  // ---------------------------------------------------------------------------
  // Difficulty label

  datatype Difficulty = Difficulty(text: string, color: string, icon: string)

  /** `getDifficultyLabel`: the label shown beside the AC slider. */
  function DifficultyLabel(ac: int): (r: Difficulty)
    ensures r.text in Labels && r.icon in Icons && r.color in Colors
    ensures r.text == Labels[0] <==> ac < 8
    ensures r.text == Labels[4] <==> ac >= 18
  {
    if ac >= 18 then Difficulty("Lendário", "text-red-600", "🐉")
    else if ac >= 15 then Difficulty("Épico", "text-orange-600", "👹")
    else if ac >= 12 then Difficulty("Difícil", "text-yellow-600", "🧟")
    else if ac >= 8 then Difficulty("Médio", "text-green-600", "🐺")
    else Difficulty("Fácil", "text-gray-600", "🐀")
  }

  const Labels: seq<string> := ["Fácil", "Médio", "Difícil", "Épico", "Lendário"]

  /** The label is a step function of the AC's band, so a harder AC never
      shows an easier label, and its icon and colour are the card's. */
  lemma LabelFollowsBand(ac: int)
    ensures Band(ac) < |Labels| && DifficultyLabel(ac).text == Labels[Band(ac)]
    ensures DifficultyLabel(ac).icon == MonsterIcon(ac)
    ensures DifficultyLabel(ac).color == DifficultyColor(ac)
  {
  }

  /** The labels are ordered by AC: raising the AC never lowers the label. */
  lemma LabelMonotone(a: int, b: int)
    requires a <= b
    ensures exists i, j :: 0 <= i <= j < |Labels| && DifficultyLabel(a).text == Labels[i]
                                                 && DifficultyLabel(b).text == Labels[j]
  {
    LabelFollowsBand(a);
    LabelFollowsBand(b);
    BandMonotone(a, b);
    assert DifficultyLabel(a).text == Labels[Band(a)] && DifficultyLabel(b).text == Labels[Band(b)];
  }

  // ---------------------------------------------------------------------------
  // The blank-name guard: `!name.trim()`

  /** The characters JavaScript's `trim` removes: white space and line terminators. */
  predicate IsJsWhitespace(c: char)
  {
    c == '\t' || c == '\n' || c == '\U{B}' || c == '\U{C}' || c == '\r' || c == ' '
    || c == '\U{A0}' || c == '\U{1680}' || ('\U{2000}' <= c <= '\U{200A}')
    || c == '\U{2028}' || c == '\U{2029}' || c == '\U{202F}' || c == '\U{205F}'
    || c == '\U{3000}' || c == '\U{FEFF}'
  }

  /** The string without its leading white space. */
  function TrimStart(s: string): (r: string)
    ensures |r| <= |s| && r == s[|s| - |r|..]
    ensures forall i :: 0 <= i < |s| - |r| ==> IsJsWhitespace(s[i])
    ensures r == [] || !IsJsWhitespace(r[0])
  {
    if s != [] && IsJsWhitespace(s[0]) then TrimStart(s[1..]) else s
  }

  /** The string without its trailing white space. */
  function TrimEnd(s: string): (r: string)
    ensures |r| <= |s| && r == s[..|r|]
    ensures forall i :: |r| <= i < |s| ==> IsJsWhitespace(s[i])
    ensures r == [] || !IsJsWhitespace(r[|r| - 1])
  {
    if s != [] && IsJsWhitespace(s[|s| - 1]) then TrimEnd(s[..|s| - 1]) else s
  }

  /** `r` is the slice of `s` starting at `k`, and everything outside that
      slice is white space. */
  predicate CutAt(s: string, r: string, k: int)
  {
    0 <= k <= |s| - |r| && r == s[k..k + |r|]
    && (forall i :: 0 <= i < k ==> IsJsWhitespace(s[i]))
    && (forall i :: k + |r| <= i < |s| ==> IsJsWhitespace(s[i]))
  }

  /** `trim`: neither end of the result is white space. */
  function Trim(s: string): (r: string)
    ensures |r| <= |s|
    ensures r == [] || (!IsJsWhitespace(r[0]) && !IsJsWhitespace(r[|r| - 1]))
  {
    TrimEnd(TrimStart(s))
  }

  /** Cutting leading white space off `s` to get `a`, then trailing white
      space off `a` to get `r`, leaves `r` as a slice of `s` cut at `|s| - |a|`. */
  lemma CutTwice(s: string, a: string, r: string)
    requires |a| <= |s| && a == s[|s| - |a|..]
    requires forall i :: 0 <= i < |s| - |a| ==> IsJsWhitespace(s[i])
    requires |r| <= |a| && r == a[..|r|]
    requires forall i :: |r| <= i < |a| ==> IsJsWhitespace(a[i])
    ensures CutAt(s, r, |s| - |a|)
  {
    var k := |s| - |a|;
    assert r == s[k..k + |r|] by {
      forall i | 0 <= i < |r| ensures r[i] == s[k + i] {
        assert r[i] == a[i] == s[k + i];
      }
    }
    forall i | k + |r| <= i < |s| ensures IsJsWhitespace(s[i]) {
      assert s[i] == a[i - k];
    }
  }

  /** `trim` keeps one slice of the string, starting where the leading white
      space ends, and cuts only white space off either side of it. */
  lemma TrimCutsOnlyWhitespace(s: string)
    ensures CutAt(s, Trim(s), |s| - |TrimStart(s)|)
  {
    CutTwice(s, TrimStart(s), TrimEnd(TrimStart(s)));
  }

  /** `trim` yields the empty string exactly when every character is white
      space; otherwise it starts and ends with a visible character. */
  lemma TrimEmptyIffBlank(s: string)
    ensures Trim(s) == [] <==> forall i :: 0 <= i < |s| ==> IsJsWhitespace(s[i])
    ensures Trim(s) != [] ==> !IsJsWhitespace(Trim(s)[0]) && !IsJsWhitespace(Trim(s)[|Trim(s)| - 1])
  {
    var a := TrimStart(s);
    var r := TrimEnd(a);
    if a != [] {
      assert !IsJsWhitespace(a[0]);
      assert r[0] == a[0];
      assert s[|s| - |a|] == a[0];
    }
  }

  // ---------------------------------------------------------------------------
  // The form

  const AcMin := 5
  const AcMax := 20
  const HpMin := 1
  const HpMax := 5
  const XpMin := 10
  const XpMax := 200
  const XpStep := 10

  const DefaultAc := 10
  const DefaultHp := 1
  const DefaultXp := 50

  /** A value a slider with these bounds and step can produce. */
  predicate OnSlider(v: int, min: int, max: int, step: nat)
    requires step > 0
  {
    min <= v <= max && (v - min) % step == 0
  }

  /** The task data `handleSubmit` passes to `addTask`. */
  function Submitted(name: string, description: string, ac: int, hp: int, xp: int): (r: TaskData)
    ensures r.status == Backlog && r.completedAt == None && r.currentHp == r.hitPoints
  {
    TaskData(name, description, ac, hp, hp, Backlog, xp, None)
  }

  /** A submitted quest starts in the backlog with all its HP, and the store
      keeps the slider's bounds on AC, HP and XP. */
  lemma SubmittedQuestShape(name: string, description: string, ac: int, hp: int, xp: int, id: TaskId, now: Time)
    requires OnSlider(ac, AcMin, AcMax, 1) && OnSlider(hp, HpMin, HpMax, 1) && OnSlider(xp, XpMin, XpMax, XpStep)
    ensures var t := NewTask(Submitted(name, description, ac, hp, xp), id, now);
            && t.status == Backlog && t.currentHp == t.hitPoints && t.completedAt == None
            && 5 <= t.armorClass <= 20 && 1 <= t.currentHp <= t.hitPoints <= 5
            && 10 <= t.xpReward <= 200 && t.xpReward % 10 == 0
  {
  }

  class Form {
    var name: string
    var description: string
    var armorClass: int
    var hitPoints: int
    var xpReward: int

    /** Each slider holds a value it can produce. */
    ghost predicate Valid()
      reads this
    {
      OnSlider(armorClass, AcMin, AcMax, 1) && OnSlider(hitPoints, HpMin, HpMax, 1)
      && OnSlider(xpReward, XpMin, XpMax, XpStep)
    }

    predicate AtDefaults()
      reads this
    {
      name == "" && description == "" && armorClass == DefaultAc && hitPoints == DefaultHp
      && xpReward == DefaultXp
    }

    constructor ()
      ensures Valid() && AtDefaults()
    {
      name, description := "", "";
      armorClass, hitPoints, xpReward := DefaultAc, DefaultHp, DefaultXp;
    }

    method SetName(v: string)
      modifies this
      ensures name == v
      ensures description == old(description) && armorClass == old(armorClass)
      ensures hitPoints == old(hitPoints) && xpReward == old(xpReward)
    {
      name := v;
    }

    method SetDescription(v: string)
      modifies this
      ensures description == v
      ensures name == old(name) && armorClass == old(armorClass)
      ensures hitPoints == old(hitPoints) && xpReward == old(xpReward)
    {
      description := v;
    }

    /** The AC slider (5 to 20, step 1). */
    method SetArmorClass(v: int)
      requires Valid() && OnSlider(v, AcMin, AcMax, 1)
      modifies this
      ensures Valid() && armorClass == v
      ensures name == old(name) && description == old(description)
      ensures hitPoints == old(hitPoints) && xpReward == old(xpReward)
    {
      armorClass := v;
    }

    /** The HP slider (1 to 5, step 1). */
    method SetHitPoints(v: int)
      requires Valid() && OnSlider(v, HpMin, HpMax, 1)
      modifies this
      ensures Valid() && hitPoints == v
      ensures name == old(name) && description == old(description)
      ensures armorClass == old(armorClass) && xpReward == old(xpReward)
    {
      hitPoints := v;
    }

    /** The XP slider (10 to 200, step 10). */
    method SetXpReward(v: int)
      requires Valid() && OnSlider(v, XpMin, XpMax, XpStep)
      modifies this
      ensures Valid() && xpReward == v
      ensures name == old(name) && description == old(description)
      ensures armorClass == old(armorClass) && hitPoints == old(hitPoints)
    {
      xpReward := v;
    }

    /** `handleSubmit`: a blank name submits nothing; otherwise the quest goes
        to the store (with the fresh `id` and creation time `now`) and the
        form returns to its defaults. */
    method HandleSubmit(store: Store, id: TaskId, now: Time)
      requires Valid() && store.Valid()
      modifies this, store
      ensures Valid() && store.Valid()
      ensures store.Settings() == old(store.Settings())
      ensures Trim(old(name)) == [] ==>
                store.Snapshot() == old(store.Snapshot())
                && name == old(name) && description == old(description) && armorClass == old(armorClass)
                && hitPoints == old(hitPoints) && xpReward == old(xpReward)
      ensures Trim(old(name)) != [] ==>
                store.Snapshot() == Added(old(store.Snapshot()),
                                          Submitted(old(name), old(description), old(armorClass),
                                                    old(hitPoints), old(xpReward)),
                                          id, now)
                && AtDefaults()
    {
      if Trim(name) == [] {
        return;
      }
      var data := Submitted(name, description, armorClass, hitPoints, xpReward);
      // The form's reset and the store's update touch different objects, so
      // resetting first leaves the store's new state as `AddTask` states it.
      name, description := "", "";
      armorClass, hitPoints, xpReward := DefaultAc, DefaultHp, DefaultXp;
      store.AddTask(data, id, now);
    }
  }
}
