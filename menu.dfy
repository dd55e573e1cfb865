/** The level-progress bookkeeping of `GameMenu` (src/RGBalls.py): the
    stored star results, which levels are unlocked, the level selection and
    how the menu keys move it, and what a finished level does to all three. */
module Menu {
  import opened Optional
  import opened World
  import opened Engine

  /** The key a player presses on the summary screen after a win: q/Esc
      back to the menu, R to retry, Enter for the next level. The loss
      screen offers the first two only. */
  datatype Reply = ToMenu | Again | Next

  /** One run of a level: the frames played, the reply on the summary
      screen should it be won, and whether R is pressed on the loss screen
      should it be lost. */
  datatype Attempt = Attempt(frames: seq<seq<KeyEvent>>, reply: Reply, retryAfterLoss: bool)

  /** The keys the menu reacts to. `Return` starts the selected level and
      carries the runs played until the player is back at the menu. */
  datatype MenuKey = ArrowLeft | ArrowDown | ArrowRight | ArrowUp | PageUp | PageDown
                   | Return(attempts: seq<Attempt>) | Escape | OtherKey

  /** The number of stars in a result. */
  function StarCount(r: seq<string>): nat {
    if |r| == 0 then 0 else (if r[0] == STAR then 1 else 0) + StarCount(r[1..])
  }

  function Max(a: int, b: int): int {
    if a < b then b else a
  }

  /** The result kept after winning a level already won: the new one
      replaces a one-star result, and a two-star result only gives way to
      three stars. */
  function Kept(stored: seq<string>, result: seq<string>): (r: seq<string>)
    ensures r == stored || r == result
    ensures result == [STAR, STAR, STAR] || stored == [STAR, NO_STAR, NO_STAR] ==> r == result
    ensures !(result == [STAR, STAR, STAR] || stored == [STAR, NO_STAR, NO_STAR]) ==> r == stored
  {
    if stored == [STAR, NO_STAR, NO_STAR] || result == [STAR, STAR, STAR] then result else stored
  }

  lemma WonStarCount(r: seq<string>)
    requires Won(r)
    ensures StarCount(r) == 1 + (if r[1] == STAR then 1 else 0) + (if r[2] == STAR then 1 else 0)
    ensures StarCount(r) == 1 <==> r == [STAR, NO_STAR, NO_STAR]
    ensures StarCount(r) == 3 <==> r == [STAR, STAR, STAR]
  {
    var t := r[1..][1..];
    assert r[1..][0] == r[1] && t[0] == r[2] && t[1..] == [];
    assert StarCount(t) == if r[2] == STAR then 1 else 0;
  }

  /** Replaying a won level keeps the better of the two results: the
      stored star count never drops, and it rises to the new count whenever
      that is higher. */
  lemma KeptIsBest(stored: seq<string>, result: seq<string>)
    requires Won(stored) && Won(result)
    ensures Won(Kept(stored, result))
    ensures StarCount(Kept(stored, result)) == Max(StarCount(stored), StarCount(result))
  {
    WonStarCount(stored);
    WonStarCount(result);
  }

  /** The highest level the selection may reach: the first level not yet
      won, or the last level. */
  function Top(unlocked: int, total: int): int {
    if unlocked < total - 1 then unlocked else total - 1
  }

  /** The selection after one menu key. */
  function Select(key: MenuKey, selected: int, unlocked: int, total: int): (r: int)
    ensures 0 <= selected <= Top(unlocked, total) ==> 0 <= r <= Top(unlocked, total)
    ensures (key.ArrowLeft? || key.ArrowDown? || key.PageDown?) && selected >= 0 ==> r <= selected
    ensures (key.ArrowRight? || key.ArrowUp? || key.PageUp?) && selected <= Top(unlocked, total) ==> r >= selected
    ensures (key.ArrowLeft? || key.ArrowDown? || key.ArrowRight? || key.ArrowUp?) ==> selected - 1 <= r <= selected + 1
    ensures (key.ArrowLeft? || key.ArrowDown?) ==> (r != selected <==> selected > 0)
    ensures (key.ArrowRight? || key.ArrowUp?) ==> (r != selected <==> selected < unlocked && selected < total - 1)
    ensures key.PageUp? ==>
      && r <= selected + 5 && r <= unlocked && r <= total - 1
      && (r == selected + 5 || r == unlocked || r == total - 1)
    ensures key.PageDown? ==> r >= selected - 5 && r >= 0 && (r == selected - 5 || r == 0)
    ensures key.Return? || key.Escape? || key.OtherKey? ==> r == selected
  {
    match key
    case ArrowLeft | ArrowDown => if selected > 0 then selected - 1 else selected
    case ArrowRight | ArrowUp => if selected < unlocked && selected < total - 1 then selected + 1 else selected
    case PageUp =>
      var m := if selected + 5 < unlocked then selected + 5 else unlocked;
      if m < total - 1 then m else total - 1
    case PageDown => if selected - 5 > 0 then selected - 5 else 0
    case _ => selected
  }

  /** A step to the right that moves is undone by a step to the left, and
      the other way round. */
  lemma StepsAreInverse(selected: int, unlocked: int, total: int)
    requires 0 <= selected <= Top(unlocked, total)
    ensures Select(ArrowRight, selected, unlocked, total) != selected ==>
      Select(ArrowLeft, Select(ArrowRight, selected, unlocked, total), unlocked, total) == selected
    ensures Select(ArrowLeft, selected, unlocked, total) != selected ==>
      Select(ArrowRight, Select(ArrowLeft, selected, unlocked, total), unlocked, total) == selected
  {
  }

  /** From any level, enough page-ups reach the highest reachable one. */
  lemma {:induction false} PageUpsReachTop(selected: int, unlocked: int, total: int, n: nat)
    requires 0 <= selected <= Top(unlocked, total) && 5 * n >= Top(unlocked, total) - selected
    ensures PageUps(selected, unlocked, total, n) == Top(unlocked, total)
    decreases n
  {
    if n > 0 {
      var next := Select(PageUp, selected, unlocked, total);
      if next == Top(unlocked, total) {
        PageUpsStayAtTop(unlocked, total, n - 1);
      } else {
        PageUpsReachTop(next, unlocked, total, n - 1);
      }
    }
  }

  lemma {:induction false} PageUpsStayAtTop(unlocked: int, total: int, n: nat)
    requires 0 <= Top(unlocked, total)
    ensures PageUps(Top(unlocked, total), unlocked, total, n) == Top(unlocked, total)
  {
    if n > 0 {
      PageUpsStayAtTop(unlocked, total, n - 1);
    }
  }

  /** The selection after `n` page-ups. */
  function PageUps(selected: int, unlocked: int, total: int, n: nat): int
    decreases n
  {
    if n == 0 then selected else PageUps(Select(PageUp, selected, unlocked, total), unlocked, total, n - 1)
  }

  class GameMenu {
    var levelResults: seq<seq<string>>
    var levelSelected: int
    var levelUnlocked: int
    const totalLevels: int

    /** The bookkeeping every screen keeps: one stored win for each unlocked
        level, the unlocked levels a prefix of the levels, and the selection
        among them or, just after "next level" on the last one, one past. */
    predicate Valid()
      reads this
    {
      && 0 < totalLevels
      && 0 <= levelSelected <= levelUnlocked
      && levelSelected <= totalLevels
      && levelUnlocked == |levelResults| <= totalLevels
      && forall i :: 0 <= i < |levelResults| ==> Won(levelResults[i])
    }

    /** Back at the menu, a level that exists is selected. */
    predicate AtMenu()
      reads this
    {
      Valid() && levelSelected < totalLevels
    }

    /** `__init__` with the saved results and the number of level files
        given: every saved level is unlocked, the next one is selected, or
        the last one when all are won. */
    constructor(saved: seq<seq<string>>, total: int)
      ensures levelResults == saved && levelUnlocked == |saved| && totalLevels == total
      ensures levelSelected == if total == |saved| then |saved| - 1 else |saved|
      ensures 0 < total && |saved| <= total && (forall i :: 0 <= i < |saved| ==> Won(saved[i])) ==> AtMenu()
    {
      levelResults := saved;
      levelSelected := |saved|;
      levelUnlocked := |saved|;
      totalLevels := total;
      if total == |saved| {
        levelSelected := |saved| - 1;
      }
    }

    /** The bookkeeping half of `play_game` once the level has reported
        `result`: a win is stored (appended and the next level unlocked
        the first time, otherwise kept by `Kept`) and answered by the
        summary's `reply`; a loss is answered by the loss screen; a missing
        level steps the selection back. */
    method Record(result: seq<string>, reply: Reply, retryAfterLoss: bool) returns (action: Reply)
      requires Valid()
      requires result == LEVEL_NOT_FOUND || Outcome(result)
      requires result == LEVEL_NOT_FOUND <==> levelSelected == totalLevels
      modifies this`levelResults, this`levelUnlocked, this`levelSelected
      ensures Valid()
      ensures Won(result) && old(levelSelected) < old(|levelResults|) ==>
        && levelResults == old(levelResults)[old(levelSelected) := Kept(old(levelResults)[old(levelSelected)], result)]
        && levelUnlocked == old(levelUnlocked) && levelSelected == old(levelSelected) && action == reply
      ensures Won(result) && old(levelSelected) >= old(|levelResults|) ==>
        && levelResults == old(levelResults) + [result]
        && levelUnlocked == old(levelUnlocked) + 1 && levelSelected == old(levelSelected) && action == reply
      ensures !Won(result) ==> levelResults == old(levelResults) && levelUnlocked == old(levelUnlocked)
      ensures result == ["retry"] ==> action == Again && levelSelected == old(levelSelected)
      ensures result == ["lose"] ==> action == (if retryAfterLoss then Again else ToMenu) && levelSelected == old(levelSelected)
      ensures result == LEVEL_NOT_FOUND ==> action == ToMenu && levelSelected == old(levelSelected) - 1
      ensures result == [NO_STAR, NO_STAR, NO_STAR] ==> action == ToMenu && levelSelected == old(levelSelected)
      ensures action == Next ==> levelSelected < levelUnlocked
      ensures action != Again || levelSelected < totalLevels
      ensures action == ToMenu ==> AtMenu()
    {
      if result[0] == STAR {
        if |levelResults| > levelSelected {
          if levelResults[levelSelected] == [STAR, NO_STAR, NO_STAR] || result == [STAR, STAR, STAR] {
            levelResults := levelResults[levelSelected := result];
          }
        } else {
          levelUnlocked := levelUnlocked + 1;
          levelResults := levelResults + [result];
        }
        action := reply;
      } else if result[0] == "retry" {
        action := Again;
      } else if result[0] == "lose" {
        action := if retryAfterLoss then Again else ToMenu;
      } else {
        if result[0] == LEVEL_NOT_FOUND[0] {
          levelSelected := levelSelected - 1;
        }
        action := ToMenu;
      }
    }

    /** `play_game`: load the selected level (missing past the last one),
        play it and record its result; `None` when the frames run out
        before the level ends. Stored results only ever improve. */
    method PlayGame(levels: seq<Level>, attempt: Attempt) returns (action: Option<Reply>)
      requires Valid() && |levels| == totalLevels
      requires forall i :: 0 <= i < |levels| ==> Playable(levels[i])
      modifies this`levelResults, this`levelUnlocked, this`levelSelected
      ensures Valid()
      ensures old(levelSelected) == totalLevels ==>
        action == Some(ToMenu) && levelSelected == totalLevels - 1 && levelResults == old(levelResults)
      ensures old(levelSelected) < totalLevels ==> levelSelected == old(levelSelected)
      ensures old(|levelResults|) <= |levelResults| <= old(|levelResults|) + 1
      ensures forall i :: 0 <= i < old(|levelResults|) ==> StarCount(levelResults[i]) >= StarCount(old(levelResults)[i])
      ensures action == Some(Next) ==> levelSelected < levelUnlocked
      ensures action == Some(Again) ==> levelSelected < totalLevels
      ensures action == Some(ToMenu) ==> AtMenu()
    {
      var level := if levelSelected < |levels| then Some(levels[levelSelected]) else None;
      var result := Play(level, attempt.frames);
      if result.None? {
        return None;
      }
      ghost var before := levelResults;
      var a := Record(result.value, attempt.reply, attempt.retryAfterLoss);
      forall i | 0 <= i < |before| ensures StarCount(levelResults[i]) >= StarCount(before[i]) {
        if i == levelSelected && Won(result.value) {
          KeptIsBest(before[i], result.value);
        }
      }
      return Some(a);
    }

    /** The inner loop of `main_loop` after Enter: play, replay or go on to
        the next level until a reply leads back to the menu. `atMenu` is
        false when the runs given are used up first. */
    method Enter(levels: seq<Level>, attempts: seq<Attempt>) returns (atMenu: bool)
      requires AtMenu() && |levels| == totalLevels
      requires forall i :: 0 <= i < |levels| ==> Playable(levels[i])
      modifies this`levelResults, this`levelUnlocked, this`levelSelected
      ensures Valid()
      ensures atMenu ==> AtMenu()
      ensures old(|levelResults|) <= |levelResults|
    {
      var k := 0;
      while true
        invariant 0 <= k <= |attempts|
        invariant Valid()
        invariant old(|levelResults|) <= |levelResults|
        decreases 2 * (|attempts| - k) + (if levelSelected == totalLevels then 1 else 0)
      {
        var attempt;
        if levelSelected < totalLevels {
          if k == |attempts| {
            return false;
          }
          attempt := attempts[k];
          k := k + 1;
        } else {
          // past the last level: nothing is played, so no input is read
          attempt := Attempt([], ToMenu, false);
        }
        var action := PlayGame(levels, attempt);
        if action == None {
          return false;
        }
        if action == Some(ToMenu) {
          return true;
        }
        if action == Some(Next) {
          levelSelected := levelSelected + 1;
        }
      }
    }

    /** The arrow and page keys of `main_loop`. */
    method MoveSelection(key: MenuKey)
      requires AtMenu()
      modifies this`levelSelected
      ensures levelSelected == Select(key, old(levelSelected), levelUnlocked, totalLevels)
      ensures AtMenu()
    {
      levelSelected := Select(key, levelSelected, levelUnlocked, totalLevels);
    }

    /** `main_loop` over a finite run of key presses: q/Esc leaves the
        game, Enter plays. */
    method MainLoop(levels: seq<Level>, keys: seq<MenuKey>)
      requires AtMenu() && |levels| == totalLevels
      requires forall i :: 0 <= i < |levels| ==> Playable(levels[i])
      modifies this`levelResults, this`levelUnlocked, this`levelSelected
      ensures Valid()
      ensures old(|levelResults|) <= |levelResults|
    {
      for k := 0 to |keys|
        invariant AtMenu()
        invariant old(|levelResults|) <= |levelResults|
      {
        match keys[k] {
          case Escape =>
            return;
          case Return(attempts) =>
            var atMenu := Enter(levels, attempts);
            if !atMenu {
              return;
            }
          case _ =>
            MoveSelection(keys[k]);
        }
      }
    }
  }
}
