/**
 * The hero section of src/components/Hero.tsx: the typing-role animator, the résumé
 * download and the greeting chip.
 *
 * The animator keeps four React state cells (`roleIdx`, `displayed`, `deleting`,
 * `pause`) and one effect. Each time a cell changes the component renders again;
 * the effect's cleanup cancels the timer the previous run returned, and the effect
 * runs again. Timers are events here, not clock time: the pending ones are kept in
 * the order they will fire.
 */
module Hero {

  const Roles: seq<string> := ["Software Developer", "Web Developer", "Mobile Developer", "Game Developer"]

  /** An index into `Roles`; `(i + 1) % ROLES.length` has to stay inside it. */
  type RoleIndex = i: nat | i < |Roles|

  /**
   * A pending timer. `Unpause` and `CharTick` are returned to React, so an effect
   * cleanup cancels them; `StartDeleting` is not, so it survives re-renders.
   * A tick's callback captured `deleting` and the target word when it was scheduled.
   */
  datatype Timer =
    | Unpause
    | StartDeleting
    | CharTick(delay: nat, wasDeleting: bool, target: string)

  datatype Typing = Typing(roleIdx: RoleIndex, displayed: string, deleting: bool, pause: bool, timers: seq<Timer>)

  /** The four state cells, without the timers. */
  datatype Cells = Cells(roleIdx: RoleIndex, displayed: string, deleting: bool, pause: bool)

  function CellsOf(s: Typing): Cells
  {
    Cells(s.roleIdx, s.displayed, s.deleting, s.pause)
  }

  function Target(s: Typing): string
  {
    Roles[s.roleIdx]
  }

  /** Characters per tick: faster while deleting. */
  function TickDelay(deleting: bool): nat
  {
    if deleting then 40 else 70
  }

  /** JavaScript's `d.slice(0, -1)`: drops the last character, and leaves `""` alone. */
  function DropLast(d: string): string
  {
    if |d| == 0 then d else d[..|d| - 1]
  }

  /** JavaScript's `t.slice(0, n)`: at most the first `n` characters. */
  function Take(t: string, n: nat): string
  {
    if n <= |t| then t[..n] else t
  }

  /** The effect's cleanup: cancels the timers a previous run returned. */
  function Untracked(ts: seq<Timer>): (r: seq<Timer>)
    ensures forall t :: t in r <==> t in ts && t.StartDeleting?
  {
    if ts == [] then []
    else if ts[0].StartDeleting? then [ts[0]] + Untracked(ts[1..])
    else Untracked(ts[1..])
  }

  /**
   * A render with changed cells: the previous effect run is cleaned up and the
   * effect runs again. The two branches that change cells synchronously render
   * once more, which the recursion models.
   */
  function Render(s: Typing): (r: Typing)
    ensures r.displayed == s.displayed
    decreases if s.pause then 0 else if s.deleting then 2 else 1
  {
    var ts := Untracked(s.timers);
    if s.pause then
      s.(timers := ts + [Unpause])
    else if !s.deleting && s.displayed == Target(s) then
      Render(s.(pause := true, timers := ts + [StartDeleting]))
    else if s.deleting && s.displayed == "" then
      Render(s.(deleting := false, roleIdx := (s.roleIdx + 1) % |Roles|, timers := ts))
    else
      s.(timers := ts + [CharTick(TickDelay(s.deleting), s.deleting, Target(s))])
  }

  /** The first render and the mount effect. */
  function Init(): Typing
  {
    Render(Typing(0, "", false, false, []))
  }

  /** What a timer's callback does to the cells. */
  function Callback(t: Timer, s: Typing): Typing
  {
    match t
    case Unpause => s.(pause := false)
    case StartDeleting => s.(deleting := true)
    case CharTick(_, wasDeleting, target) =>
      s.(displayed := if wasDeleting then DropLast(s.displayed) else Take(target, |s.displayed| + 1))
  }

  /**
   * The earliest pending timer fires and runs its callback; React renders again
   * only if a cell changed.
   */
  function Fire(s: Typing): Typing
  {
    if s.timers == [] then
      s
    else
      var after := Callback(s.timers[0], s.(timers := s.timers[1..]));
      if CellsOf(after) == CellsOf(s) then after else Render(after)
  }

  /**
   * The two earliest timers come due before React gets to render (the main thread
   * was busy when they did): both callbacks change the cells, and one render follows.
   */
  function FireBatched(s: Typing): Typing
  {
    if |s.timers| < 2 then
      Fire(s)
    else
      var after := Callback(s.timers[1], Callback(s.timers[0], s.(timers := s.timers[2..])));
      if CellsOf(after) == CellsOf(s) then after else Render(after)
  }

  /** `n` timers fire in a row. */
  function Run(s: Typing, n: nat): Typing
    decreases n
  {
    if n == 0 then s else Run(Fire(s), n - 1)
  }

  ghost predicate IsPrefix(d: string, w: string)
  {
    |d| <= |w| && d == w[..|d|]
  }

  /**
   * The reachable states. The text shown is a prefix of the current role, and one
   * of three phases is under way:
   * - typing or deleting: a single character tick is pending, scheduled with the
   *   current `deleting`, the current word and the matching delay;
   * - paused on the full word before deleting: the untracked `StartDeleting` timer
   *   and then the un-pause timer are pending;
   * - paused on the full word with deletion started: only the un-pause timer.
   */
  ghost predicate Inv(s: Typing)
  {
    IsPrefix(s.displayed, Target(s)) &&
    ( (s.timers == [CharTick(TickDelay(s.deleting), s.deleting, Target(s))] && !s.pause &&
       (s.deleting ==> s.displayed != "") && (!s.deleting ==> s.displayed != Target(s)))
    || (s.timers == [StartDeleting, Unpause] && s.pause && !s.deleting && s.displayed == Target(s))
    || (s.timers == [Unpause] && s.pause && s.deleting && s.displayed == Target(s)) )
  }

  lemma RolesNonEmpty(i: RoleIndex)
    ensures Roles[i] != ""
  {
  }

  /** The animator starts typing the first role, one character every 70 ms. */
  lemma InitIsTyping()
    ensures Init() == Typing(0, "", false, false, [CharTick(70, false, Roles[0])])
    ensures Inv(Init())
  {
    assert Roles[0] != "";
  }

  /**
   * What a render schedules when no untracked timer is pending: the un-pause timer
   * while paused; `StartDeleting` then un-pause on a fully typed word; a typing
   * tick for the next word once the text is deleted; a tick otherwise.
   */
  lemma RenderFromQuiet(s: Typing)
    requires Untracked(s.timers) == [] && IsPrefix(s.displayed, Target(s))
    ensures Render(s) ==
      if s.pause then s.(timers := [Unpause])
      else if !s.deleting && s.displayed == Target(s) then s.(pause := true, timers := [StartDeleting, Unpause])
      else if s.deleting && s.displayed == "" then
        var next: RoleIndex := (s.roleIdx + 1) % |Roles|;
        s.(deleting := false, roleIdx := next, timers := [CharTick(70, false, Roles[next])])
      else s.(timers := [CharTick(TickDelay(s.deleting), s.deleting, Target(s))])
  {
    if s.pause {
    } else if !s.deleting && s.displayed == Target(s) {
      RenderOnFullWord(s);
    } else if s.deleting && s.displayed == "" {
      RenderOnEmptied(s);
    }
  }

  /** A fully typed word pauses, with `StartDeleting` and then un-pause pending. */
  lemma RenderOnFullWord(s: Typing)
    requires Untracked(s.timers) == [] && !s.pause && !s.deleting && s.displayed == Target(s)
    ensures Render(s) == s.(pause := true, timers := [StartDeleting, Unpause])
  {
    var p := s.(pause := true, timers := [StartDeleting]);
    assert Untracked(s.timers) + [StartDeleting] == [StartDeleting];
    assert Untracked(p.timers) == [StartDeleting] by {
      assert p.timers[1..] == [];
      assert Untracked(p.timers[1..]) == [];
    }
    assert Render(p) == p.(timers := [StartDeleting, Unpause]);
  }

  /** An emptied deletion moves to the next role and starts typing it. */
  lemma RenderOnEmptied(s: Typing)
    requires Untracked(s.timers) == [] && !s.pause && s.deleting && s.displayed == ""
    ensures var next: RoleIndex := (s.roleIdx + 1) % |Roles|;
      Render(s) == s.(deleting := false, roleIdx := next, timers := [CharTick(70, false, Roles[next])])
  {
    var next: RoleIndex := (s.roleIdx + 1) % |Roles|;
    RolesNonEmpty(next);
  }

  /** Every timer firing keeps the invariant. */
  lemma FireKeepsInv(s: Typing)
    requires Inv(s)
    ensures Inv(Fire(s))
  {
    FireTable(s);
    RolesNonEmpty(s.roleIdx);
    RolesNonEmpty((s.roleIdx + 1) % |Roles|);
    var w := Target(s);
    var d := s.displayed;
    if s.timers[0].CharTick? {
      if s.deleting {
        assert d[..|d| - 1] == w[..|d| - 1];
      } else {
        assert w[..|d| + 1][..|d| + 1] == w[..|d| + 1];
      }
    }
  }

  /** The invariant holds after any number of timer firings from any reachable state. */
  lemma {:induction false} RunKeepsInv(s: Typing, n: nat)
    requires Inv(s)
    ensures Inv(Run(s, n))
    decreases n
  {
    if n > 0 {
      FireKeepsInv(s);
      RunKeepsInv(Fire(s), n - 1);
    }
  }

  /** So the text shown is always a prefix of the current role. */
  lemma DisplayedIsPrefix(n: nat)
    ensures IsPrefix(Run(Init(), n).displayed, Roles[Run(Init(), n).roleIdx])
  {
    InitIsTyping();
    RunKeepsInv(Init(), n);
  }

  /**
   * One firing from each reachable phase. A typing tick shows one more character
   * and, on the full word, pauses with `StartDeleting` and un-pause pending. A
   * deleting tick drops one character and, on the empty text, moves to the next
   * role and starts typing it. `StartDeleting` sets `deleting` and restarts the
   * un-pause timer (the re-render cancels the pending one). Un-pausing resumes the
   * ticks.
   */
  lemma FireTable(s: Typing)
    requires Inv(s)
    ensures var w := Target(s); var d := s.displayed;
      match s.timers[0]
      case CharTick(_, _, _) =>
        if !s.deleting then
          var typed := w[..|d| + 1];
          Fire(s) == if typed == w then s.(displayed := typed, pause := true, timers := [StartDeleting, Unpause])
                     else s.(displayed := typed, timers := [CharTick(70, false, w)])
        else
          var kept := d[..|d| - 1];
          var next: RoleIndex := (s.roleIdx + 1) % |Roles|;
          Fire(s) == if kept == "" then s.(displayed := "", deleting := false, roleIdx := next, timers := [CharTick(70, false, Roles[next])])
                     else s.(displayed := kept, timers := [CharTick(40, true, w)])
      case StartDeleting => Fire(s) == s.(deleting := true, timers := [Unpause])
      case Unpause => Fire(s) == s.(pause := false, timers := [CharTick(40, true, w)])
  {
    RolesNonEmpty(s.roleIdx);
    var w := Target(s);
    var rest := s.(timers := s.timers[1..]);
    assert Untracked(rest.timers) == [] by {
      if s.timers == [StartDeleting, Unpause] {
        assert rest.timers == [Unpause] && rest.timers[1..] == [];
      }
    }
    match s.timers[0]
    case CharTick(_, _, _) =>
      if s.deleting {
        var after := rest.(displayed := DropLast(s.displayed));
        assert after.displayed == w[..|s.displayed| - 1];
        RenderFromQuiet(after);
      } else {
        var after := rest.(displayed := Take(w, |s.displayed| + 1));
        assert after.displayed == w[..|s.displayed| + 1];
        RenderFromQuiet(after);
      }
    case Unpause =>
      RenderFromQuiet(rest.(pause := false));
    case StartDeleting =>
      RenderFromQuiet(rest.(deleting := true));
  }

  /**
   * When `setDeleting(true)` and the un-pause timer fire before React renders, the
   * invariant still holds, and the state reached is the one the two firings reach one
   * after the other: deleting at 40 ms a character, no longer paused. The batched
   * order only skips the restarted 1400 ms pause, and the model keeps no clock.
   */
  lemma BatchedFiringAgrees(s: Typing)
    requires Inv(s)
    ensures Inv(FireBatched(s))
    ensures |s.timers| >= 2 ==>
      FireBatched(s) == Fire(Fire(s)) == s.(deleting := true, pause := false, timers := [CharTick(40, true, Target(s))])
  {
    if |s.timers| < 2 {
      FireKeepsInv(s);
    } else {
      RolesNonEmpty(s.roleIdx);
      FireTable(s);
      FireKeepsInv(s);
      FireTable(Fire(s));
      RenderFromQuiet(s.(deleting := true, pause := false, timers := []));
    }
  }

  /**
   * A character tick lengthens the text by the next character of the word while
   * typing, and drops its last character while deleting.
   */
  lemma TickTypesOrDeletes(s: Typing)
    requires Inv(s) && s.timers[0].CharTick?
    ensures !s.deleting ==> Fire(s).displayed == s.displayed + [Target(s)[|s.displayed|]]
    ensures s.deleting ==> Fire(s).displayed + [s.displayed[|s.displayed| - 1]] == s.displayed
  {
    var w := Target(s);
    var d := s.displayed;
    assert s.timers[0] == CharTick(TickDelay(s.deleting), s.deleting, w);
    var after := Callback(s.timers[0], s.(timers := s.timers[1..]));
    assert Fire(s).displayed == after.displayed;
    if s.deleting {
      assert after.displayed == DropLast(d);
      assert d[..|d| - 1] + [d[|d| - 1]] == d;
    } else {
      assert after.displayed == Take(w, |d| + 1);
      assert w[..|d| + 1] == w[..|d|] + [w[|d|]];
    }
  }

  /**
   * The role index changes only when a deleting tick empties the text; it then
   * moves to the next role modulo 4 and deletion stops.
   */
  lemma IndexAdvancesOnlyWhenEmptied(s: Typing)
    requires Inv(s)
    ensures Fire(s).roleIdx != s.roleIdx ==>
      s.timers[0].CharTick? && s.deleting && |s.displayed| == 1 &&
      Fire(s).roleIdx == (s.roleIdx + 1) % 4 && Fire(s).displayed == "" && !Fire(s).deleting
  {
    FireTable(s);
  }

  /** Deletion starts only from a pause on the fully typed word. */
  lemma DeletionStartsOnFullWord(s: Typing)
    requires Inv(s)
    ensures !s.deleting && Fire(s).deleting ==> s.pause && s.displayed == Target(s) && s.timers[0] == StartDeleting
  {
    FireTable(s);
  }

  /** While paused no character tick is pending, and every pending tick has the delay of its phase. */
  lemma PauseSchedulesNoTick(s: Typing)
    requires Inv(s)
    ensures s.pause ==> forall t :: t in s.timers ==> !t.CharTick?
    ensures forall t :: t in s.timers && t.CharTick? ==> t.delay == (if s.deleting then 40 else 70)
  {
  }

  /** The component's state cells and the timers its effect left pending. */
  class TypingRole {
    var roleIdx: RoleIndex
    var displayed: string
    var deleting: bool
    var pause: bool
    var timers: seq<Timer>

    function State(): Typing
      reads this
    {
      Typing(roleIdx, displayed, deleting, pause, timers)
    }

    /** Mounting: the initial cells, then the first effect run. */
    constructor ()
      ensures State() == Init()
    {
      roleIdx, displayed, deleting, pause, timers := 0, "", false, false, [];
      new;
      Effect();
    }

    /** Cleanup of the previous effect run followed by the effect body. */
    method Effect()
      modifies this
      ensures State() == Render(old(State()))
      decreases if pause then 0 else if deleting then 2 else 1
    {
      timers := Untracked(timers);
      if pause {
        timers := timers + [Unpause];
        return;
      }
      var target := Roles[roleIdx];
      if !deleting && displayed == target {
        pause := true;
        timers := timers + [StartDeleting];
        Effect();
        return;
      }
      if deleting && displayed == "" {
        deleting := false;
        roleIdx := (roleIdx + 1) % |Roles|;
        Effect();
        return;
      }
      timers := timers + [CharTick(TickDelay(deleting), deleting, target)];
    }

    /** The earliest pending timer fires. */
    method OnTimer()
      modifies this
      ensures State() == Fire(old(State()))
    {
      if timers == [] {
        return;
      }
      var before := Cells(roleIdx, displayed, deleting, pause);
      var t := timers[0];
      timers := timers[1..];
      match t {
        case Unpause =>
          pause := false;
        case StartDeleting =>
          deleting := true;
        case CharTick(_, wasDeleting, target) =>
          displayed := if wasDeleting then DropLast(displayed) else Take(target, |displayed| + 1);
      }
      if Cells(roleIdx, displayed, deleting, pause) != before {
        Effect();
      }
    }

    /** The two earliest timers fire before React renders, and one render follows. */
    method OnTimersBatched()
      modifies this
      ensures State() == FireBatched(old(State()))
    {
      if |timers| < 2 {
        OnTimer();
        return;
      }
      var after := Callback(timers[1], Callback(timers[0], State().(timers := timers[2..])));
      var changed := CellsOf(after) != CellsOf(State());
      roleIdx, displayed, deleting, pause, timers := after.roleIdx, after.displayed, after.deleting, after.pause, after.timers;
      assert State() == after;
      if changed {
        Effect();
      }
    }

    /**
     * Unmounting runs the last cleanup: the tracked timers are cancelled, and only
     * an untracked `setDeleting(true)` timer can still fire afterwards.
     */
    method Unmount()
      modifies this
      ensures timers == Untracked(old(timers))
      ensures forall t :: t in timers ==> t.StartDeleting?
      ensures Cells(roleIdx, displayed, deleting, pause) == Cells(old(roleIdx), old(displayed), old(deleting), old(pause))
    {
      timers := Untracked(timers);
    }
  }

  datatype Language = En | Fr

  /** What `handleDownload` does: the file it opens in a new tab and the toast it shows. */
  datatype Download = Download(url: string, target: string, toastTitleKey: string, toastDescriptionKey: string)

  const EnglishCv := "/Amadou Boubacar Niang cv anglais.pdf"
  const FrenchCv := "/Amadou Boubacar Niang - CV.pdf"

  function HandleDownload(language: Language): Download
  {
    Download(if language == En then EnglishCv else FrenchCv,
             "_blank",
             "hero.toast.title",
             if language == En then "hero.toast.desc.en" else "hero.toast.desc.fr")
  }

  /**
   * Each button opens its own language's résumé in a new tab, the two files differ,
   * and the toast describes the same language as the file opened.
   */
  lemma DownloadPicksLanguage(language: Language)
    ensures HandleDownload(En).url == "/Amadou Boubacar Niang cv anglais.pdf"
    ensures HandleDownload(Fr).url == "/Amadou Boubacar Niang - CV.pdf"
    ensures HandleDownload(En).url != HandleDownload(Fr).url
    ensures HandleDownload(language).target == "_blank"
    ensures (HandleDownload(language).url == EnglishCv) <==> (HandleDownload(language).toastDescriptionKey == "hero.toast.desc.en")
  {
    assert |EnglishCv| != |FrenchCv|;
  }

  /** The greeting chip: French text exactly when the site language is French. */
  function Greeting(language: Language): (s: string)
    ensures s == "Disponible pour de nouveaux projets" <==> language == Fr
    ensures language == En ==> s == "Available for new projects"
  {
    if language == Fr then "Disponible pour de nouveaux projets" else "Available for new projects"
  }
}
