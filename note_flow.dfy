/** The writing-session page: a duration picked before the start, a note
    created at the start, a one-second countdown and a periodic autosave while
    writing, and on expiry one final save followed by a fixed completion
    animation. Timers are discrete events: `Tick` is one firing of the
    countdown interval, `AutosaveTick` one firing of the autosave interval,
    `AnimStep` the next of the three completion timeouts (two scheduled by
    `finishSession`, the third by the second of those), and
    `Teardown` the effect cleanups that run when the page unmounts. */
module NoteFlow {
  import opened NoteTypes
  import opened Store
  import Clock

  datatype FlowState = PreStart | Writing | Completed

  datatype AnimState = Idle | Starting | Visible | Fading

  /** Where the router is sent: this page, the note list, or one note. */
  datatype Route = Flow | Home | NoteView(id: string)

  /** The shortest session the page allows, in seconds. */
  const MinDuration: int := 60

  /** `adjustTime`: shifts the planned duration by whole minutes and clamps it
      to the minimum. */
  function ClampedDuration(prev: int, deltaMinutes: int): (r: int)
    ensures r >= MinDuration
    ensures prev + deltaMinutes * 60 > MinDuration ==> r == prev + deltaMinutes * 60
    ensures prev + deltaMinutes * 60 <= MinDuration ==> r == MinDuration
  {
    var candidate := prev + deltaMinutes * 60;
    if candidate > MinDuration then candidate else MinDuration
  }

  /** Five minutes up and then five down returns to any duration the page can hold. */
  lemma AdjustUpThenDown(prev: int)
    requires prev >= MinDuration
    ensures ClampedDuration(ClampedDuration(prev, 5), -5) == prev
  {
  }

  /** The reverse is not an undo: clamping at the minimum forgets the start. */
  lemma AdjustDownThenUpForgets()
    ensures ClampedDuration(ClampedDuration(120, -5), 5) == 360
  {
  }

  datatype TickOutcome = TickOutcome(next: int, finish: bool)

  /** The countdown updater: one second less, or zero and `finishSession`. */
  function CountdownStep(prev: int): (r: TickOutcome)
    ensures r.next >= 0
    ensures r.finish <==> prev <= 1
    ensures prev >= 1 ==> r.next == prev - 1
    ensures prev <= 1 ==> r.next == 0
  {
    if prev <= 1 then TickOutcome(0, true) else TickOutcome(prev - 1, false)
  }

  /** The remaining time after `k` ticks of the countdown from `start`. */
  function Countdown(start: int, k: nat): int
  {
    if k == 0 then start else CountdownStep(Countdown(start, k - 1)).next
  }

  /** From a duration `d` of at least one second, the remaining time after `k`
      ticks is `d - k`, and the tick that calls `finishSession` is the `d`-th
      and no earlier one. */
  lemma {:induction false} FinishesOnTickD(d: int, k: nat)
    requires 1 <= d && k < d
    ensures Countdown(d, k) == d - k
    ensures CountdownStep(Countdown(d, k)).finish <==> k + 1 == d
  {
    if k > 0 {
      FinishesOnTickD(d, k - 1);
    }
  }

  /** Position of an animation state in the completion sequence. */
  function AnimRank(a: AnimState): nat
  {
    match a
    case Idle => 0
    case Starting => 1
    case Visible => 2
    case Fading => 3
  }

  /** The animation state while `pending` of the three timeouts are still to fire. */
  function PhaseWhilePending(pending: nat): (a: AnimState)
    ensures a != Idle
    ensures pending <= 3 ==> AnimRank(a) == if pending == 0 then 3 else 4 - pending
  {
    if pending >= 3 then Starting else if pending == 2 then Visible else Fading
  }

  /** Which intervals are running once the page re-renders. */
  datatype Arming = Arming(countdown: bool, autosave: bool)

  /** The two interval effects as written: each re-runs whenever its
      dependencies change, which includes every title edit, and arms its
      interval whenever the flow is still WRITING. */
  function ArmingAsWritten(flow: FlowState, noteId: string): Arming
  {
    Arming(flow == Writing, flow == Writing && noteId != "")
  }

  /** The effects with the evident intent: intervals run only while WRITING
      and before the completion animation has begun. */
  function Armed(flow: FlowState, anim: AnimState, noteId: string): Arming
  {
    Arming(flow == Writing && anim == Idle, flow == Writing && anim == Idle && noteId != "")
  }

  /** Before the animation the guarded effects arm exactly what the written
      ones do; once it has begun they arm nothing. */
  lemma ArmedAgreesUntilAnimation(flow: FlowState, anim: AnimState, noteId: string)
    ensures anim == Idle ==> Armed(flow, anim, noteId) == ArmingAsWritten(flow, noteId)
    ensures anim != Idle ==> Armed(flow, anim, noteId) == Arming(false, false)
  {
  }

  /** One mounted writing-session page and the store it writes to. */
  class Session {
    const store: NoteStore
    var flowState: FlowState
    var sessionDuration: int
    var timeLeft: int
    var title: string
    /** The editor's serialized content, read when a save happens. */
    var content: string
    var noteId: string
    var animState: AnimState
    var countdownActive: bool
    var autosaveActive: bool
    var mounted: bool
    var route: Route
    /** How many of the three completion timeouts have yet to fire. */
    var pendingAnim: nat
    ghost var ticks: nat
    ghost var finishes: nat
    ghost var notesAtMount: seq<Note>

    /** The session's link to the store: no note before the start, and
        afterwards a note under `noteId`. */
    ghost predicate NoteLinked()
      reads this, store
    {
      (flowState == PreStart ==> noteId == "" && store.notes == notesAtMount) &&
      (flowState != PreStart ==> noteId != "" && FindNote(store.notes, noteId).Some?)
    }

    ghost predicate Valid()
      reads this, store
    {
      NoteLinked() &&
      sessionDuration >= MinDuration && timeLeft >= 0 && finishes <= 1 && pendingAnim <= 3 &&
      (countdownActive ==> mounted && flowState == Writing && finishes == 0) &&
      (autosaveActive ==> mounted && flowState == Writing && finishes == 0 && noteId != "") &&
      (mounted && flowState == Writing && finishes == 0 ==> countdownActive && autosaveActive) &&
      (flowState == PreStart ==> finishes == 0 && ticks == 0) &&
      (finishes == 0 ==>
        animState == Idle && pendingAnim == 0 && flowState != Completed &&
        (flowState == Writing ==> ticks < sessionDuration && timeLeft == sessionDuration - ticks)) &&
      (finishes == 1 ==>
        flowState != PreStart && animState != Idle && ticks == sessionDuration && timeLeft == 0 &&
        (flowState == Completed ==> pendingAnim == 0) &&
        (mounted ==> animState == PhaseWhilePending(pendingAnim) && (flowState == Completed <==> pendingAnim == 0)))
    }

    /** Mounting the page: the planned and remaining time start at the
        configured duration, nothing is armed and no note exists yet. */
    constructor (store: NoteStore)
      requires store.settings.timerDuration >= MinDuration
      ensures Valid() && this.store == store
      ensures flowState == PreStart && noteId == "" && animState == Idle
      ensures sessionDuration == store.settings.timerDuration && timeLeft == store.settings.timerDuration
      ensures title == "" && content == ""
      ensures !countdownActive && !autosaveActive && mounted && route == Flow && pendingAnim == 0
      ensures notesAtMount == store.notes
    {
      this.store := store;
      flowState := PreStart;
      sessionDuration := store.settings.timerDuration;
      timeLeft := store.settings.timerDuration;
      title, content, noteId := "", "", "";
      animState := Idle;
      countdownActive, autosaveActive := false, false;
      mounted, route, pendingAnim := true, Flow, 0;
      ticks, finishes := 0, 0;
      notesAtMount := store.notes;
    }

    /** The minus and plus buttons before the start. */
    method AdjustTime(deltaMinutes: int)
      requires Valid() && mounted && flowState == PreStart
      modifies this`sessionDuration
      ensures Valid()
      ensures sessionDuration == ClampedDuration(old(sessionDuration), deltaMinutes)
    {
      sessionDuration := ClampedDuration(sessionDuration, deltaMinutes);
    }

    /** Cancel before the start: the router leaves for the list, which
        unmounts the page, and the store holds what it held when the page
        mounted. No later event of this page can create a note. */
    method Cancel()
      requires Valid() && mounted && flowState == PreStart
      modifies this`route, this`mounted
      ensures Valid() && route == Home && !mounted
      ensures flowState == PreStart && noteId == "" && store.notes == notesAtMount
    {
      route := Home;
      mounted := false;
    }

    /** `startSession`: one new empty note with the planned duration goes to
        the front of the store, the countdown restarts from the planned
        duration, and the flow turns WRITING, which arms both intervals.
        `newId` and `now` stand for the generated identifier and the clock. */
    method StartSession(newId: string, now: int)
      requires Valid() && mounted && flowState == PreStart
      requires newId != "" && FindNote(store.notes, newId).None?
      modifies this`noteId, this`timeLeft, this`flowState, this`countdownActive, this`autosaveActive, store`notes
      ensures Valid()
      ensures store.notes == WithNoteAdded(old(store.notes), Note(newId, "", "", now, sessionDuration, false))
      ensures noteId == newId && timeLeft == sessionDuration && flowState == Writing
      ensures countdownActive && autosaveActive
    {
      noteId := newId;
      var note := Note(newId, "", "", now, sessionDuration, false);
      store.AddNote(note);
      AddThenFind(old(store.notes), note);
      timeLeft := sessionDuration;
      flowState := Writing;
      var armed := Armed(flowState, animState, noteId);
      countdownActive, autosaveActive := armed.countdown, armed.autosave;
    }

    /** Typing in the title. The re-render re-runs both interval effects,
        which with the guarded arming leaves each interval as it was. */
    method EditTitle(t: string)
      requires Valid() && mounted && flowState != PreStart
      modifies this`title, this`countdownActive, this`autosaveActive
      ensures Valid() && title == t
      ensures countdownActive == old(countdownActive) && autosaveActive == old(autosaveActive)
    {
      title := t;
      var armed := Armed(flowState, animState, noteId);
      countdownActive, autosaveActive := armed.countdown, armed.autosave;
    }

    /** Typing in the editor; the content is only read when a save happens. */
    method EditContent(c: string)
      requires Valid() && mounted && flowState != PreStart
      modifies this`content
      ensures Valid() && content == c
    {
      content := c;
    }

    /** `saveCurrentState`: with a note id, writes the buffered content and
        title to that note; without one, writes nothing. */
    method SaveCurrentState()
      requires NoteLinked()
      modifies store`notes
      ensures NoteLinked()
      ensures noteId != "" ==> store.notes == WithNoteUpdated(old(store.notes), noteId, content, Some(title))
      ensures noteId == "" ==> store.notes == old(store.notes)
      ensures noteId != "" ==> (FindNote(store.notes, noteId).Some? &&
        FindNote(store.notes, noteId).value.content == content && FindNote(store.notes, noteId).value.title == title)
    {
      if noteId != "" {
        store.UpdateNote(noteId, content, Some(title));
        UpdateThenFind(old(store.notes), noteId, content, Some(title));
      }
    }

    /** `finishSession`: both intervals are cleared first, then the single
        final save, then the animation leaves idle with its three timeouts
        pending. */
    method FinishSession()
      requires Valid() && countdownActive
      modifies this`countdownActive, this`autosaveActive, this`animState, this`pendingAnim, this`finishes, store`notes
      ensures NoteLinked()
      ensures !countdownActive && !autosaveActive
      ensures store.notes == WithNoteUpdated(old(store.notes), noteId, content, Some(title))
      ensures FindNote(store.notes, noteId).Some? &&
        FindNote(store.notes, noteId).value.content == content && FindNote(store.notes, noteId).value.title == title
      ensures animState == Starting && pendingAnim == 3 && finishes == 1
    {
      countdownActive, autosaveActive := false, false;
      SaveCurrentState();
      animState := Starting;
      pendingAnim := 3;
      finishes := 1;
    }

    /** One firing of the countdown interval. A cleared interval does not
        fire, so when it is not armed nothing changes. */
    method Tick()
      requires Valid()
      modifies this`timeLeft, this`ticks, this`countdownActive, this`autosaveActive, this`animState,
        this`pendingAnim, this`finishes, store`notes
      ensures Valid()
      ensures !old(countdownActive) ==> unchanged(this) && store.notes == old(store.notes)
      ensures !old(mounted) || old(finishes) == 1 ==> store.notes == old(store.notes)
      ensures old(countdownActive) ==> timeLeft == CountdownStep(old(timeLeft)).next && ticks == old(ticks) + 1
      ensures old(countdownActive) && !CountdownStep(old(timeLeft)).finish ==>
        store.notes == old(store.notes) && animState == Idle && countdownActive && autosaveActive
      ensures old(countdownActive) && CountdownStep(old(timeLeft)).finish ==>
        ticks == sessionDuration && finishes == 1 && !countdownActive && !autosaveActive &&
        store.notes == WithNoteUpdated(old(store.notes), noteId, content, Some(title)) &&
        animState == Starting && pendingAnim == 3
      ensures AnimRank(old(animState)) <= AnimRank(animState) <= AnimRank(old(animState)) + 1
    {
      if !countdownActive {
        return;
      }
      var step := CountdownStep(timeLeft);
      if step.finish {
        FinishSession();
      }
      timeLeft := step.next;
      ticks := ticks + 1;
    }

    /** One firing of the autosave interval. */
    method AutosaveTick()
      requires Valid()
      modifies store`notes
      ensures Valid()
      ensures autosaveActive ==> store.notes == WithNoteUpdated(old(store.notes), noteId, content, Some(title))
      ensures !autosaveActive ==> store.notes == old(store.notes)
      ensures !mounted || finishes == 1 ==> store.notes == old(store.notes)
    {
      if autosaveActive {
        SaveCurrentState();
      }
    }

    /** The next completion timeout: after 50 ms the message shows, after
        2000 ms it fades, and 500 ms later the flow is COMPLETED and the router
        goes to the note, which unmounts the page. Once the page is gone its
        state no longer changes, but the last timeout still navigates. No
        timeout writes the store. */
    method AnimStep()
      requires Valid() && pendingAnim > 0
      modifies this`animState, this`flowState, this`route, this`pendingAnim, this`mounted
      ensures Valid()
      ensures pendingAnim == old(pendingAnim) - 1
      ensures old(mounted) && old(pendingAnim) == 3 ==> animState == Visible
      ensures old(mounted) && old(pendingAnim) == 2 ==> animState == Fading
      ensures old(pendingAnim) == 1 ==>
        route == NoteView(noteId) && !mounted && (old(mounted) ==> flowState == Completed)
      ensures old(pendingAnim) != 1 ==> route == old(route) && flowState == old(flowState) && mounted == old(mounted)
      ensures !old(mounted) ==> animState == old(animState) && flowState == old(flowState)
      ensures AnimRank(old(animState)) <= AnimRank(animState) <= AnimRank(old(animState)) + 1
      ensures store.notes == old(store.notes)
    {
      if pendingAnim == 3 {
        if mounted {
          animState := Visible;
        }
      } else if pendingAnim == 2 {
        if mounted {
          animState := Fading;
        }
      } else {
        if mounted {
          flowState := Completed;
        }
        route := NoteView(noteId);
        mounted := false;
      }
      pendingAnim := pendingAnim - 1;
    }

    /** Unmounting: both effect cleanups clear their intervals. */
    method Teardown()
      requires Valid()
      modifies this`countdownActive, this`autosaveActive, this`mounted
      ensures Valid() && !mounted && !countdownActive && !autosaveActive
    {
      countdownActive, autosaveActive := false, false;
      mounted := false;
    }

    /** The countdown label while writing; it reads back to the remaining time. */
    function TimerLabel(): (s: string)
      reads this
      requires timeLeft >= 0
      ensures Clock.ParseTimeStr(s) == Some(timeLeft)
    {
      Clock.TimeStrRoundTrip(timeLeft);
      Clock.TimeStr(timeLeft)
    }
  }

  /** Right after the finishing tick the page is still mounted, the flow is
      still WRITING for the length of the animation, the remaining time is 0
      and the store holds the final save. A title edit then re-runs both
      effects, which as written re-arm both intervals; the next countdown
      tick calls `finishSession` again, and its save rewrites the note that
      the final save had already written. The guarded arming the session
      uses arms nothing in the same state. */
  lemma TitleEditDuringAnimationReArms(s: Session, editedTitle: string)
    requires s.Valid() && s.finishes == 1 && s.mounted && s.flowState == Writing
    requires FindNote(s.store.notes, s.noteId).Some?
    requires FindNote(s.store.notes, s.noteId).value.title == s.title != editedTitle
    ensures ArmingAsWritten(s.flowState, s.noteId) == Arming(true, true)
    ensures CountdownStep(s.timeLeft).finish
    ensures WithNoteUpdated(s.store.notes, s.noteId, s.content, Some(editedTitle)) != s.store.notes
    ensures Armed(s.flowState, s.animState, s.noteId) == Arming(false, false)
  {
    UpdateThenFind(s.store.notes, s.noteId, s.content, Some(editedTitle));
  }
}
