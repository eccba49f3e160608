/**
 * The top-level screen: it owns the four task flags, derives the storage key from the
 * passcode, restores the flags when the key is set, saves them whenever they change, and
 * opens the letter a while after level 3 unlocks.
 *
 * Each React effect is run to completion at the end of the method that changed its
 * dependencies, so every method leaves the screen in a settled state.
 */
module Desktop {
  import opened JsString
  import opened Progress
  import opened ProgressKey
  import opened Persistence

  class Desktop {
    var passcode: string
    var progressKey: string
    var whyDone: bool
    var heartDone: bool
    var codeDone: bool
    var questionsDone: bool
    /** Whether the letter panel has started. */
    var letterStart: bool
    /** Whether the timer that starts the letter is scheduled and not cleared. */
    var letterTimerPending: bool
    const storage: BrowserStorage

    function Flags(): ProgressState
      reads this
    {
      ProgressState(whyDone, heartDone, codeDone, questionsDone)
    }

    /** The key follows the passcode; the letter only starts, and its timer is only
        pending, while level 3 is unlocked. */
    ghost predicate Valid()
      reads this
    {
      KeyValid() && GateValid()
    }

    ghost predicate KeyValid()
      reads this
    {
      progressKey == KeyOf(passcode)
    }

    predicate GateValid()
      reads this
    {
      && (letterStart ==> Level3Unlocked(Flags()))
      && (letterTimerPending ==> Level3Unlocked(Flags()) && !letterStart)
    }

    /** Mounting the screen: all flags start false, the load effect restores them from the
        store, the letter effect schedules its timer if level 3 is already open, and the
        save effect writes the flags back. */
    constructor (passcode: string, storage: BrowserStorage)
      modifies storage
      ensures Valid()
      ensures this.passcode == passcode && this.storage == storage
      ensures Flags() == Restore(Initial, Lookup(old(storage.items), KeyOf(passcode)))
      ensures !letterStart && letterTimerPending == Level3Unlocked(Flags())
      ensures storage.full == old(storage.full)
      ensures storage.items == Save(old(storage.items), KeyOf(passcode), Flags(), storage.full)
    {
      var key := MakeProgressKey(passcode);
      var s := Restore(Initial, Lookup(storage.items, key));
      this.passcode := passcode;
      this.storage := storage;
      progressKey := key;
      whyDone, heartDone, codeDone, questionsDone := s.whyDone, s.heartDone, s.codeDone, s.questionsDone;
      letterStart := false;
      letterTimerPending := Level3Unlocked(s);
      new;
      SaveEffect();
    }

    /** The save effect: `setItem` of the current flags under the current key; a refused
        write is swallowed. */
    method SaveEffect()
      modifies storage
      ensures storage.full == old(storage.full)
      ensures storage.items == Save(old(storage.items), progressKey, Flags(), storage.full)
    {
      storage.items := Save(storage.items, progressKey, Flags(), storage.full);
    }

    /** The letter effect, run when `level3Unlocked` changes: the previous run's timer is
        cleared; if level 3 is now closed the letter is withdrawn, otherwise a new timer
        is scheduled. */
    method LetterEffect()
      requires KeyValid()
      requires Level3Unlocked(Flags()) ==> !letterStart
      modifies this`letterStart, this`letterTimerPending
      ensures Valid()
      ensures letterTimerPending == Level3Unlocked(Flags())
      ensures letterStart == (old(letterStart) && Level3Unlocked(Flags()))
    {
      letterTimerPending := false;
      if !Level3Unlocked(Flags()) {
        letterStart := false;
      } else {
        letterTimerPending := true;
      }
    }

    /** A child's one-shot callback (`setWhyDone(true)`, `setHeartDone(true)`,
        `setCodeDone(true)`, `setQuestionsDone(true)`). Setting a flag that is already
        true changes nothing, so no effect runs. */
    method MarkTaskDone(t: Task)
      requires Valid()
      modifies this, storage
      ensures Valid()
      ensures Flags() == MarkDone(old(Flags()), t)
      ensures passcode == old(passcode) && progressKey == old(progressKey)
      ensures AtMost(old(Flags()), Flags())
      ensures Flag(old(Flags()), t) ==> Flags() == old(Flags()) && storage.items == old(storage.items)
      ensures !Flag(old(Flags()), t) ==> storage.items == Save(old(storage.items), progressKey, Flags(), storage.full)
      ensures storage.full == old(storage.full)
      ensures Level3Unlocked(Flags()) == Level3Unlocked(old(Flags())) ==>
                letterStart == old(letterStart) && letterTimerPending == old(letterTimerPending)
      ensures Level3Unlocked(Flags()) != Level3Unlocked(old(Flags())) ==> !letterStart && letterTimerPending
    {
      if Flag(Flags(), t) {
        return;
      }
      var before := Flags();
      match t {
        case Why => whyDone := true;
        case Heart => heartDone := true;
        case Code => codeDone := true;
        case Questions => questionsDone := true;
      }
      assert Flags() == MarkDone(before, t);
      if Level3Unlocked(Flags()) != Level3Unlocked(before) {
        LetterEffect();
      }
      SaveEffect();
    }

    /** The timer scheduled by the letter effect fires and starts the letter. A timer that
        was cleared never fires: then nothing changes. */
    method LetterTimerFires()
      requires Valid()
      modifies this`letterStart, this`letterTimerPending
      ensures Valid()
      ensures letterStart == (old(letterStart) || old(letterTimerPending))
      ensures !letterTimerPending
      ensures letterStart ==> Level3Unlocked(Flags())
    {
      if letterTimerPending {
        letterTimerPending := false;
        letterStart := true;
      }
    }

    /** A new `passcode` prop. When the derived key changes, the load effect restores the
        flags stored under the new key (keeping the current ones if nothing usable is
        stored there), the letter effect runs if level 3 opened or closed, and the save
        effect writes the flags under the new key. */
    method SetPasscode(p: string)
      requires Valid()
      modifies this, storage
      ensures Valid()
      ensures passcode == p
      ensures storage.full == old(storage.full)
      ensures progressKey == old(progressKey) ==>
                Flags() == old(Flags()) && storage.items == old(storage.items) &&
                letterStart == old(letterStart) && letterTimerPending == old(letterTimerPending)
      ensures progressKey != old(progressKey) ==>
                Flags() == Restore(old(Flags()), Lookup(old(storage.items), progressKey)) &&
                storage.items == Save(old(storage.items), progressKey, Flags(), storage.full)
      ensures !Level3Unlocked(Flags()) ==> !letterStart && !letterTimerPending
      ensures Level3Unlocked(Flags()) == Level3Unlocked(old(Flags())) ==>
                letterStart == old(letterStart) && letterTimerPending == old(letterTimerPending)
      ensures Level3Unlocked(Flags()) && !Level3Unlocked(old(Flags())) ==> !letterStart && letterTimerPending
    {
      var key := MakeProgressKey(p);
      passcode := p;
      if key != progressKey {
        progressKey := key;
        LoadEffect();
      }
    }

    /** The load effect under a new key, followed by the letter effect when level 3
        opened or closed, and the save effect. */
    method LoadEffect()
      requires KeyValid() && GateValid()
      modifies this, storage
      ensures Valid()
      ensures passcode == old(passcode) && progressKey == old(progressKey)
      ensures Flags() == Restore(old(Flags()), Lookup(old(storage.items), progressKey))
      ensures storage.full == old(storage.full)
      ensures storage.items == Save(old(storage.items), progressKey, Flags(), storage.full)
      ensures !Level3Unlocked(Flags()) ==> !letterStart && !letterTimerPending
      ensures Level3Unlocked(Flags()) == Level3Unlocked(old(Flags())) ==>
                letterStart == old(letterStart) && letterTimerPending == old(letterTimerPending)
      ensures Level3Unlocked(Flags()) && !Level3Unlocked(old(Flags())) ==> !letterStart && letterTimerPending
    {
      var before := Flags();
      var s := Restore(before, Lookup(storage.items, progressKey));
      SetFlags(s);
      if Level3Unlocked(s) != Level3Unlocked(before) {
        LetterEffect();
      }
      SaveEffect();
    }

    method SetFlags(s: ProgressState)
      modifies this`whyDone, this`heartDone, this`codeDone, this`questionsDone
      ensures Flags() == s
    {
      whyDone, heartDone, codeDone, questionsDone := s.whyDone, s.heartDone, s.codeDone, s.questionsDone;
    }

    /** Unmounting the screen runs the letter effect's cleanup, which clears its timer. */
    method Unmount()
      requires Valid()
      modifies this`letterTimerPending
      ensures Valid()
      ensures !letterTimerPending
    {
      letterTimerPending := false;
    }
  }

  /** Once level 3 is closed, the letter stays unstarted whatever timer event comes next. */
  method LetterNeverStartsWhileLocked(d: Desktop)
    requires d.Valid() && !Level3Unlocked(d.Flags())
    modifies d
    ensures d.Valid() && !d.letterStart
  {
    d.LetterTimerFires();
  }
}
