/**
 * The splash screen's progress counter: an interval adds 10 per tick up to
 * 100, and the first tick that finds the counter full clears the interval.
 */
module LoadingScreen {
  import opened Wrappers

  /** The step per tick, in percent. */
  const Increment: int := 10
  /** The full bar, in percent. */
  const Full: int := 100

  /** The state updater run on each tick. */
  function Advance(p: int): (q: int)
    ensures q >= p || p > Full
    ensures p < Full ==> q == p + Increment
    ensures p >= Full ==> q == Full
  {
    if p >= Full then Full else p + Increment
  }

  /** The progress after `n` ticks from the initial 0: always a multiple of ten between 0 and 100. */
  function ProgressAfter(n: nat): (p: int)
    ensures 0 <= p <= Full
    ensures p % Increment == 0
  {
    if n == 0 then 0 else Advance(ProgressAfter(n - 1))
  }

  /** After `n` ticks the bar shows `10 n` percent, capped at 100. */
  lemma {:induction false} ProgressClosedForm(n: nat)
    ensures ProgressAfter(n) == Min(Increment * n, Full)
  {
    if n > 0 {
      ProgressClosedForm(n - 1);
    }
  }

  /** The progress never decreases from one tick to the next. */
  lemma {:induction false} ProgressMonotone(n: nat)
    ensures ProgressAfter(n) <= ProgressAfter(n + 1)
  {
    ProgressClosedForm(n);
    ProgressClosedForm(n + 1);
  }

  /** From the tenth tick on the bar is full, and ticks leave it full. */
  lemma {:induction false} FullFromTenthTick(n: nat)
    requires n >= 10
    ensures ProgressAfter(n) == Full
  {
    ProgressClosedForm(n);
  }

  /** Tick `k` (counting from 1) finds the bar full, and so clears the interval, exactly when `k >= 11`. */
  lemma {:induction false} TickClearsInterval(k: nat)
    requires k >= 1
    ensures ProgressAfter(k - 1) >= Full <==> k >= 11
  {
    ProgressClosedForm(k - 1);
  }

  /** The loading screen's state. */
  class Loader {
    var progress: int
    /** The interval has not been cleared. */
    var running: bool
    /** The ticks delivered so far. */
    ghost var ticks: nat
    /** The effect's cleanup has run (the screen was unmounted). */
    ghost var cleanedUp: bool

    /**
     * The counter is the progress after the delivered ticks; the interval
     * runs through tick 10 unless the cleanup stopped it first.
     */
    ghost predicate Valid()
      reads this
    {
      progress == ProgressAfter(ticks) && (running <==> ticks <= 10 && !cleanedUp)
    }

    /** Mount: progress 0, interval started. */
    constructor ()
      ensures Valid()
      ensures progress == 0 && running && ticks == 0 && !cleanedUp
    {
      progress := 0;
      running := true;
      ticks := 0;
      cleanedUp := false;
    }

    /** One interval tick; once the interval is cleared, there are no more. */
    method Tick()
      requires Valid()
      modifies this
      ensures Valid()
      ensures old(running) ==> progress == Advance(old(progress)) && ticks == old(ticks) + 1
      ensures old(running) ==> (running <==> old(progress) < Full)
      ensures !old(running) ==> progress == old(progress) && !running && ticks == old(ticks)
      ensures cleanedUp == old(cleanedUp)
    {
      if running {
        TickClearsInterval(ticks + 1);
        if progress >= Full {
          running := false;
          progress := Full;
        } else {
          progress := progress + Increment;
        }
        ticks := ticks + 1;
      }
    }

    /** Unmount: the effect's cleanup clears the interval; the counter keeps its value. */
    method Unmount()
      requires Valid()
      modifies this
      ensures Valid()
      ensures !running && cleanedUp
      ensures progress == old(progress) && ticks == old(ticks)
    {
      running := false;
      cleanedUp := true;
    }
  }
}
