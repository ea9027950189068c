/**
 * The start-up loader: a progress counter advanced by one interval and a
 * typewriter caption advanced by another. Each interval callback is a step;
 * `ticks` and `typed` count the callbacks run so far.
 */
module Loader {
  const FULL_TEXT: string := "Unleashing Awesomeness..."

  /** Progress after `k` progress callbacks: two more per callback, held at 100. */
  function ProgressAfter(k: nat): (p: nat)
    ensures p % 2 == 0 && p <= 100
    ensures k <= 50 ==> p == 2 * k
    ensures k >= 50 ==> p == 100
  {
    if 2 * k <= 100 then 2 * k else 100
  }

  lemma ProgressMonotone(j: nat, k: nat)
    requires j <= k
    ensures ProgressAfter(j) <= ProgressAfter(k)
  {
  }

  /** The caption after `k` typewriter callbacks: the first `k - 1` characters, up to the whole text. */
  function CaptionAfter(k: nat): (s: string)
    ensures s <= FULL_TEXT
    ensures k <= |FULL_TEXT| + 1 ==> |s| == if k == 0 then 0 else k - 1
    ensures k > |FULL_TEXT| ==> s == FULL_TEXT
  {
    if k == 0 then "" else if k - 1 <= |FULL_TEXT| then FULL_TEXT[..k - 1] else FULL_TEXT
  }

  /** Each callback that types grows the caption by exactly the next character. */
  lemma CaptionGrowsByOne(k: nat)
    requires 1 <= k <= |FULL_TEXT|
    ensures CaptionAfter(k + 1) == CaptionAfter(k) + [FULL_TEXT[k - 1]]
  {
    assert FULL_TEXT[..k] == FULL_TEXT[..k - 1] + [FULL_TEXT[k - 1]];
  }

  /**
   * The mounted loader. The effect runs once on mount and again whenever the
   * parent re-renders with a new `onLoadingComplete` closure; `runs` counts
   * the effect runs, `ticks` all progress callbacks and `typed` the typewriter
   * callbacks since the effect last ran.
   */
  class LoaderView {
    var progress: nat
    var progressRunning: bool
    /** Completion callbacks scheduled. */
    var completionsScheduled: nat
    var loadingText: string
    var textIndex: nat
    var textRunning: bool
    ghost var ticks: nat
    ghost var typed: nat
    ghost var runs: nat

    ghost predicate Valid()
      reads this
    {
      progress == ProgressAfter(ticks) &&
      (!progressRunning ==> ticks > 50 && completionsScheduled >= 1) &&
      (completionsScheduled > 0 ==> ticks > 50) &&
      completionsScheduled + (if progressRunning then 1 else 0) <= runs &&
      typed <= |FULL_TEXT| + 2 && textIndex == (if typed <= |FULL_TEXT| + 1 then typed else |FULL_TEXT| + 1) &&
      (typed > 0 ==> loadingText == CaptionAfter(typed)) &&
      loadingText <= FULL_TEXT &&
      (textRunning <==> typed <= |FULL_TEXT| + 1)
    }

    constructor ()
      ensures Valid() && runs == 1
      ensures progress == 0 && loadingText == "" && progressRunning && textRunning && completionsScheduled == 0
    {
      progress := 0;
      progressRunning := true;
      completionsScheduled := 0;
      loadingText := "";
      textIndex := 0;
      textRunning := true;
      ticks := 0;
      typed := 0;
      runs := 1;
    }

    /**
     * One progress callback: below 100 it adds 2; at 100 it clears its
     * interval and schedules one more completion callback. While the effect
     * has run only once, completion is scheduled exactly once.
     */
    method ProgressTick()
      requires Valid() && progressRunning
      modifies this
      ensures Valid() && runs == old(runs)
      ensures old(progress) < 100 ==>
                progress == old(progress) + 2 && progressRunning && completionsScheduled == old(completionsScheduled)
      ensures old(progress) >= 100 ==>
                progress == 100 && !progressRunning && completionsScheduled == old(completionsScheduled) + 1
      ensures runs == 1 ==> completionsScheduled == (if progressRunning then 0 else 1)
      ensures progress >= old(progress)
      ensures loadingText == old(loadingText) && textIndex == old(textIndex) && textRunning == old(textRunning)
    {
      ticks := ticks + 1;
      if progress >= 100 {
        progressRunning := false;
        completionsScheduled := completionsScheduled + 1;
        progress := 100;
      } else {
        progress := progress + 2;
      }
    }

    /**
     * One typewriter callback: while `textIndex` is within the text it
     * shows that many characters and moves on; past the end it clears its
     * interval. The caption grows except on the first callback after the
     * effect ran again, which shows the empty prefix.
     */
    method TextTick()
      requires Valid() && textRunning
      modifies this
      ensures Valid() && runs == old(runs)
      ensures old(textIndex) <= |FULL_TEXT| ==>
                loadingText == FULL_TEXT[..old(textIndex)] && textIndex == old(textIndex) + 1 && textRunning
      ensures old(textIndex) > |FULL_TEXT| ==> loadingText == FULL_TEXT && !textRunning
      ensures old(textIndex) > 0 ==> old(loadingText) <= loadingText
      ensures loadingText <= FULL_TEXT
      ensures progress == old(progress) && progressRunning == old(progressRunning)
      ensures completionsScheduled == old(completionsScheduled)
    {
      typed := typed + 1;
      if textIndex <= |FULL_TEXT| {
        loadingText := FULL_TEXT[..textIndex];
        textIndex := textIndex + 1;
      } else {
        textRunning := false;
      }
    }

    /**
     * The parent re-renders with a new `onLoadingComplete`: the cleanup
     * clears both intervals and the effect runs again, with a fresh
     * `textIndex` and both intervals running. The state (progress, caption)
     * and completion callbacks already scheduled are kept.
     */
    method EffectRestart()
      requires Valid()
      modifies this
      ensures Valid() && runs == old(runs) + 1
      ensures progressRunning && textRunning && textIndex == 0
      ensures progress == old(progress) && loadingText == old(loadingText)
      ensures completionsScheduled == old(completionsScheduled)
    {
      progressRunning := true;
      textIndex := 0;
      textRunning := true;
      typed := 0;
      runs := runs + 1;
    }
  }

  /** A re-run of the effect makes the next typewriter callback blank the caption, whatever it showed. */
  method RestartBlanksCaption(view: LoaderView)
    requires view.Valid()
    modifies view
    ensures view.Valid() && view.loadingText == "" && view.progress == old(view.progress)
  {
    view.EffectRestart();
    view.TextTick();
  }

  /** A re-run of the effect after completion was scheduled schedules it once more on the next progress callback. */
  method RestartSchedulesCompletionAgain(view: LoaderView)
    requires view.Valid() && !view.progressRunning
    modifies view
    ensures view.Valid() && view.progress == 100 && !view.progressRunning
    ensures view.completionsScheduled == old(view.completionsScheduled) + 1 >= 2
  {
    view.EffectRestart();
    view.ProgressTick();
  }
}
