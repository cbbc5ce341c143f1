/**
 * The project overlay (src/components/Lightbox.tsx). While a project is shown
 * the overlay's effect adds one window `keydown` listener and hides the body's
 * scroll bar; its cleanup removes that listener and sets the overflow to
 * "auto". The window's listener list and the body's overflow style are fields
 * here; listeners that other code installed are kept apart as the base.
 */
module LightboxOverlay {
  import opened Types

  const EscapeKey: string := "Escape"
  const OverflowHidden: string := "hidden"
  const OverflowAuto: string := "auto"

  /**
   * A window keydown listener: the overlay's own handler (a fresh closure on
   * every effect run, told apart by the run's number) or anyone else's.
   */
  datatype Listener = EscapeHandler(run: nat) | Foreign(name: nat)

  /** Where a click inside the rendered overlay lands. */
  datatype ClickTarget = Backdrop | Panel | CloseButton

  class Lightbox {
    var project: Option<Project>
    /** The window's keydown listeners. */
    var listeners: multiset<Listener>
    /** `document.body.style.overflow`. */
    var overflow: string
    /** The listener the pending cleanup will remove, if the last effect run added one. */
    var installed: Option<Listener>
    /** How many effect runs have installed a handler. */
    var runs: nat
    /** The listeners that are not the overlay's own. */
    ghost var baseListeners: multiset<Listener>

    /**
     * Exactly one own listener is installed and the overflow is hidden while a
     * project is shown; otherwise only the base listeners remain.
     */
    ghost predicate Valid()
      reads this
    {
      && (forall l :: l in baseListeners ==> l.Foreign?)
      && (project.Some? <==> installed.Some?)
      && (installed.Some? ==>
            installed.value.EscapeHandler? && listeners == baseListeners + multiset{installed.value}
            && overflow == OverflowHidden)
      && (installed.None? ==> listeners == baseListeners)
    }

    /** Mounting the overlay runs its effect once. */
    constructor(base: multiset<Listener>, bodyOverflow: string, shown: Option<Project>)
      requires forall l :: l in base ==> l.Foreign?
      ensures Valid()
      ensures project == shown && baseListeners == base
      ensures shown.Some? ==> listeners - base == multiset{installed.value} && overflow == OverflowHidden
      ensures shown.None? ==> listeners == base && overflow == bodyOverflow
    {
      project := shown;
      listeners := base;
      overflow := bodyOverflow;
      installed := None;
      runs := 0;
      baseListeners := base;
      new;
      RunEffect();
    }

    /** The effect body: only with a project, add a fresh handler and hide the overflow. */
    method RunEffect()
      requires installed.None? && listeners == baseListeners
      requires forall l :: l in baseListeners ==> l.Foreign?
      modifies this
      ensures Valid()
      ensures project == old(project) && baseListeners == old(baseListeners)
      ensures project.None? ==> overflow == old(overflow)
    {
      if project.Some? {
        var handler := EscapeHandler(runs);
        runs := runs + 1;
        listeners := listeners + multiset{handler};
        overflow := OverflowHidden;
        installed := Some(handler);
      }
    }

    /** The cleanup the last effect run returned, if it returned one. */
    method Cleanup()
      requires Valid()
      modifies this
      ensures installed.None? && listeners == baseListeners
      ensures old(installed).Some? ==> overflow == OverflowAuto
      ensures old(installed).None? ==> overflow == old(overflow)
      ensures project == old(project) && baseListeners == old(baseListeners)
    {
      if installed.Some? {
        assert listeners - multiset{installed.value} == baseListeners;
        listeners := listeners - multiset{installed.value};
        overflow := OverflowAuto;
        installed := None;
      }
    }

    /**
     * New props: the previous cleanup runs, then the effect runs for the new
     * project. Showing a project leaves exactly one own listener and a hidden
     * overflow; hiding it removes the listener and restores "auto".
     */
    method UpdateProject(shown: Option<Project>)
      requires Valid()
      modifies this
      ensures Valid()
      ensures project == shown && baseListeners == old(baseListeners)
      ensures shown.Some? ==> listeners - baseListeners == multiset{installed.value} && overflow == OverflowHidden
      ensures shown.None? ==> listeners == baseListeners
      ensures shown.None? && old(project).Some? ==> overflow == OverflowAuto
      ensures shown.None? && old(project).None? ==> overflow == old(overflow)
    {
      Cleanup();
      project := shown;
      RunEffect();
    }

    /** Unmounting runs the last cleanup: no own listener is left behind. */
    method Unmount()
      requires Valid()
      modifies this
      ensures listeners == baseListeners && installed.None?
      ensures old(project).Some? ==> overflow == OverflowAuto
      ensures old(project).None? ==> overflow == old(overflow)
    {
      Cleanup();
    }

    /** A key press reaches the handler, which calls `onClose` for Escape only. */
    method KeyDown(key: string) returns (closes: bool)
      requires Valid()
      ensures closes <==> project.Some? && key == EscapeKey
    {
      closes := installed.Some? && key == EscapeKey;
    }

    /**
     * A click on the rendered overlay: the backdrop and the close button call
     * `onClose`; the panel stops propagation. Nothing is rendered without a project.
     */
    method Click(target: ClickTarget) returns (closes: bool)
      ensures closes <==> project.Some? && (target == Backdrop || target == CloseButton)
    {
      if project.None? {
        return false;
      }
      match target
      case Backdrop => closes := true;
      case Panel => closes := false;
      case CloseButton => closes := true;
    }
  }
}
