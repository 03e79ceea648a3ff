/** The chat panel's `open` class and the three listeners that change it
    (script.js:5-19, 182-186): a click on the toggle button flips it, a
    click anywhere in the document closes the panel unless it landed inside
    the panel or the button, and Enter on the button clicks the button. */
module PanelToggle {

  /** Where a click landed: inside the panel, inside the toggle button. */
  datatype Target = Target(inPanel: bool, inToggle: bool)

  /** The open state after the document-wide listener has seen a click on
      `target`: an open panel stays open only for a click inside the panel or
      the button; a closed panel stays closed. */
  function AfterDocumentClick(open: bool, target: Target): (r: bool)
    ensures r ==> open
    ensures open && (target.inPanel || target.inToggle) ==> r
  {
    if open && !target.inPanel && !target.inToggle then false else open
  }

  /** The open state after one click on `target`: the button's own listener
      runs first, then the event bubbles to the document. */
  function AfterClick(open: bool, target: Target): bool {
    AfterDocumentClick(if target.inToggle then !open else open, target)
  }

  /** A click on the button flips the panel, whatever else holds; the
      document listener never undoes it. */
  lemma ClickOnToggleFlips(open: bool, target: Target)
    requires target.inToggle
    ensures AfterClick(open, target) == !open
  {
  }

  /** A click outside both closes the panel; a click inside the panel and
      outside the button leaves it as it was. */
  lemma ClickElsewhere(open: bool, target: Target)
    requires !target.inToggle
    ensures !target.inPanel ==> !AfterClick(open, target)
    ensures target.inPanel ==> AfterClick(open, target) == open
  {
  }

  /** Two clicks on the button give back the state before them. */
  lemma ToggleTwice(open: bool, target: Target)
    requires target.inToggle
    ensures AfterClick(AfterClick(open, target), target) == open
  {
    ClickOnToggleFlips(open, target);
    ClickOnToggleFlips(!open, target);
  }

  /** The panel element's `open` class. */
  class Panel {
    var open: bool

    constructor (open: bool)
      ensures this.open == open
    {
      this.open := open;
    }

    /** The button's click listener: `classList.toggle('open')`. */
    method Toggle()
      modifies this
      ensures open == !old(open)
    {
      open := !open;
    }

    /** The document's click listener: remove `open` when it is set and
        the target lies outside both the panel and the button. */
    method DocumentClick(target: Target)
      modifies this
      ensures open == AfterDocumentClick(old(open), target)
    {
      if open && !target.inPanel && !target.inToggle {
        open := false;
      }
    }

    /** One click on `target`, seen by the button's listener when it lands
        on the button and then by the document's. */
    method Click(target: Target)
      modifies this
      ensures open == AfterClick(old(open), target)
    {
      if target.inToggle {
        Toggle();
      }
      DocumentClick(target);
    }

    /** The button's keydown listener: Enter calls `click()` on the button,
        which dispatches a click whose target is the button itself; any other
        key does nothing. */
    method KeyDownOnToggle(key: string)
      modifies this
      ensures key == "Enter" ==> open == !old(open)
      ensures key != "Enter" ==> open == old(open)
    {
      if key == "Enter" {
        ClickOnToggleFlips(open, ButtonTarget);
        Click(ButtonTarget);
      }
    }
  }

  /** The target of the click that `chatbotToggleBtn.click()` dispatches. */
  const ButtonTarget: Target := Target(false, true)
}
