/**
 * Sizing and conversation selection in the AI assistant's chat flyout.
 *
 * The flyout's width is a decision table over the current breakpoint, the
 * width mode, whether the conversation list is expanded and whether the
 * second (inline editing) slot is visible. The component's `useState` cells
 * and the handlers that set them form a small state machine.
 */
module ChatFlyout {
  import opened Wrappers

  const CONVERSATIONS_SIDEBAR_WIDTH: nat := 260
  const CONVERSATIONS_SIDEBAR_WIDTH_COLLAPSED: nat := 34
  const SIDEBAR_WIDTH: nat := 400

  datatype FlyoutWidthMode = Side | Full

  /** The six widths `GetFlyoutWidth` can produce; the `calc(` ones lack their closing parenthesis. */
  const FLYOUT_WIDTHS: set<string> := {
    "100%", "90vw", "40vw",
    "calc(40vw + 226px", "calc(40vw + 400px", "calc(40vw + 226px + 400px"
  }

  /** Decimal rendering of a number, as a template literal interpolates it. */
  function NatToString(n: nat): (s: string)
    ensures |s| > 0
    ensures forall i :: 0 <= i < |s| ==> '0' <= s[i] <= '9'
    decreases n
  {
    if n < 10 then ["0123456789"[n]] else NatToString(n / 10) + ["0123456789"[n % 10]]
  }

  function Px(n: nat): string {
    NatToString(n) + "px"
  }

  /** The `calc(` widths, rendered from the constants. */
  lemma RenderedCalcWidths()
    ensures "calc(40vw + " + Px(CONVERSATIONS_OFFSET) == "calc(40vw + 226px"
    ensures "calc(40vw + " + Px(SIDEBAR_WIDTH) == "calc(40vw + 400px"
    ensures "calc(40vw + " + Px(CONVERSATIONS_OFFSET) + " + " + Px(SIDEBAR_WIDTH) == "calc(40vw + 226px + 400px"
  {
    assert CONVERSATIONS_OFFSET == 226;
    assert NatToString(226) == "226";
    assert NatToString(400) == "400";
  }

  /** The side-slot-only width does not begin with the conversations offset. */
  lemma SideSlotWidthLacksOffset()
    ensures !StartsWith("calc(40vw + 400px", "calc(40vw + 226px")
  {
    var s := "calc(40vw + 400px";
    assert s[..17][12] == '4';
  }

  predicate StartsWith(s: string, prefix: string) {
    |prefix| <= |s| && s[..|prefix|] == prefix
  }

  predicate EndsWith(s: string, suffix: string) {
    |suffix| <= |s| && s[|s| - |suffix|..] == suffix
  }

  /** How much wider the flyout is with the conversation list expanded; 260 - 34. */
  const CONVERSATIONS_OFFSET: nat := CONVERSATIONS_SIDEBAR_WIDTH - CONVERSATIONS_SIDEBAR_WIDTH_COLLAPSED

  /** `getFlyoutWidth`; `None` stands for an undefined breakpoint or mode. */
  function GetFlyoutWidth(
    breakpoint: Option<string>, expanded: bool, isSecondSlotVisible: bool,
    flyoutWidthMode: Option<FlyoutWidthMode>): (r: string)
    ensures r in FLYOUT_WIDTHS
    ensures flyoutWidthMode == Some(Full) ==> r == "100%"
    ensures flyoutWidthMode != Some(Full) && breakpoint == Some("xs") ==> r == "90vw"
    ensures flyoutWidthMode != Some(Full) && breakpoint != Some("xs") ==>
      && (expanded <==> StartsWith(r, "calc(40vw + 226px"))
      && (isSecondSlotVisible <==> EndsWith(r, " + 400px"))
      && (r == "40vw" <==> !expanded && !isSecondSlotVisible)
  {
    RenderedCalcWidths();
    SideSlotWidthLacksOffset();
    if flyoutWidthMode == Some(Full) then "100%"
    else if breakpoint == Some("xs") then "90vw"
    else if !expanded && !isSecondSlotVisible then "40vw"
    else if expanded && !isSecondSlotVisible then "calc(40vw + " + Px(CONVERSATIONS_OFFSET)
    else if !expanded && isSecondSlotVisible then "calc(40vw + " + Px(SIDEBAR_WIDTH)
    else "calc(40vw + " + Px(CONVERSATIONS_OFFSET) + " + " + Px(SIDEBAR_WIDTH)
  }

  /** Each of the six widths is produced by some inputs. */
  lemma EveryFlyoutWidthIsProduced(w: string)
    requires w in FLYOUT_WIDTHS
    ensures exists breakpoint: Option<string>, expanded: bool, second: bool, mode: Option<FlyoutWidthMode> ::
      GetFlyoutWidth(breakpoint, expanded, second, mode) == w
  {
    RenderedCalcWidths();
    if w == "100%" {
      assert GetFlyoutWidth(None, false, false, Some(Full)) == w;
    } else if w == "90vw" {
      assert GetFlyoutWidth(Some("xs"), false, false, None) == w;
    } else if w == "40vw" {
      assert GetFlyoutWidth(None, false, false, None) == w;
    } else if w == "calc(40vw + 226px" {
      assert GetFlyoutWidth(None, true, false, None) == w;
    } else if w == "calc(40vw + 400px" {
      assert GetFlyoutWidth(None, false, true, None) == w;
    } else {
      assert GetFlyoutWidth(None, true, true, None) == w;
    }
  }

  /** `min-width` and `max-width` of the conversation sidebar, in px. */
  function SidebarWidth(expanded: bool): (w: nat)
    ensures w == CONVERSATIONS_SIDEBAR_WIDTH_COLLAPSED + (if expanded then CONVERSATIONS_OFFSET else 0)
  {
    if expanded then CONVERSATIONS_SIDEBAR_WIDTH else CONVERSATIONS_SIDEBAR_WIDTH_COLLAPSED
  }

  /** `margin-left` of the expand and new-chat buttons, in px. */
  function ButtonMarginLeft(expanded: bool): (m: nat)
    ensures expanded ==> m == SidebarWidth(true) - SidebarWidth(false)
    ensures !expanded ==> m == 5
  {
    if expanded then CONVERSATIONS_SIDEBAR_WIDTH - CONVERSATIONS_SIDEBAR_WIDTH_COLLAPSED else 5
  }

  /** Outside full mode and the xs breakpoint, expanding the list grows the flyout by what the sidebar grows. */
  lemma ExpandingGrowsFlyoutBySidebar(breakpoint: Option<string>, second: bool, mode: Option<FlyoutWidthMode>)
    requires mode != Some(Full) && breakpoint != Some("xs")
    ensures GetFlyoutWidth(breakpoint, true, second, mode) ==
      "calc(40vw + " + Px(SidebarWidth(true) - SidebarWidth(false)) + (if second then " + " + Px(SIDEBAR_WIDTH) else "")
  {
  }

  /** The component's state cells and the handlers that set them. */
  class ChatFlyoutState {
    var conversationId: Option<string>
    var flyoutWidthMode: FlyoutWidthMode
    var conversationsExpanded: bool
    var isSecondSlotVisible: bool
    var conversationListRefreshes: nat

    constructor ()
      ensures conversationId == None && flyoutWidthMode == Side
      ensures !conversationsExpanded && !isSecondSlotVisible && conversationListRefreshes == 0
    {
      conversationId := None;
      flyoutWidthMode := Side;
      conversationsExpanded := false;
      isSecondSlotVisible := false;
      conversationListRefreshes := 0;
    }

    /** The `size` given to the flyout at the current breakpoint. */
    function Size(breakpoint: Option<string>): (r: string)
      reads this
      ensures r in FLYOUT_WIDTHS
      ensures flyoutWidthMode == Full ==> r == "100%"
    {
      GetFlyoutWidth(breakpoint, conversationsExpanded, isSecondSlotVisible, Some(flyoutWidthMode))
    }

    /** The expand button. */
    method ToggleConversationsExpanded()
      modifies this
      ensures conversationsExpanded == !old(conversationsExpanded)
      ensures conversationId == old(conversationId) && flyoutWidthMode == old(flyoutWidthMode)
      ensures isSecondSlotVisible == old(isSecondSlotVisible)
      ensures conversationListRefreshes == old(conversationListRefreshes)
    {
      conversationsExpanded := !conversationsExpanded;
    }

    /** A conversation's deletion has completed: the selection is cleared only if it was the deleted one. */
    method ConversationDeleted(deletedConversationId: string)
      modifies this
      ensures old(conversationId) == Some(deletedConversationId) ==> conversationId == None
      ensures old(conversationId) != Some(deletedConversationId) ==> conversationId == old(conversationId)
      ensures conversationsExpanded == old(conversationsExpanded) && flyoutWidthMode == old(flyoutWidthMode)
      ensures isSecondSlotVisible == old(isSecondSlotVisible)
      ensures conversationListRefreshes == old(conversationListRefreshes)
    {
      if conversationId == Some(deletedConversationId) {
        conversationId := None;
      }
    }

    /** A conversation picked from the list. */
    method SelectConversation(nextConversationId: string)
      modifies this
      ensures conversationId == Some(nextConversationId)
      ensures conversationsExpanded == old(conversationsExpanded) && flyoutWidthMode == old(flyoutWidthMode)
      ensures isSecondSlotVisible == old(isSecondSlotVisible)
      ensures conversationListRefreshes == old(conversationListRefreshes)
    {
      conversationId := Some(nextConversationId);
    }

    /** The new-chat button. */
    method NewChat()
      modifies this
      ensures conversationId == None
      ensures conversationsExpanded == old(conversationsExpanded) && flyoutWidthMode == old(flyoutWidthMode)
      ensures isSecondSlotVisible == old(isSecondSlotVisible)
      ensures conversationListRefreshes == old(conversationListRefreshes)
    {
      conversationId := None;
    }

    /**
     * The chat body reports an updated conversation. `updatedInPlace` says
     * whether the body key was updated in place, which happens when no
     * conversation was selected (or its id was the empty string, which is falsy).
     */
    method ConversationUpdated(id: string) returns (updatedInPlace: bool)
      modifies this
      ensures updatedInPlace <==> old(conversationId) == None || old(conversationId) == Some("")
      ensures conversationId == Some(id)
      ensures conversationListRefreshes == old(conversationListRefreshes) + 1
      ensures conversationsExpanded == old(conversationsExpanded) && flyoutWidthMode == old(flyoutWidthMode)
      ensures isSecondSlotVisible == old(isSecondSlotVisible)
    {
      updatedInPlace := conversationId.None? || conversationId.value == "";
      conversationId := Some(id);
      conversationListRefreshes := conversationListRefreshes + 1;
    }

    /** The chat body's width-mode toggle. */
    method ToggleFlyoutWidthMode(newFlyoutWidthMode: FlyoutWidthMode)
      modifies this
      ensures flyoutWidthMode == newFlyoutWidthMode
      ensures conversationId == old(conversationId) && conversationsExpanded == old(conversationsExpanded)
      ensures isSecondSlotVisible == old(isSecondSlotVisible)
      ensures conversationListRefreshes == old(conversationListRefreshes)
    {
      flyoutWidthMode := newFlyoutWidthMode;
    }

    /** `setVisibility` handed to the multipane provider. */
    method SetSecondSlotVisibility(visible: bool)
      modifies this
      ensures isSecondSlotVisible == visible
      ensures conversationId == old(conversationId) && conversationsExpanded == old(conversationsExpanded)
      ensures flyoutWidthMode == old(flyoutWidthMode)
      ensures conversationListRefreshes == old(conversationListRefreshes)
    {
      isSecondSlotVisible := visible;
    }

    /** The flyout's close handler hides the second slot. */
    method Close()
      modifies this
      ensures !isSecondSlotVisible
      ensures conversationId == old(conversationId) && conversationsExpanded == old(conversationsExpanded)
      ensures flyoutWidthMode == old(flyoutWidthMode)
      ensures conversationListRefreshes == old(conversationListRefreshes)
    {
      isSecondSlotVisible := false;
    }
  }
}
