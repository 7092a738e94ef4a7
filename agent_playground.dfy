/**
 * The playground page's drawer state: whether the details drawer and the headers drawer
 * are open, what the details drawer shows, and the message it shows.
 */
module AgentPlayground {
  import opened Wrappers
  import Messages

  /** The details drawer has a single mode: inspecting a message. */
  datatype DetailsDrawerMode = MessageMode

  datatype DrawerState = DrawerState(
    detailsDrawerOpen: bool,
    headersDrawerOpen: bool,
    detailsDrawerMode: DetailsDrawerMode,
    detailsDrawerMessage: Option<Messages.ConversationMessage>)

  const Initial := DrawerState(false, false, MessageMode, None)

  function ToggleDetails(s: DrawerState): (t: DrawerState)
    ensures t.detailsDrawerOpen == !s.detailsDrawerOpen
    ensures t.(detailsDrawerOpen := s.detailsDrawerOpen) == s
  {
    s.(detailsDrawerOpen := !s.detailsDrawerOpen)
  }

  function ToggleHeaders(s: DrawerState): (t: DrawerState)
    ensures t.headersDrawerOpen == !s.headersDrawerOpen
    ensures t.(headersDrawerOpen := s.headersDrawerOpen) == s
  {
    s.(headersDrawerOpen := !s.headersDrawerOpen)
  }

  function OpenDetails(s: DrawerState): (t: DrawerState)
    ensures t.detailsDrawerOpen
    ensures t.(detailsDrawerOpen := s.detailsDrawerOpen) == s
  {
    s.(detailsDrawerOpen := true)
  }

  function CloseDetails(s: DrawerState): (t: DrawerState)
    ensures !t.detailsDrawerOpen
    ensures t.(detailsDrawerOpen := s.detailsDrawerOpen) == s
  {
    s.(detailsDrawerOpen := false)
  }

  function SetMessage(s: DrawerState, m: Option<Messages.ConversationMessage>): (t: DrawerState)
    ensures t.detailsDrawerMessage == m
    ensures t.(detailsDrawerMessage := s.detailsDrawerMessage) == s
  {
    s.(detailsDrawerMessage := m)
  }

  /** Show a message: the message is set, the mode is `message`, the drawer is open; the headers drawer is untouched. */
  function OpenForMessage(s: DrawerState, m: Messages.ConversationMessage): (t: DrawerState)
    ensures t.detailsDrawerMessage == Some(m) && t.detailsDrawerMode == MessageMode && t.detailsDrawerOpen
    ensures t.headersDrawerOpen == s.headersDrawerOpen
  {
    s.(detailsDrawerMessage := Some(m), detailsDrawerMode := MessageMode, detailsDrawerOpen := true)
  }

  /** Back to a closed details drawer with no message; the headers drawer is untouched. */
  function Reset(s: DrawerState): (t: DrawerState)
    ensures !t.detailsDrawerOpen && t.detailsDrawerMode == MessageMode && t.detailsDrawerMessage.None?
    ensures t.headersDrawerOpen == s.headersDrawerOpen
  {
    s.(detailsDrawerOpen := false, detailsDrawerMode := MessageMode, detailsDrawerMessage := None)
  }

  lemma ToggleDetailsTwice(s: DrawerState)
    ensures ToggleDetails(ToggleDetails(s)) == s
  {
  }

  lemma ToggleHeadersTwice(s: DrawerState)
    ensures ToggleHeaders(ToggleHeaders(s)) == s
  {
  }

  lemma OpenCloseIdempotent(s: DrawerState)
    ensures OpenDetails(OpenDetails(s)) == OpenDetails(s)
    ensures CloseDetails(CloseDetails(s)) == CloseDetails(s)
  {
  }

  /** Resetting the initial state leaves it as it is, and resetting twice is resetting once. */
  lemma ResetIdempotent(s: DrawerState)
    ensures Reset(Reset(s)) == Reset(s)
    ensures Reset(Initial) == Initial
  {
  }

  /** The store: four fields that each operation updates in place. */
  class Store {
    var detailsDrawerOpen: bool
    var headersDrawerOpen: bool
    var detailsDrawerMode: DetailsDrawerMode
    var detailsDrawerMessage: Option<Messages.ConversationMessage>

    function State(): DrawerState
      reads this
    {
      DrawerState(detailsDrawerOpen, headersDrawerOpen, detailsDrawerMode, detailsDrawerMessage)
    }

    constructor ()
      ensures State() == Initial
    {
      detailsDrawerOpen := false;
      headersDrawerOpen := false;
      detailsDrawerMode := MessageMode;
      detailsDrawerMessage := None;
    }

    method ToggleDetailsDrawer()
      modifies this
      ensures State() == ToggleDetails(old(State()))
    {
      detailsDrawerOpen := !detailsDrawerOpen;
    }

    method ToggleHeadersDrawer()
      modifies this
      ensures State() == ToggleHeaders(old(State()))
    {
      headersDrawerOpen := !headersDrawerOpen;
    }

    method OpenDetailsDrawer()
      modifies this
      ensures State() == OpenDetails(old(State()))
    {
      detailsDrawerOpen := true;
    }

    method CloseDetailsDrawer()
      modifies this
      ensures State() == CloseDetails(old(State()))
    {
      detailsDrawerOpen := false;
    }

    method SetDetailsDrawerMessage(message: Option<Messages.ConversationMessage>)
      modifies this
      ensures State() == SetMessage(old(State()), message)
    {
      detailsDrawerMessage := message;
    }

    method OpenDetailsDrawerForMessage(message: Messages.ConversationMessage)
      modifies this
      ensures State() == OpenForMessage(old(State()), message)
    {
      detailsDrawerMessage := Some(message);
      detailsDrawerMode := MessageMode;
      detailsDrawerOpen := true;
    }

    method ResetDrawerState()
      modifies this
      ensures State() == Reset(old(State()))
    {
      detailsDrawerOpen := false;
      detailsDrawerMode := MessageMode;
      detailsDrawerMessage := None;
    }
  }
}
