/**
  The chat page (`Chat`): a sidebar of matches, the conversation with the
  selected one, and the message composer. Sending only clears the box and
  shows the typing indicator; the conversations themselves are fixed. The
  indicator's 2 s timer is modelled as the step that fires it.
 */
module Chat {
  import opened Wrappers
  import opened Text

  datatype Sender = Them | Me

  datatype Message = Message(id: int, text: string, sender: Sender, timestamp: string)

  datatype SidebarMatch = SidebarMatch(
    id: int, name: string, photo: string, lastMessage: string, timestamp: string, hasNewMessage: bool)

  const MockMatches: seq<SidebarMatch> := [
    SidebarMatch(1, "Emma", "/placeholder.svg", "Hey! Thanks for the like \U{00F0}\U{0178}\U{02DC}\U{0160}", "2m", true),
    SidebarMatch(2, "Marcus", "/placeholder.svg", "That restaurant looks amazing!", "1h", false),
    SidebarMatch(3, "Sophie", "/placeholder.svg", "What's your favorite book?", "3h", true),
    SidebarMatch(4, "Jordan", "/placeholder.svg", "Love your music taste!", "1d", false),
    SidebarMatch(5, "Riley", "/placeholder.svg", "Your photos are incredible!", "2d", true)
  ]

  /** The conversations, by match id; matches 3 to 5 have none. */
  const MockMessages: map<int, seq<Message>> := map[
    1 := [
      Message(1, "Hey! Thanks for the like \U{00F0}\U{0178}\U{02DC}\U{0160}", Them, "10:30 AM"),
      Message(2, "You're welcome! I love your photos", Me, "10:32 AM"),
      Message(3, "Thank you! I'm really into art and photography", Them, "10:35 AM"),
      Message(4, "That's awesome! What kind of art do you create?", Me, "10:37 AM"),
      Message(5, "Mostly digital illustrations and some watercolor paintings", Them, "10:40 AM"),
      Message(6, "I'd love to see some of your work sometime!", Me, "10:42 AM")
    ],
    2 := [
      Message(1, "That restaurant looks amazing!", Them, "9:15 AM"),
      Message(2, "Right? Want to check it out together?", Me, "9:20 AM")
    ]
  ]

  /**
    `matchId ? parseInt(matchId) : mockMatches[0].id`: a missing or empty
    route parameter selects the first match; any other is parsed, and one
    with no leading number gives `NaN` (`None`).
   */
  function InitialSelection(matchId: Option<string>): (selected: Option<int>)
    ensures matchId.None? || matchId == Some("") ==> selected == Some(MockMatches[0].id)
    ensures matchId.Some? && matchId.value != "" ==> selected == ParseInt(matchId.value)
  {
    if matchId.Some? && matchId.value != "" then ParseInt(matchId.value) else Some(MockMatches[0].id)
  }

  /** A route parameter written from a match id selects that id. */
  lemma RouteSelectsMatch(id: int)
    ensures InitialSelection(Some(IntToDecimal(id))) == Some(id)
  {
    ParseIntOfDecimal(id, "");
    assert IntToDecimal(id) + "" == IntToDecimal(id);
  }

  /** Entry `i` is the first with id `id`. */
  predicate First(matches: seq<SidebarMatch>, i: int, id: int) {
    0 <= i < |matches| && matches[i].id == id && forall j :: 0 <= j < i ==> matches[j].id != id
  }

  /**
    `matches.find(m => m.id === selected)`: the first entry with that id, or
    `undefined` when there is none (always for `NaN`).
   */
  function FindMatch(matches: seq<SidebarMatch>, selected: Option<int>): (m: Option<SidebarMatch>)
    ensures m.None? <==> selected.None? || forall i :: 0 <= i < |matches| ==> matches[i].id != selected.value
    ensures m.Some? ==> m.value.id == selected.value
    ensures m.Some? ==> exists i :: First(matches, i, selected.value) && matches[i] == m.value
  {
    if selected.None? || matches == [] then None
    else if matches[0].id == selected.value then Some(matches[0])
    else
      var m := FindMatch(matches[1..], selected);
      if m.Some? then
        var i :| First(matches[1..], i, selected.value) && matches[1..][i] == m.value;
        FirstOfTail(matches, i, selected.value);
        m
      else m
  }

  /** The first entry with `id` after a head without it is the first entry with `id` overall. */
  lemma FirstOfTail(matches: seq<SidebarMatch>, i: int, id: int)
    requires matches != [] && matches[0].id != id && First(matches[1..], i, id)
    ensures First(matches, i + 1, id) && matches[i + 1] == matches[1..][i]
  {
  }

  /** The sidebar's ids are distinct. */
  predicate DistinctIds(matches: seq<SidebarMatch>) {
    forall i, j :: 0 <= i < j < |matches| ==> matches[i].id != matches[j].id
  }

  /** With distinct ids, looking up an entry's id finds that entry. */
  lemma {:induction false} FindOwnId(matches: seq<SidebarMatch>, i: nat)
    requires DistinctIds(matches) && i < |matches|
    ensures FindMatch(matches, Some(matches[i].id)) == Some(matches[i])
  {
    if i > 0 {
      FindOwnId(matches[1..], i - 1);
    }
  }

  /** `mockMessages[selected] || []`. */
  function MessagesFor(conversations: map<int, seq<Message>>, selected: Option<int>): (msgs: seq<Message>)
    ensures selected.Some? && selected.value in conversations ==> msgs == conversations[selected.value]
    ensures selected.None? || selected.value !in conversations ==> msgs == []
  {
    if selected.Some? && selected.value in conversations then conversations[selected.value] else []
  }

  /**
    The send button's `disabled={!newMessage.trim()}`: disabled exactly when
    the text is whitespace only, which is when sending does nothing.
   */
  function SendDisabled(newMessage: string): (disabled: bool)
    ensures disabled <==> IsBlank(newMessage)
  {
    Trim(newMessage) == []
  }

  /** Whether a key press in the box sends: only Enter, and never with Shift held. */
  function SendsOnKey(key: string, shiftKey: bool): (sends: bool)
    ensures shiftKey ==> !sends
    ensures sends ==> key == "Enter"
    ensures key == "Enter" && !shiftKey ==> sends
  {
    key == "Enter" && !shiftKey
  }

  class ChatView {
    var newMessage: string
    var selectedMatch: Option<int>
    var isTyping: bool

    /** The page opened at `/chat` (no parameter) or `/chat/:matchId`. */
    constructor (matchId: Option<string>)
      ensures newMessage == "" && !isTyping
      ensures selectedMatch == InitialSelection(matchId)
    {
      newMessage := "";
      selectedMatch := InitialSelection(matchId);
      isTyping := false;
    }

    /**
      `currentMatch`: the sidebar entry with the selected id; the header shows
      one exactly when the selected id is one of the five, 1 to 5.
     */
    function CurrentMatch(): (m: Option<SidebarMatch>)
      reads this
      ensures m.Some? ==> m.value in MockMatches && selectedMatch == Some(m.value.id)
      ensures m.None? <==> selectedMatch.None? || !(1 <= selectedMatch.value <= 5)
    {
      assert forall i :: 0 <= i < |MockMatches| ==> MockMatches[i].id == i + 1;
      if selectedMatch.Some? && 1 <= selectedMatch.value <= 5 then
        assert MockMatches[selectedMatch.value - 1].id == selectedMatch.value;
        FindMatch(MockMatches, selectedMatch)
      else FindMatch(MockMatches, selectedMatch)
    }

    /**
      `messages`: the conversation of the selected match; only matches 1 and
      2 have one, every other selection shows none.
     */
    function Messages(): (msgs: seq<Message>)
      reads this
      ensures selectedMatch.Some? && selectedMatch.value in MockMessages ==> msgs == MockMessages[selectedMatch.value]
      ensures msgs != [] <==> selectedMatch == Some(1) || selectedMatch == Some(2)
    {
      MessagesFor(MockMessages, selectedMatch)
    }

    /** Typing into the box. */
    method SetNewMessage(value: string)
      modifies this
      ensures newMessage == value
      ensures selectedMatch == old(selectedMatch) && isTyping == old(isTyping)
    {
      newMessage := value;
    }

    /**
      `handleSendMessage`: with whitespace-only text nothing happens;
      otherwise the text as typed (untrimmed) goes out, the box is cleared
      and the typing indicator comes on. The conversation is not changed.
     */
    method HandleSendMessage() returns (sent: Option<string>)
      modifies this
      ensures SendDisabled(old(newMessage)) ==>
        sent.None? && newMessage == old(newMessage) && isTyping == old(isTyping)
      ensures !SendDisabled(old(newMessage)) ==>
        sent == Some(old(newMessage)) && newMessage == "" && isTyping
      ensures selectedMatch == old(selectedMatch)
    {
      if Trim(newMessage) == [] {
        return None;
      }
      sent := Some(newMessage);
      newMessage := "";
      isTyping := true;
    }

    /** The indicator's timer fires. */
    method TypingTimeout()
      modifies this
      ensures !isTyping
      ensures newMessage == old(newMessage) && selectedMatch == old(selectedMatch)
    {
      isTyping := false;
    }

    /** `handleKeyPress`: Enter without Shift sends; Shift+Enter and other keys do nothing. */
    method HandleKeyPress(key: string, shiftKey: bool) returns (sent: Option<string>)
      modifies this
      ensures SendsOnKey(key, shiftKey) && !SendDisabled(old(newMessage)) ==>
        sent == Some(old(newMessage)) && newMessage == "" && isTyping
      ensures !SendsOnKey(key, shiftKey) || SendDisabled(old(newMessage)) ==>
        sent.None? && newMessage == old(newMessage) && isTyping == old(isTyping)
      ensures selectedMatch == old(selectedMatch)
    {
      if key == "Enter" && !shiftKey {
        sent := HandleSendMessage();
      } else {
        sent := None;
      }
    }

    /** Clicking a sidebar entry selects it, and the header then shows that entry. */
    method SelectMatch(i: nat)
      requires i < |MockMatches|
      modifies this
      ensures selectedMatch == Some(MockMatches[i].id)
      ensures CurrentMatch() == Some(MockMatches[i])
      ensures newMessage == old(newMessage) && isTyping == old(isTyping)
    {
      selectedMatch := Some(MockMatches[i].id);
      FindOwnId(MockMatches, i);
    }
  }
}
