/** The chat screen of the web client (threadweaver-frontend/src/App.tsx): a draft
    string and the list of sent strings, changed by two event handlers. */
module Screen {

  /** The code points String.prototype.trim removes: the ECMAScript WhiteSpace set
      (tab, vertical tab, form feed, space, no-break space, the byte-order mark and
      the other Unicode space separators) and the LineTerminator set. */
  predicate IsJsWhitespace(c: char)
  {
    c == '\t' || c == '\U{000B}' || c == '\U{000C}' || c == ' ' || c == '\U{00A0}' || c == '\U{FEFF}'
    || c == '\U{1680}' || ('\U{2000}' <= c <= '\U{200A}') || c == '\U{202F}' || c == '\U{205F}' || c == '\U{3000}'
    || c == '\n' || c == '\r' || c == '\U{2028}' || c == '\U{2029}'
  }

  /** A draft made only of whitespace (the empty draft included). */
  predicate IsBlank(s: string)
  {
    forall i :: 0 <= i < |s| ==> IsJsWhitespace(s[i])
  }

  /** s without its leading whitespace: the longest suffix of s whose first
      character is not whitespace, everything before it being whitespace. */
  function TrimStart(s: string): (r: string)
    ensures |r| <= |s| && r == s[|s| - |r|..]
    ensures forall i :: 0 <= i < |s| - |r| ==> IsJsWhitespace(s[i])
    ensures r == [] || !IsJsWhitespace(r[0])
  {
    if s != [] && IsJsWhitespace(s[0]) then TrimStart(s[1..]) else s
  }

  /** s without its trailing whitespace: the longest prefix of s whose last
      character is not whitespace, everything after it being whitespace. */
  function TrimEnd(s: string): (r: string)
    ensures |r| <= |s| && r == s[..|r|]
    ensures forall i :: |r| <= i < |s| ==> IsJsWhitespace(s[i])
    ensures r == [] || !IsJsWhitespace(r[|r| - 1])
  {
    if s != [] && IsJsWhitespace(s[|s| - 1]) then TrimEnd(s[..|s| - 1]) else s
  }

  /** String.prototype.trim. */
  function Trim(s: string): string
  {
    TrimEnd(TrimStart(s))
  }

  /** The guard of the send handler: trimming leaves nothing exactly when the draft
      is blank. */
  lemma TrimEmptyIffBlank(s: string)
    ensures Trim(s) == "" <==> IsBlank(s)
  {
  }

  /** Trimming never yields a blank string other than the empty one, and trimming
      twice changes nothing more. */
  lemma TrimIdempotent(s: string)
    ensures Trim(Trim(s)) == Trim(s)
    ensures Trim(s) == "" || !IsBlank(Trim(s))
  {
  }

  class ChatScreen {
    /** The draft in the text area. */
    var inputValue: string
    /** The sent messages, oldest first. */
    var chatMessages: seq<string>

    /** Only non-blank drafts are ever sent. */
    ghost predicate Valid()
      reads this
    {
      forall i :: 0 <= i < |chatMessages| ==> !IsBlank(chatMessages[i])
    }

    /** Both pieces of state start empty. */
    constructor ()
      ensures Valid()
      ensures inputValue == "" && chatMessages == []
    {
      inputValue := "";
      chatMessages := [];
    }

    /** The send button: a blank draft is ignored; otherwise the draft, untrimmed,
        is appended to the list and the draft is cleared. */
    method HandleSend()
      requires Valid()
      modifies this
      ensures Valid()
      ensures old(chatMessages) <= chatMessages
      ensures IsBlank(old(inputValue)) ==>
                inputValue == old(inputValue) && chatMessages == old(chatMessages)
      ensures !IsBlank(old(inputValue)) ==>
                chatMessages == old(chatMessages) + [old(inputValue)] && inputValue == ""
    {
      TrimEmptyIffBlank(inputValue);
      if Trim(inputValue) == "" {
        return;
      }
      chatMessages := chatMessages + [inputValue];
      inputValue := "";
    }

    /** The text-area change handler: the draft becomes the new value, whatever it is. */
    method HandleInputChange(value: string)
      requires Valid()
      modifies this
      ensures Valid()
      ensures inputValue == value && chatMessages == old(chatMessages)
    {
      inputValue := value;
    }
  }

  /** A session as a user would drive the screen: a blank draft is not sent, a padded
      one is sent as typed. */
  method TypingSession()
  {
    var screen := new ChatScreen();
    screen.HandleInputChange("   ");
    screen.HandleSend();
    assert screen.chatMessages == [] && screen.inputValue == "   ";
    screen.HandleInputChange(" hello ");
    assert !IsBlank(screen.inputValue) by { assert !IsJsWhitespace(screen.inputValue[1]); }
    screen.HandleSend();
    assert screen.chatMessages == [" hello "] && screen.inputValue == "";
  }
}
