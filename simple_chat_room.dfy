/**
 * `SimpleChatRoom`: the plain socket chat room.  Pushed messages are
 * appended, a history replaces the messages, a user list replaces the
 * users; joining and sending are refused for blank input.  The header
 * counts every listed user while the cards leave out the current one.
 */
module SimpleChatRoom {
  import opened Wrappers
  import opened Text
  import opened ClientTypes

  /** What the room sends on the socket. */
  datatype Emit =
    | JoinEmit(user: User)
    | MessageEmit(userId: string, nickname: string, text: string)

  class Room {
    var messages: seq<ChatMessage>
    var users: seq<User>
    var currentMessage: string
    var userInfo: Option<User>
    var nickname: string
    var showNicknameInput: bool
    var emitted: seq<Emit>

    constructor ()
      ensures messages == [] && users == [] && currentMessage == "" && userInfo.None? && nickname == ""
      ensures showNicknameInput && emitted == []
    {
      messages, users, currentMessage, userInfo, nickname := [], [], "", None, "";
      showNicknameInput, emitted := true, [];
    }

    /** The socket's `message` event: appended at the end. */
    method OnMessage(m: ChatMessage)
      modifies this`messages
      ensures messages == old(messages) + [m]
    {
      messages := messages + [m];
    }

    /** The socket's `messages` event: the history replaces the list. */
    method OnMessages(history: seq<ChatMessage>)
      modifies this`messages
      ensures messages == history
    {
      messages := history;
    }

    /** The socket's `users` event: the list is replaced. */
    method OnUsers(list: seq<User>)
      modifies this`users
      ensures users == list
    {
      users := list;
    }

    /** Typing in the nickname field. */
    method SetNickname(text: string)
      modifies this`nickname
      ensures nickname == text
    {
      nickname := text;
    }

    /** Typing in the message field. */
    method SetCurrentMessage(text: string)
      modifies this`currentMessage
      ensures currentMessage == text
    {
      currentMessage := text;
    }

    /**
     * `sendMessage`: only non-blank text from a joined user is emitted,
     * trimmed and under the user's id and nickname, and the input is then
     * cleared; otherwise nothing happens.
     */
    method SendMessage()
      modifies this`emitted, this`currentMessage
      ensures IsBlank(old(currentMessage)) || userInfo.None? ==>
        emitted == old(emitted) && currentMessage == old(currentMessage)
      ensures !IsBlank(old(currentMessage)) && userInfo.Some? ==>
        && emitted == old(emitted) + [MessageEmit(userInfo.value.id, userInfo.value.nickname, Trim(old(currentMessage)))]
        && currentMessage == ""
    {
      if !IsBlank(currentMessage) && userInfo.Some? {
        emitted := emitted + [MessageEmit(userInfo.value.id, userInfo.value.nickname, Trim(currentMessage))];
        currentMessage := "";
      }
    }

    /**
     * `handleJoinChat`: ignored for a blank nickname; otherwise the user is
     * the socket's id with the trimmed nickname, and is set and emitted.
     */
    method HandleJoinChat(socketId: string)
      modifies this`userInfo, this`emitted, this`showNicknameInput
      ensures IsBlank(nickname) ==>
        userInfo == old(userInfo) && emitted == old(emitted) && showNicknameInput == old(showNicknameInput)
      ensures !IsBlank(nickname) ==>
        && userInfo == Some(User(socketId, Trim(nickname)))
        && emitted == old(emitted) + [JoinEmit(User(socketId, Trim(nickname)))]
        && !showNicknameInput
    {
      if !IsBlank(nickname) {
        var user := User(socketId, Trim(nickname));
        userInfo := Some(user);
        emitted := emitted + [JoinEmit(user)];
        showNicknameInput := false;
      }
    }

    /**
     * The users header and the cards below it: the header counts the whole
     * list, the cards are the users whose id is not the current user's.
     */
    method UsersPanel() returns (count: nat, cards: seq<User>)
      ensures count == |users|
      ensures cards == Others(users, if userInfo.Some? then Some(userInfo.value.id) else None)
      ensures forall u :: u in cards <==> u in users && (userInfo.None? || u.id != userInfo.value.id)
      ensures userInfo.Some? ==> count == |cards| + CountId(users, userInfo.value.id)
    {
      count := |users|;
      cards := Others(users, if userInfo.Some? then Some(userInfo.value.id) else None);
    }
  }
}
