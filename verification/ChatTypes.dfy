/** The values the chat room passes around: users, messages and send channels. */
module ChatTypes {

  datatype Option<+T> = None | Some(value: T)

  /** A Go string is a sequence of bytes; each char of a string stands for one byte. */
  datatype User = User(id: string, nickname: string, avatar: string, userType: string)

  const SYSTEM_ID := "system"

  const SYSTEM_USER := User(SYSTEM_ID, "system", "", "system")

  datatype Attachment = Attachment(key: string, name: string, mimeType: string, size: int, meta: Option<string>)

  /** The message type and its payload in one: every type has exactly one payload structure. */
  datatype Payload =
    | InitData(currentUser: User, onlineUsers: seq<User>, maxUsers: int)
    | UserJoined(joined: User)
    | UserLeft(left: User)
    | Confirm(originalTempId: string, confirmed: nat)
    | Text(content: string)
    | Error(code: int)
    | TokenUpdate(token: string)
    | Attachments(description: string, items: seq<Attachment>)
  {
    predicate IsPresence() {
      UserJoined? || UserLeft?
    }

    /** The types that only ever reach a connection through the room's broadcast channel. */
    predicate IsBroadcast() {
      UserJoined? || UserLeft? || Text? || Attachments?
    }
  }

  /** `id` stands for the message's random UUID; identifiers are drawn fresh from a counter. */
  datatype Message = Message(id: nat, roomCode: string, sender: User, payload: Payload)

  const SEND_CAPACITY := 256

  /** A connection's send channel, with how often it was closed and how often it was sent on while closed. */
  datatype Channel = Channel(queue: seq<Message>, open: bool, closes: nat, faults: nat) {

    predicate IsFull() {
      |queue| >= SEND_CAPACITY
    }

    /** Non-blocking send: dropped when the buffer is full; a panic (a fault) when the channel is closed. */
    function TrySend(m: Message): Channel {
      if !open then this.(faults := faults + 1)
      else if IsFull() then this
      else this.(queue := queue + [m])
    }

    /** The close idiom `select { case <-ch: default: close(ch) }`. */
    function DrainOrClose(): Channel {
      if queue != [] then this.(queue := queue[1..])
      else if !open then this
      else this.(open := false, closes := closes + 1)
    }
  }

  /** A full channel holds its 256 messages and no fewer; only then is a message dropped, and only on a closed one is a
      send a fault. */
  lemma TrySendExactly(ch: Channel, m: Message)
    ensures ch.open ==> ch.TrySend(m) == ch.(queue := if |ch.queue| < SEND_CAPACITY then ch.queue + [m] else ch.queue)
    ensures !ch.open ==> ch.TrySend(m) == ch.(faults := ch.faults + 1)
  {
  }

  const EMPTY_CHANNEL := Channel([], true, 0, 0)
}
