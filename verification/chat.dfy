/** The room chat (`components/Chat.tsx`): composing and sending text, files and voice
    notes over the socket, the list of messages the server broadcasts back, and which
    controls the composer shows. The socket, the file reader and the recorder are not
    modelled; their callbacks arrive as events. */
module Chat {
  import opened Common
  import opened Text

  datatype MessageType = TextMessage | ImageMessage | PdfMessage | AudioMessage

  /** A message of the list (`models/Message.ts`), reduced to the fields the chat reads. */
  datatype Message = Message(
    roomId: string,
    userId: string,
    message: string,
    timestamp: int,
    kind: MessageType,
    fileName: Option<string>
  )

  /** The body of an outgoing `userMsg`. */
  datatype Payload = Payload(
    message: string,
    userId: string,
    timestamp: int,
    kind: MessageType,
    fileName: Option<string>
  )

  /** An outgoing `userMsg`. */
  datatype Outgoing = Outgoing(roomId: string, roomName: string, data: Payload)

  /** The name the chat gives a recorded voice note. */
  const VoiceFileName := "voice-message.webm"

  /** `socket` says whether the socket hook has produced a socket yet. */
  datatype Chat = Chat(
    roomId: string,
    userId: string,
    socket: bool,
    input: string,
    chatList: seq<Message>,
    isUploading: bool,
    showEmojiPicker: bool,
    isRecording: bool,
    hasAudioBlob: bool
  )

  /** The outcome of a handler: the next state and the message emitted, if any. */
  datatype Outcome = Outcome(chat: Chat, sent: Option<Outgoing>)

  /** The first render: an empty composer over the messages passed in. */
  function Init(roomId: string, userId: string, messages: seq<Message>): (c: Chat)
    ensures c.chatList == messages && c.input == "" && !c.socket
  {
    Chat(roomId, userId, false, "", messages, false, false, false, false)
  }

  /** An outgoing message from this user in this room. */
  function Envelope(c: Chat, message: string, now: int, kind: MessageType, fileName: Option<string>): (o: Outgoing)
    ensures o.roomId == c.roomId && o.roomName == c.roomId && o.data.userId == c.userId
  {
    Outgoing(c.roomId, c.roomId, Payload(message, c.userId, now, kind, fileName))
  }

  /** `handleSubmit`. Input that trims to nothing is ignored. Otherwise the untrimmed
      input goes out as a text message and the composer is cleared; before the socket
      exists, `socket.emit` throws and nothing changes. */
  function Submit(c: Chat, now: int): (o: Outcome)
    ensures o.sent.Some? <==> c.socket && Trim(c.input) != ""
    ensures o.sent.None? ==> o.chat == c
    ensures o.sent.Some? ==>
              && o.chat == c.(input := "")
              && o.sent.value == Envelope(c, c.input, now, TextMessage, None)
  {
    if Trim(c.input) == "" || !c.socket then Outcome(c, None)
    else Outcome(c.(input := ""), Some(Envelope(c, c.input, now, TextMessage, None)))
  }

  /** `handleUserMsgBroadcast`: the message goes to the end of the list. */
  function Receive(c: Chat, m: Message): (r: Chat)
    ensures |r.chatList| == |c.chatList| + 1
    ensures r.chatList[..|c.chatList|] == c.chatList && r.chatList[|c.chatList|] == m
    ensures r.(chatList := c.chatList) == c
  {
    c.(chatList := c.chatList + [m])
  }

  /** A new `messages` prop replaces the list wholesale. */
  function MessagesChanged(c: Chat, messages: seq<Message>): (r: Chat)
    ensures r.chatList == messages && r.(chatList := c.chatList) == c
  {
    c.(chatList := messages)
  }

  /** `onEmojiClick`: the emoji goes to the end of the input. */
  function EmojiClicked(c: Chat, emoji: string): (r: Chat)
    ensures |r.input| == |c.input| + |emoji|
    ensures r.input[..|c.input|] == c.input && r.input[|c.input|..] == emoji
    ensures r.(input := c.input) == c
  {
    c.(input := c.input + emoji)
  }

  /** The message type of an uploaded file, from its MIME type. */
  function ClassifyFile(mime: string): (t: MessageType)
    ensures t == ImageMessage <==> StartsWith(mime, "image/")
    ensures t == PdfMessage <==> !StartsWith(mime, "image/") && mime == "application/pdf"
    ensures t == TextMessage <==> !StartsWith(mime, "image/") && mime != "application/pdf"
    ensures t != AudioMessage
  {
    if StartsWith(mime, "image/") then ImageMessage
    else if mime == "application/pdf" then PdfMessage
    else TextMessage
  }

  /** A file was chosen: the upload indicator shows until the reader delivers it. An
      empty choice does nothing. */
  function FileChosen(c: Chat, present: bool): (r: Chat)
    ensures present ==> r == c.(isUploading := true)
    ensures !present ==> r == c
  {
    if present then c.(isUploading := true) else c
  }

  /** The reader delivered a chosen file as a data URL: it goes out typed by its MIME type
      and named, and the indicator clears. Without a socket the emit throws first and
      the indicator stays. */
  function FileLoaded(c: Chat, mime: string, name: string, content: string, now: int): (o: Outcome)
    ensures o.sent.Some? <==> c.socket
    ensures !c.socket ==> o.chat == c
    ensures c.socket ==> o.chat == c.(isUploading := false)
    ensures c.socket ==> o.sent.value == Envelope(c, content, now, ClassifyFile(mime), Some(name))
  {
    if !c.socket then Outcome(c, None)
    else Outcome(c.(isUploading := false), Some(Envelope(c, content, now, ClassifyFile(mime), Some(name))))
  }

  /** The microphone was granted and recording started. */
  function RecordingStarted(c: Chat): (r: Chat)
    ensures r.isRecording && r.(isRecording := c.isRecording) == c
  {
    c.(isRecording := true)
  }

  /** `stopRecording`: only a running recording stops; its blob arrives later. */
  function StopPressed(c: Chat): (r: Chat)
    ensures !r.isRecording
    ensures c.isRecording ==> r == c.(isRecording := false)
    ensures !c.isRecording ==> r == c
  {
    if c.isRecording then c.(isRecording := false) else c
  }

  /** The recorder's 'stop' callback stores the recorded blob. */
  function BlobReady(c: Chat): (r: Chat)
    ensures r.hasAudioBlob && r.(hasAudioBlob := c.hasAudioBlob) == c
  {
    c.(hasAudioBlob := true)
  }

  /** "Send" and "Discard" on a recorded note both drop the blob; the note itself goes out
      when the reader delivers it. */
  function BlobDropped(c: Chat): (r: Chat)
    ensures !r.hasAudioBlob && r.(hasAudioBlob := c.hasAudioBlob) == c
  {
    c.(hasAudioBlob := false)
  }

  /** The reader delivered a recorded note: it goes out as audio under the fixed name. */
  function VoiceLoaded(c: Chat, content: string, now: int): (o: Outcome)
    ensures o.chat == c
    ensures o.sent.Some? <==> c.socket
    ensures c.socket ==> o.sent.value == Envelope(c, content, now, AudioMessage, Some(VoiceFileName))
  {
    if c.socket then Outcome(c, Some(Envelope(c, content, now, AudioMessage, Some(VoiceFileName))))
    else Outcome(c, None)
  }

  /** The click listener on the document closes an open picker unless the click landed in
      it. */
  function DocumentClicked(c: Chat, insidePicker: bool): (r: Chat)
    ensures c.showEmojiPicker && !insidePicker ==> r == c.(showEmojiPicker := false)
    ensures !c.showEmojiPicker || insidePicker ==> r == c
  {
    if c.showEmojiPicker && !insidePicker then c.(showEmojiPicker := false) else c
  }

  /** The send button renders exactly while the input is not empty. */
  predicate SendVisible(c: Chat) {
    |c.input| > 0
  }

  /** The microphone button renders while the input is empty and no recorded note waits
      (its container is hidden while one does). */
  predicate MicVisible(c: Chat) {
    |c.input| == 0 && !c.hasAudioBlob
  }

  /** The text field renders unless a note waits or a recording runs. */
  predicate InputVisible(c: Chat) {
    !c.hasAudioBlob && !c.isRecording
  }

  /** A message whose sender id is this chat's user is this user's own: it is aligned
      right and stamped with the time only, where other messages carry a sender tag. */
  predicate OwnMessage(c: Chat, m: Message) {
    m.userId == c.userId
  }

  /** The bubble of an own message is highlighted unless it is audio. */
  predicate Highlighted(c: Chat, m: Message)
    ensures Highlighted(c, m) ==> OwnMessage(c, m)
    ensures m.kind == AudioMessage ==> !Highlighted(c, m)
  {
    OwnMessage(c, m) && m.kind != AudioMessage
  }

  /** A text this chat sent comes back from the broadcast as its own highlighted
      message, and the same message in the chat of another user is neither. */
  lemma EchoIsOwn(c: Chat, other: Chat, now: int, m: Message)
    requires Submit(c, now).sent.Some?
    requires m.userId == Submit(c, now).sent.value.data.userId
    requires m.kind == Submit(c, now).sent.value.data.kind
    requires other.userId != c.userId
    ensures OwnMessage(c, m) && Highlighted(c, m)
    ensures !OwnMessage(other, m) && !Highlighted(other, m)
  {
  }

  /** The sender tag under another user's message: "User " and the second dash-separated
      part of the id. An id without a dash has no second part; the missing element is
      `undefined`, which renders as nothing, leaving "User ". */
  function SenderTag(userId: string): (r: string)
    ensures |r| >= 5 && r[..5] == "User "
    ensures '-' !in r[5..]
    ensures '-' !in userId ==> r == "User "
  {
    var parts := Split(userId, '-');
    SplitPartsLackSeparator(userId, '-');
    var tag := if |parts| >= 2 then parts[1] else "";
    assert ("User " + tag)[5..] == tag;
    "User " + tag
  }

  /** The tag is the text between the first and the second dash, or after the only one. */
  lemma SenderTagOfParts(head: string, second: string, rest: string)
    requires '-' !in head && '-' !in second
    ensures SenderTag(head + "-" + second) == "User " + second
    ensures SenderTag(head + "-" + second + "-" + rest) == "User " + second
  {
    SenderTagOfTwoParts(head, second);
    SenderTagOfMoreParts(head, second, rest);
    assert head + "-" + second + "-" + rest == head + "-" + (second + "-" + rest);
  }

  lemma SenderTagOfTwoParts(head: string, second: string)
    requires '-' !in head && '-' !in second
    ensures SenderTag(head + "-" + second) == "User " + second
  {
    SenderTagAfterFirstDash(head, second);
    assert Split(second, '-') == [second];
  }

  lemma SenderTagOfMoreParts(head: string, second: string, rest: string)
    requires '-' !in head && '-' !in second
    ensures SenderTag(head + "-" + (second + "-" + rest)) == "User " + second
  {
    var tail := second + "-" + rest;
    SenderTagAfterFirstDash(head, tail);
    assert tail == second + ['-'] + rest;
    SplitCons(second, rest, '-');
  }

  /** With a dash-free head, the tag is the first part of what follows the first dash. */
  lemma SenderTagAfterFirstDash(head: string, tail: string)
    requires '-' !in head
    ensures SenderTag(head + "-" + tail) == "User " + Split(tail, '-')[0]
  {
    var id := head + "-" + tail;
    assert id == head + ['-'] + tail;
    SplitCons(head, tail, '-');
    assert Split(id, '-')[1] == Split(tail, '-')[0];
  }

  /** Ids of the form `user-<suffix>`, as the chat generates them, are tagged with their
      suffix. */
  lemma SenderTagOfGeneratedId(suffix: string)
    requires '-' !in suffix
    ensures SenderTag("user-" + suffix) == "User " + suffix
  {
    assert '-' !in "user";
    SenderTagOfParts("user", suffix, "");
    assert "user" + "-" + suffix == "user-" + suffix;
  }

  /** The two composer buttons are never both shown, and with no note waiting exactly one
      of them is. */
  lemma SendAndMicExclusive(c: Chat)
    ensures !(SendVisible(c) && MicVisible(c))
    ensures !c.hasAudioBlob ==> (SendVisible(c) <==> !MicVisible(c))
  {
  }

  /** Whether a submission goes out depends only on the input holding a character other
      than whitespace. */
  lemma SubmitSendsIffNotBlank(c: Chat, now: int)
    requires c.socket
    ensures Submit(c, now).sent.Some? <==> exists i :: 0 <= i < |c.input| && !IsJsWhitespace(c.input[i])
  {
    TrimEmptyIff(c.input);
  }

  /** After a send the composer is empty, so the send button is gone and the microphone
      is back unless a note waits. */
  lemma AfterSendControls(c: Chat, now: int)
    requires Submit(c, now).sent.Some?
    ensures !SendVisible(Submit(c, now).chat)
    ensures !c.hasAudioBlob ==> MicVisible(Submit(c, now).chat)
  {
  }

  datatype Event =
    | Typed(text: string)
    | Submitted(now: int)
    | Broadcast(m: Message)
    | MessagesProp(messages: seq<Message>)
    | Emoji(emoji: string)
    | PickerToggled
    | DocumentClick(insidePicker: bool)
    | FilePicked(present: bool)
    | FileRead(mime: string, name: string, content: string, now: int)
    | MicGranted
    | StopClicked
    | RecorderStopped
    | NoteSent
    | NoteDiscarded
    | NoteRead(content: string, now: int)
    | SocketReady

  function Step(c: Chat, e: Event): Outcome {
    match e
    case Typed(text) => Outcome(c.(input := text), None)
    case Submitted(now) => Submit(c, now)
    case Broadcast(m) => Outcome(Receive(c, m), None)
    case MessagesProp(ms) => Outcome(MessagesChanged(c, ms), None)
    case Emoji(emoji) => Outcome(EmojiClicked(c, emoji), None)
    case PickerToggled => Outcome(c.(showEmojiPicker := !c.showEmojiPicker), None)
    case DocumentClick(inside) => Outcome(DocumentClicked(c, inside), None)
    case FilePicked(present) => Outcome(FileChosen(c, present), None)
    case FileRead(mime, name, content, now) => FileLoaded(c, mime, name, content, now)
    case MicGranted => Outcome(RecordingStarted(c), None)
    case StopClicked => Outcome(StopPressed(c), None)
    case RecorderStopped => Outcome(BlobReady(c), None)
    case NoteSent => Outcome(BlobDropped(c), None)
    case NoteDiscarded => Outcome(BlobDropped(c), None)
    case NoteRead(content, now) => VoiceLoaded(c, content, now)
    case SocketReady => Outcome(c.(socket := true), None)
  }

  function Run(c: Chat, events: seq<Event>): Chat
    decreases |events|
  {
    if |events| == 0 then c else Run(Step(c, events[0]).chat, events[1..])
  }

  /** The broadcasts a run receives, in order. */
  function Received(events: seq<Event>): seq<Message>
    decreases |events|
  {
    if |events| == 0 then []
    else Gained(events[0]) + Received(events[1..])
  }

  /** What one event other than a new `messages` prop adds to the list. */
  function Gained(e: Event): seq<Message> {
    if e.Broadcast? then [e.m] else []
  }

  lemma StepGains(c: Chat, e: Event)
    requires !e.MessagesProp?
    ensures Step(c, e).chat.chatList == c.chatList + Gained(e)
  {
    if !e.Broadcast? {
      assert c.chatList + [] == c.chatList;
    }
  }

  lemma AppendAssoc(a: seq<Message>, b: seq<Message>, d: seq<Message>)
    ensures a + b + d == a + (b + d)
  {
  }

  /** One step of the run: what the first event adds, then what the rest receives. */
  lemma RunGains(c: Chat, events: seq<Event>)
    requires |events| > 0 && !events[0].MessagesProp?
    requires var next := Step(c, events[0]).chat;
             Run(next, events[1..]).chatList == next.chatList + Received(events[1..])
    ensures Run(c, events).chatList == c.chatList + Received(events)
  {
    StepGains(c, events[0]);
    AppendAssoc(c.chatList, Gained(events[0]), Received(events[1..]));
  }

  /** Unless the `messages` prop changes, the list only grows at its end, and what it
      gains is exactly the broadcasts received, in the order they arrived. Sending never
      adds to the list: a message of one's own shows only once the server broadcasts
      it. */
  lemma {:induction false} ListIsAppendOnly(c: Chat, events: seq<Event>)
    requires forall i :: 0 <= i < |events| ==> !events[i].MessagesProp?
    ensures Run(c, events).chatList == c.chatList + Received(events)
    decreases |events|
  {
    if |events| == 0 {
      assert c.chatList + [] == c.chatList;
    } else {
      ListIsAppendOnly(Step(c, events[0]).chat, events[1..]);
      RunGains(c, events);
    }
  }
}
