/** The direct-message conversation with one friend: the thread in both
    directions, the composer, file sharing, and the rule that groups
    consecutive messages of one sender under a single avatar. */
module DMChatArea {
  import opened Base
  import opened Text
  import opened Gateway

  /** `d` was exchanged between `a` and `b`, in either direction. */
  predicate Between(d: DirectMessage, a: string, b: string)
    ensures Between(d, a, b) <==> {d.senderId, d.recipientId} == {a, b}
  {
    (d.senderId == a && d.recipientId == b) || (d.senderId == b && d.recipientId == a)
  }

  /** The `direct_messages.list` query with its OR of the two directions, in
      creation order. */
  function Thread(all: seq<DirectMessage>, me: string, friendId: string): (r: seq<DirectMessage>)
    ensures |r| <= |all|
    ensures forall d :: d in r <==> d in all && Between(d, me, friendId)
  {
    Filter(all, (d: DirectMessage) => Between(d, me, friendId))
  }

  /** Both participants load the same thread. */
  lemma {:induction false} ThreadSymmetric(all: seq<DirectMessage>, a: string, b: string)
    ensures Thread(all, a, b) == Thread(all, b, a)
  {
    if all != [] {
      ThreadSymmetric(all[1..], a, b);
    }
  }

  /** A message between the two participants is appended to their thread;
      any other message leaves the thread as it was. */
  lemma ThreadAfterStore(all: seq<DirectMessage>, d: DirectMessage, me: string, friendId: string)
    ensures Between(d, me, friendId) ==> Thread(all + [d], me, friendId) == Thread(all, me, friendId) + [d]
    ensures !Between(d, me, friendId) ==> Thread(all + [d], me, friendId) == Thread(all, me, friendId)
  {
    FilterConcat(all, [d], (x: DirectMessage) => Between(x, me, friendId));
  }

  /** `message.sender_id === currentUser?.id`: false while no user is known. */
  predicate IsOwnMessage(d: DirectMessage, currentUser: Option<User>)
    ensures currentUser.None? ==> !IsOwnMessage(d, currentUser)
  {
    currentUser.Some? && d.senderId == currentUser.value.id
  }

  /** In the thread with a friend, once the user is known, an own message went
      to the friend and every other message came from the friend to the user. */
  lemma ThreadSides(all: seq<DirectMessage>, me: User, friendId: string, d: DirectMessage)
    requires d in Thread(all, me.id, friendId)
    requires me.id != friendId
    ensures IsOwnMessage(d, Some(me)) ==> d.recipientId == friendId
    ensures !IsOwnMessage(d, Some(me)) ==> d.senderId == friendId && d.recipientId == me.id
  {
  }

  /** An avatar and name header is shown for the first message and for every
      message whose sender differs from the previous message's sender. */
  predicate ShowAvatar(msgs: seq<DirectMessage>, i: nat)
    requires i < |msgs|
    ensures i == 0 ==> ShowAvatar(msgs, i)
    ensures 0 < i && msgs[i - 1].senderId == msgs[i].senderId ==> !ShowAvatar(msgs, i)
  {
    i == 0 || msgs[i - 1].senderId != msgs[i].senderId
  }

  /** Every message belongs to a run headed by an avatar: the nearest header at
      or before it has the same sender, and so does every message in between. */
  lemma {:induction false} HeaderOwnsRun(msgs: seq<DirectMessage>, i: nat) returns (h: nat)
    requires i < |msgs|
    ensures h <= i && ShowAvatar(msgs, h)
    ensures forall k :: h <= k <= i ==> msgs[k].senderId == msgs[i].senderId
    ensures forall k :: h < k <= i ==> !ShowAvatar(msgs, k)
  {
    if ShowAvatar(msgs, i) {
      h := i;
    } else {
      h := HeaderOwnsRun(msgs, i - 1);
    }
  }

  /** `currentUser.displayName || currentUser.email`. */
  function SenderName(u: User): (n: Option<string>)
    ensures Truthy(u.displayName) ==> n == u.displayName
    ensures !Truthy(u.displayName) ==> n == u.email
  {
    Or(u.displayName, u.email)
  }

  /** The name in a message header: the user's own name for own messages,
      otherwise the friend's name. */
  function HeaderName(d: DirectMessage, currentUser: Option<User>, friendName: string): (n: Option<string>)
    ensures IsOwnMessage(d, currentUser) ==> n == SenderName(currentUser.value)
    ensures !IsOwnMessage(d, currentUser) ==> n == Some(friendName)
  {
    if IsOwnMessage(d, currentUser) then SenderName(currentUser.value) else Some(friendName)
  }

  /** The record stored by `sendMessage`. */
  function TextDM(id: string, sender: string, recipient: string, content: string): (d: DirectMessage)
    ensures d.senderId == sender && d.recipientId == recipient && d.content == content
    ensures d.fileUrl.None? && d.senderName.None?
  {
    DirectMessage(id, sender, recipient, content, None, None, None, None, None)
  }

  /** The record stored by `handleFileUpload`. */
  function FileDM(id: string, sender: string, recipient: string, f: File, url: string): (d: DirectMessage)
    ensures d.content == "Shared a file: " + f.name
    ensures d.fileUrl == Some(url) && d.fileName == Some(f.name) && d.fileSize == Some(f.size)
  {
    DirectMessage(id, sender, recipient, "Shared a file: " + f.name, Some(url), Some(f.name), Some(f.size), None, None)
  }

  /** The entry appended locally: the stored record plus the sender's name and avatar. */
  function Decorated(d: DirectMessage, u: User): (e: DirectMessage)
    ensures e.(senderName := d.senderName, senderAvatar := d.senderAvatar) == d
    ensures e.senderName == SenderName(u) && e.senderAvatar == u.avatar
  {
    d.(senderName := SenderName(u), senderAvatar := u.avatar)
  }

  /** The storage path of a shared file: one flat folder for all conversations. */
  function SharedFilePath(fileName: string): (p: string)
    ensures "dm-files/" <= p && p[9..] == fileName
  {
    "dm-files/" + fileName
  }

  /** The path does not depend on the conversation: two conversations sharing
      files of one name write to the same path, and different names never do. */
  lemma SharedFilePathsCollide(a: string, b: string)
    ensures SharedFilePath(a) == SharedFilePath(b) <==> a == b
  {
    if SharedFilePath(a) == SharedFilePath(b) {
      assert a == SharedFilePath(a)[9..];
    }
  }

  /** The conversation pane for one friend. */
  class Conversation {
    const friendId: string
    var messages: seq<DirectMessage>
    var newMessage: string
    var isLoading: bool
    var currentUser: Option<User>

    constructor (friendId: string)
      ensures this.friendId == friendId
      ensures messages == [] && newMessage == "" && isLoading && currentUser.None?
    {
      this.friendId := friendId;
      messages, newMessage := [], "";
      isLoading, currentUser := true, None;
    }

    /** `loadMessages`: asks the auth service for the user (call 1), then lists
        the thread (call 2), which replaces the list. Loading ends on every path. */
    method LoadMessages(store: Store, me: User, okCalls: nat)
      modifies this
      ensures !isLoading
      ensures okCalls >= 1 ==> currentUser == Some(me)
      ensures okCalls == 0 ==> currentUser == old(currentUser)
      ensures okCalls >= 2 ==> messages == Thread(store.db.directMessages, me.id, friendId)
      ensures okCalls < 2 ==> messages == old(messages)
      ensures newMessage == old(newMessage)
    {
      if okCalls >= 1 {
        currentUser := Some(me);
        if okCalls >= 2 {
          messages := Thread(store.db.directMessages, me.id, friendId);
        }
      }
      isLoading := false;
    }

    /** `sendMessage`: with a non-blank input and a known user, one message from
        the user to the friend holding the trimmed input is stored, appended with
        the sender's name and avatar, and the input is cleared; a failed create
        changes nothing. */
    method SendMessage(store: Store, okCalls: nat, msgId: string) returns (sent: bool)
      modifies this, store
      ensures sent <==> !IsBlank(old(newMessage)) && currentUser.Some? && okCalls >= 1
      ensures sent ==>
        var d := TextDM(msgId, currentUser.value.id, friendId, Trim(old(newMessage)));
        && store.db == old(store.db).(directMessages := old(store.db.directMessages) + [d])
        && messages == old(messages) + [Decorated(d, currentUser.value)]
        && newMessage == ""
      ensures !sent ==> store.db == old(store.db) && messages == old(messages) && newMessage == old(newMessage)
      ensures currentUser == old(currentUser) && isLoading == old(isLoading)
    {
      sent := false;
      if IsBlank(newMessage) || currentUser.None? { return; }
      if okCalls == 0 { return; }
      var u := currentUser.value;
      var d := TextDM(msgId, u.id, friendId, Trim(newMessage));
      store.CreateDirectMessage(d);
      messages := messages + [Decorated(d, u)];
      newMessage := "";
      sent := true;
    }

    /** `handleFileUpload`: no size or type check; the blob is uploaded (call 1),
        then a message naming the file is stored (call 2) and appended. */
    method HandleFileUpload(store: Store, file: Option<File>, okCalls: nat, msgId: string, publicUrl: string)
      returns (sent: bool)
      modifies this, store
      ensures sent <==> file.Some? && currentUser.Some? && okCalls >= 2
      ensures sent ==>
        var d := FileDM(msgId, currentUser.value.id, friendId, file.value, publicUrl);
        && store.db == old(store.db).(blobs := old(store.db.blobs) + [SharedFilePath(file.value.name)],
                                      directMessages := old(store.db.directMessages) + [d])
        && messages == old(messages) + [Decorated(d, currentUser.value)]
      ensures !sent ==> messages == old(messages)
      ensures file.Some? && currentUser.Some? && okCalls == 1 ==>
        store.db == old(store.db).(blobs := old(store.db.blobs) + [SharedFilePath(file.value.name)])
      ensures file.None? || currentUser.None? || okCalls == 0 ==> store.db == old(store.db)
      ensures newMessage == old(newMessage) && currentUser == old(currentUser) && isLoading == old(isLoading)
    {
      sent := false;
      if file.None? || currentUser.None? { return; }
      if okCalls == 0 { return; }
      var u, f := currentUser.value, file.value;
      store.Upload(SharedFilePath(f.name));
      if okCalls == 1 { return; }
      var d := FileDM(msgId, u.id, friendId, f, publicUrl);
      store.CreateDirectMessage(d);
      messages := messages + [Decorated(d, u)];
      sent := true;
    }
  }

  /** After a send, a reload of the thread ends with the stored message: the
      local entry differs from it only in the sender's name and avatar. */
  lemma ReloadAfterSend(all: seq<DirectMessage>, me: User, friendId: string, msgId: string, content: string)
    ensures var d := TextDM(msgId, me.id, friendId, content);
      Thread(all + [d], me.id, friendId) == Thread(all, me.id, friendId) + [d]
      && Decorated(d, me).(senderName := None, senderAvatar := None) == d
  {
    ThreadAfterStore(all, TextDM(msgId, me.id, friendId, content), me.id, friendId);
  }
}
