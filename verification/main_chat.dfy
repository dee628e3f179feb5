/** The channel chat: the page of messages shown for the selected channel, the
    composer, and attachment upload with its 600 MiB ceiling and file-type
    classification. */
module MainChatArea {
  import opened Base
  import opened Text
  import opened Gateway
  import opened Uploads

  /** The query `limit`. */
  const PageSize: nat := 100

  /** `messages.list({ where: { channelId } })` in creation order. */
  function ChannelMessages(all: seq<Message>, channelId: string): (r: seq<Message>)
    ensures |r| <= |all|
    ensures forall m :: m in r <==> m in all && m.channelId == channelId
  {
    Filter(all, (m: Message) => m.channelId == channelId)
  }

  /** The page `loadMessages` shows: `orderBy: { createdAt: 'asc' }, limit: 100`,
      that is the channel's oldest hundred messages. */
  function MessagePage(all: seq<Message>, channelId: string): (r: seq<Message>)
    ensures |r| <= PageSize
    ensures |r| == if |ChannelMessages(all, channelId)| <= PageSize then |ChannelMessages(all, channelId)| else PageSize
    ensures r <= ChannelMessages(all, channelId)
    ensures |ChannelMessages(all, channelId)| <= PageSize ==> r == ChannelMessages(all, channelId)
    ensures forall m :: m in r ==> m in all && m.channelId == channelId
  {
    FirstN(ChannelMessages(all, channelId), PageSize)
  }

  /** A message stored in one channel leaves every other channel's list as it was. */
  lemma OtherChannelsUnchanged(all: seq<Message>, m: Message, channelId: string)
    requires m.channelId != channelId
    ensures ChannelMessages(all + [m], channelId) == ChannelMessages(all, channelId)
  {
    FilterConcat(all, [m], (x: Message) => x.channelId == channelId);
  }

  /** While the channel holds fewer than a page of messages, appending the sent
      message locally gives what a reload would show. */
  lemma ReloadShowsSent(all: seq<Message>, m: Message)
    requires |ChannelMessages(all, m.channelId)| < PageSize
    ensures MessagePage(all + [m], m.channelId) == MessagePage(all, m.channelId) + [m]
  {
    FilterConcat(all, [m], (x: Message) => x.channelId == m.channelId);
  }

  /** Once the channel holds a full page, a reload no longer shows a newly
      stored message: the page is the oldest hundred. */
  lemma ReloadHidesNewMessages(all: seq<Message>, m: Message)
    requires |ChannelMessages(all, m.channelId)| >= PageSize
    ensures MessagePage(all + [m], m.channelId) == MessagePage(all, m.channelId)
  {
    FilterConcat(all, [m], (x: Message) => x.channelId == m.channelId);
    var before := ChannelMessages(all, m.channelId);
    assert (before + [m])[..PageSize] == before[..PageSize];
  }

  /** The evidently intended page: the channel's newest hundred messages, oldest first. */
  function LatestPage(all: seq<Message>, channelId: string): (r: seq<Message>)
    ensures |r| <= PageSize
    ensures |r| == if |ChannelMessages(all, channelId)| <= PageSize then |ChannelMessages(all, channelId)| else PageSize
    ensures var mine := ChannelMessages(all, channelId); r == mine[|mine| - |r|..]
    ensures forall m :: m in r ==> m in all && m.channelId == channelId
  {
    var mine := ChannelMessages(all, channelId);
    if |mine| <= PageSize then mine else mine[|mine| - PageSize..]
  }

  /** With the newest-hundred page, a reload after a send always ends with the
      sent message, however long the channel is. */
  lemma LatestPageShowsSent(all: seq<Message>, m: Message)
    ensures var page := LatestPage(all + [m], m.channelId);
      page != [] && page[|page| - 1] == m
  {
    FilterConcat(all, [m], (x: Message) => x.channelId == m.channelId);
  }

  /** The `fileType` stored with an attachment: checked as image, then as video. */
  function FileKindOf(mime: string): (k: FileKind)
    ensures k == ImageFile <==> "image/" <= mime
    ensures k == VideoFile <==> !("image/" <= mime) && "video/" <= mime
    ensures k == PlainFile <==> !("image/" <= mime) && !("video/" <= mime)
  {
    if "image/" <= mime then ImageFile
    else if "video/" <= mime then VideoFile
    else PlainFile
  }

  /** The storage path of a channel attachment: under `uploads/`, the channel
      id, a '/', then the file name. */
  function AttachmentPath(channelId: string, fileName: string): (p: string)
    ensures "uploads/" <= p
    ensures |p| == |channelId| + |fileName| + 9
    ensures p[8..8 + |channelId|] == channelId && p[8 + |channelId|] == '/'
    ensures p[9 + |channelId|..] == fileName
  {
    var p := "uploads/" + channelId + "/" + fileName;
    assert p[8..8 + |channelId|] == channelId;
    assert p[9 + |channelId|..] == fileName;
    p
  }

  /** For channel ids without a '/', the path names its channel and file:
      two attachments share a path only when both parts agree. */
  lemma AttachmentPathDetermines(c1: string, f1: string, c2: string, f2: string)
    requires '/' !in c1 && '/' !in c2
    requires AttachmentPath(c1, f1) == AttachmentPath(c2, f2)
    ensures c1 == c2 && f1 == f2
  {
  }

  /** The record `sendMessage` writes. */
  function TextMessage(id: string, channelId: string, userId: string, content: string): (m: Message)
    ensures m.fileUrl.None? && m.fileType.None? && m.fileSize.None?
  {
    Message(id, channelId, userId, content, None, None, None)
  }

  /** The record `handleFileUpload` writes. */
  function FileMessage(id: string, channelId: string, userId: string, f: File, url: string): (m: Message)
    ensures m.content == "Uploaded " + f.name
    ensures m.fileUrl == Some(url) && m.fileSize == Some(f.size) && m.fileType == Some(FileKindOf(f.mime))
  {
    Message(id, channelId, userId, "Uploaded " + f.name, Some(url), Some(FileKindOf(f.mime)), Some(f.size))
  }

  /** The chat area's state for one signed-in user. */
  class ChatArea {
    const user: User
    var messages: seq<Message>
    var newMessage: string
    var uploading: bool
    var uploadProgress: real

    constructor (user: User)
      ensures this.user == user
      ensures messages == [] && newMessage == "" && !uploading && uploadProgress == 0.0
    {
      this.user := user;
      messages, newMessage := [], "";
      uploading, uploadProgress := false, 0.0;
    }

    /** `loadMessages`: the whole list is replaced by the page for the channel,
        dropping anything appended locally; with no channel or a failed query
        nothing changes. */
    method LoadMessages(store: Store, channel: Option<Channel>, okCalls: nat)
      modifies this
      ensures channel.Some? && okCalls >= 1 ==> messages == MessagePage(store.db.messages, channel.value.id)
      ensures channel.None? || okCalls == 0 ==> messages == old(messages)
      ensures newMessage == old(newMessage) && uploading == old(uploading) && uploadProgress == old(uploadProgress)
    {
      if channel.None? { return; }
      if okCalls == 0 { return; }
      messages := MessagePage(store.db.messages, channel.value.id);
    }

    /** `sendMessage`: with a non-blank input and a channel, one message holding
        the trimmed input is stored and appended, and the input is cleared; a
        failed create leaves the list and the input as they were. */
    method SendMessage(store: Store, channel: Option<Channel>, okCalls: nat, msgId: string) returns (sent: bool)
      modifies this, store
      ensures sent <==> !IsBlank(old(newMessage)) && channel.Some? && okCalls >= 1
      ensures sent ==>
        var m := TextMessage(msgId, channel.value.id, user.id, Trim(old(newMessage)));
        && messages == old(messages) + [m] && newMessage == ""
        && store.db == old(store.db).(messages := old(store.db.messages) + [m])
      ensures !sent ==> messages == old(messages) && newMessage == old(newMessage) && store.db == old(store.db)
      ensures uploading == old(uploading) && uploadProgress == old(uploadProgress)
    {
      sent := false;
      if IsBlank(newMessage) || channel.None? { return; }
      if okCalls == 0 { return; }
      var m := TextMessage(msgId, channel.value.id, user.id, Trim(newMessage));
      store.CreateMessage(m);
      messages := messages + [m];
      newMessage := "";
      sent := true;
    }

    /** `handleFileUpload`: a file over 600 MiB is refused before anything
        happens; otherwise the blob is uploaded (call 1), the message is created
        (call 2) and appended, and whatever happens `uploading` and the progress
        end reset. An upload that succeeds before a failed create leaves its blob
        behind. */
    method HandleFileUpload(store: Store, channel: Option<Channel>, file: Option<File>, okCalls: nat, msgId: string, publicUrl: string)
      returns (sent: bool)
      modifies this, store
      ensures var attempted := file.Some? && channel.Some? && AttachmentCheck(file.value) == Accepted;
        && (sent <==> attempted && okCalls >= 2)
        && (!attempted ==> messages == old(messages) && store.db == old(store.db)
                           && uploading == old(uploading) && uploadProgress == old(uploadProgress))
        && (attempted ==> !uploading && uploadProgress == 0.0)
        && (attempted && okCalls == 0 ==> messages == old(messages) && store.db == old(store.db))
        && (attempted && okCalls == 1 ==>
              messages == old(messages)
              && store.db == old(store.db).(blobs := old(store.db.blobs) + [AttachmentPath(channel.value.id, file.value.name)]))
      ensures sent ==>
        var m := FileMessage(msgId, channel.value.id, user.id, file.value, publicUrl);
        && messages == old(messages) + [m]
        && store.db == old(store.db).(blobs := old(store.db.blobs) + [AttachmentPath(channel.value.id, file.value.name)],
                                      messages := old(store.db.messages) + [m])
      ensures newMessage == old(newMessage)
    {
      sent := false;
      if file.None? || channel.None? { return; }
      var f, c := file.value, channel.value;
      if f.size > AttachmentLimit { return; }
      uploading := true;
      uploadProgress := 0.0;
      if okCalls >= 1 {
        store.Upload(AttachmentPath(c.id, f.name));
        if okCalls >= 2 {
          var m := FileMessage(msgId, c.id, user.id, f, publicUrl);
          store.CreateMessage(m);
          messages := messages + [m];
          sent := true;
        }
      }
      uploading := false;
      uploadProgress := 0.0;
    }
  }
}
