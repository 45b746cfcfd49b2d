/**
 * The Telegram side of the relay (bot/bot_shell.go): the update loop of
 * `Bot.Start`, the reply selection of `handleCommand`, the reply built by
 * `ReplyToMessage`, and the `isGif` name check.
 *
 * The Bot API client is not modelled: the update channel is a finite
 * sequence that ends where the channel closes, and the outcome of each
 * `api.Send` is an abstract input.
 */
module BotShell {
  import opened Types

  // ---------------------------------------------------------------------
  // Messages as the Bot API library delivers them (only the fields read)
  // ---------------------------------------------------------------------

  datatype Document = Document(fileID: string, fileName: string)
  datatype PhotoSize = PhotoSize(fileID: string, width: int, height: int)
  /** Video, sticker, animation and voice attachments: only the file id is read. */
  datatype Media = Media(fileID: string)

  datatype Message = Message(
    messageID: int,
    chatID: int,
    text: string,
    /** The library's `Message.IsCommand()`, taken as given. */
    isCommand: bool,
    document: Option<Document>,
    /** `None` is a nil slice; `Some([])` is a present but empty one. */
    photo: Option<seq<PhotoSize>>,
    video: Option<Media>,
    sticker: Option<Media>,
    animation: Option<Media>,
    voice: Option<Media>,
    hasLocation: bool,
    hasPoll: bool)

  /** One element of the update channel; `message` is nil for edits, callbacks, ... */
  datatype Update = Update(updateID: int, message: Option<Message>)

  /** The message handed to `api.Send`: chat, text and the message it replies to. */
  datatype OutgoingMessage = OutgoingMessage(chatID: int, text: string, replyToMessageID: int)

  /** What `api.Send` reports for one outgoing message. */
  datatype SendResult = Delivered | SendFailed(err: Error)

  // ---------------------------------------------------------------------
  // handleCommand: which replies one message gets
  // ---------------------------------------------------------------------

  predicate HasContent(m: Message)
  {
    || m.text != ""
    || m.sticker.Some?
    || m.animation.Some?
    || m.video.Some?
    || m.hasLocation
    || m.hasPoll
    || m.document.Some?
    || m.photo.Some?
    || m.voice.Some?
  }

  /** The photo list is present and has at least one size. */
  predicate HasPhotoSizes(m: Message)
  {
    m.photo.Some? && |m.photo.value| > 0
  }

  /** The last, largest size of the photo. */
  function LargestPhoto(m: Message): PhotoSize
    requires HasPhotoSizes(m)
  {
    m.photo.value[|m.photo.value| - 1]
  }

  /** The public link to a file: the file server's base URL, a slash, the file id. */
  function Link(fileServerURL: string, fileID: string): string
  {
    fileServerURL + "/" + fileID
  }

  /** The message `ReplyToMessage` sends: to the message's chat, threaded under it. */
  function NewReply(m: Message, text: string): OutgoingMessage
  {
    OutgoingMessage(m.chatID, text, m.messageID)
  }

  /**
   * The replies `handleCommand` sends for message `m`, in the order it sends
   * them: nothing for a message without content or with text; otherwise one
   * link each for the document, the largest photo size and the video present.
   */
  function Replies(fileServerURL: string, m: Message): (r: seq<OutgoingMessage>)
    ensures !HasContent(m) || m.text != "" ==> r == []
    ensures m.text == "" ==>
      |r| == Count(m.document.Some?) + Count(HasPhotoSizes(m)) + Count(m.video.Some?)
    ensures |r| <= 3
    ensures forall k :: 0 <= k < |r| ==>
      r[k].chatID == m.chatID && r[k].replyToMessageID == m.messageID
    ensures m.text == "" && m.document.Some? ==>
      r[0].text == Link(fileServerURL, m.document.value.fileID)
    ensures m.text == "" && HasPhotoSizes(m) ==>
      r[Count(m.document.Some?)].text == Link(fileServerURL, LargestPhoto(m).fileID)
    ensures m.text == "" && m.video.Some? ==>
      r[|r| - 1].text == Link(fileServerURL, m.video.value.fileID)
  {
    if !HasContent(m) || m.text != "" then []
    else
      (if m.document.Some? then [NewReply(m, Link(fileServerURL, m.document.value.fileID))] else [])
      + (if HasPhotoSizes(m) then [NewReply(m, Link(fileServerURL, LargestPhoto(m).fileID))] else [])
      + (if m.video.Some? then [NewReply(m, Link(fileServerURL, m.video.value.fileID))] else [])
  }

  /** Two links with the same base are equal only for the same file id. */
  lemma LinkInjective(fileServerURL: string, a: string, b: string)
    requires Link(fileServerURL, a) == Link(fileServerURL, b)
    ensures a == b
  {
    var n := |fileServerURL| + 1;
    assert a == Link(fileServerURL, a)[n..];
    assert b == Link(fileServerURL, b)[n..];
  }

  /**
   * A smaller photo size whose file id differs from the largest one's, the
   * document's and the video's is never linked in a reply.
   */
  lemma SmallerPhotoSizesNotLinked(fileServerURL: string, m: Message, k: nat)
    requires HasPhotoSizes(m) && k < |m.photo.value| - 1
    requires m.photo.value[k].fileID != LargestPhoto(m).fileID
    requires m.document.Some? ==> m.photo.value[k].fileID != m.document.value.fileID
    requires m.video.Some? ==> m.photo.value[k].fileID != m.video.value.fileID
    ensures forall j :: 0 <= j < |Replies(fileServerURL, m)| ==>
      Replies(fileServerURL, m)[j].text != Link(fileServerURL, m.photo.value[k].fileID)
  {
    var r := Replies(fileServerURL, m);
    var id := m.photo.value[k].fileID;
    forall j | 0 <= j < |r|
      ensures r[j].text != Link(fileServerURL, id)
    {
      if r[j].text == Link(fileServerURL, id) {
        var d := Count(m.document.Some?);
        if m.document.Some? && j == 0 {
          LinkInjective(fileServerURL, id, m.document.value.fileID);
        } else if j == d {
          LinkInjective(fileServerURL, id, LargestPhoto(m).fileID);
        } else {
          assert m.video.Some? && j == |r| - 1;
          LinkInjective(fileServerURL, id, m.video.value.fileID);
        }
      }
    }
  }

  // ---------------------------------------------------------------------
  // isGif and the two library functions it uses
  // ---------------------------------------------------------------------

  /**
   * `filepath.Ext` on a Unix path, scanning `p[..i]` from its end: the suffix
   * of `p` from the last '.' met before any '/', or "" when there is none.
   */
  function ExtAt(p: string, i: nat): (e: string)
    requires i <= |p|
    ensures |e| <= |p|
    ensures e == "" ==>
      forall k :: 0 <= k < i && p[k] == '.' ==> exists j :: k < j < i && p[j] == '/'
    ensures e != "" ==>
      && |p| - |e| < i
      && e == p[|p| - |e|..]
      && p[|p| - |e|] == '.'
      && forall k :: |p| - |e| < k < i ==> p[k] != '.' && p[k] != '/'
  {
    if i == 0 || p[i - 1] == '/' then ""
    else if p[i - 1] == '.' then p[i - 1..]
    else ExtAt(p, i - 1)
  }

  /** `filepath.Ext(p)`: the extension of the last path element, dot included. */
  function Ext(p: string): (e: string)
    ensures |e| <= |p|
    ensures e == "" ==>
      forall k :: 0 <= k < |p| && p[k] == '.' ==> exists j :: k < j < |p| && p[j] == '/'
    ensures e != "" ==>
      && e == p[|p| - |e|..]
      && e[0] == '.'
      && forall k :: 0 < k < |e| ==> e[k] != '.' && e[k] != '/'
  {
    var e := ExtAt(p, |p|);
    assert e != "" ==> forall k :: 0 < k < |e| ==> e[k] == p[|p| - |e| + k];
    e
  }

  /**
   * The rune mapping of `strings.ToLower` on the runes that can lower to
   * '.', 'g', 'i' or 'f': ASCII capitals and U+0130 (capital I with dot
   * above, which Go lowers to 'i'). Every other rune is kept.
   */
  function LowerChar(c: char): char
  {
    if 'A' <= c <= 'Z' then (c as int + 32) as char
    else if c == '\U{0130}' then 'i'
    else c
  }

  /** `strings.ToLower`, rune by rune. */
  function Lower(s: string): string
  {
    seq(|s|, k requires 0 <= k < |s| => LowerChar(s[k]))
  }

  /**
   * The runes `isGif` compares: only '.' lowers to '.', and a three-rune
   * string lowers to "gif" exactly when its runes are g/G, i/I/U+0130 and f/F.
   */
  lemma LowerGif(t: string)
    ensures Lower(t) == "gif" <==>
      |t| == 3 && t[0] in {'g', 'G'} && t[1] in {'i', 'I', '\U{0130}'} && t[2] in {'f', 'F'}
    ensures forall c: char :: LowerChar(c) == '.' <==> c == '.'
  {
    if Lower(t) == "gif" {
      assert |t| == |Lower(t)| == 3;
      assert Lower(t)[0] == LowerChar(t[0]) == 'g';
      assert Lower(t)[1] == LowerChar(t[1]) == 'i';
      assert Lower(t)[2] == LowerChar(t[2]) == 'f';
    }
    if |t| == 3 && t[0] in {'g', 'G'} && t[1] in {'i', 'I', '\U{0130}'} && t[2] in {'f', 'F'} {
      assert Lower(t)[0] == 'g' && Lower(t)[1] == 'i' && Lower(t)[2] == 'f';
    }
  }

  /** `isGif`: a non-empty name whose lower-cased extension is ".gif". */
  predicate IsGif(fileName: string)
  {
    if fileName == "" then false else Lower(Ext(fileName)) == ".gif"
  }

  /** A name ends in '.' followed by "gif" in any letter case. */
  predicate EndsInDotGif(fileName: string)
  {
    |fileName| >= 4 && fileName[|fileName| - 4] == '.' && Lower(fileName[|fileName| - 3..]) == "gif"
  }

  lemma GifNameEndsInDotGif(fileName: string)
    requires IsGif(fileName)
    ensures EndsInDotGif(fileName)
  {
    var n := |fileName|;
    var e := Ext(fileName);
    assert Lower(e) == ".gif";
    assert |e| == 4 && LowerChar(e[0]) == '.';
    assert e == fileName[n - 4..];
    assert fileName[n - 3..] == e[1..];
    assert Lower(fileName[n - 3..]) == Lower(e)[1..];
  }

  /** When `p[k]` is the last '.' before `i` and no '/' follows it, the scan yields `p[k..]`. */
  lemma {:induction false} ExtAtLastDot(p: string, i: nat, k: nat)
    requires k < i <= |p| && p[k] == '.'
    requires forall j :: k < j < i ==> p[j] != '.' && p[j] != '/'
    ensures ExtAt(p, i) == p[k..]
  {
    if i - 1 != k {
      ExtAtLastDot(p, i - 1, k);
    }
  }

  /** The three runes after the dot lower to "gif", so none of them is '.' or '/'. */
  lemma GifTailHasNoSeparator(fileName: string)
    requires EndsInDotGif(fileName)
    ensures forall j :: |fileName| - 4 < j < |fileName| ==> fileName[j] != '.' && fileName[j] != '/'
  {
    var n := |fileName|;
    var tail := fileName[n - 3..];
    forall j | n - 4 < j < n
      ensures fileName[j] != '.' && fileName[j] != '/'
    {
      assert fileName[j] == tail[j - (n - 3)];
      assert LowerChar(tail[j - (n - 3)]) == "gif"[j - (n - 3)];
    }
  }

  lemma DotGifNameIsGif(fileName: string)
    requires EndsInDotGif(fileName)
    ensures IsGif(fileName)
  {
    var n := |fileName|;
    GifTailHasNoSeparator(fileName);
    ExtAtLastDot(fileName, n, n - 4);
    var e := fileName[n - 4..];
    assert Ext(fileName) == e;
    var low := Lower(e);
    assert low[1..] == Lower(fileName[n - 3..]) by {
      assert e[1..] == fileName[n - 3..];
    }
    assert low == [low[0]] + low[1..];
  }

  /**
   * `isGif` holds exactly for names ending in '.' followed by "gif" in any
   * letter case.
   */
  lemma IsGifIff(fileName: string)
    ensures IsGif(fileName) <==> EndsInDotGif(fileName)
  {
    if IsGif(fileName) {
      GifNameEndsInDotGif(fileName);
    }
    if EndsInDotGif(fileName) {
      DotGifNameIsGif(fileName);
    }
  }

  // ---------------------------------------------------------------------
  // Bot.Start: which messages reach handleCommand, and what is sent
  // ---------------------------------------------------------------------

  /** `Start` hands an update to `handleCommand` when it has a message that is not a command. */
  predicate Dispatches(u: Update)
  {
    u.message.Some? && !u.message.value.isCommand
  }

  /** The messages `Start` hands to `handleCommand`, in receipt order. */
  function Dispatched(us: seq<Update>): (ms: seq<Message>)
    ensures |ms| <= |us|
    ensures forall k :: 0 <= k < |ms| ==> !ms[k].isCommand
  {
    if us == [] then []
    else
      var last := us[|us| - 1];
      Dispatched(us[..|us| - 1]) + (if Dispatches(last) then [last.message.value] else [])
  }

  /** Every reply for messages `ms`, handled one after the other. */
  function RepliesTo(fileServerURL: string, ms: seq<Message>): (r: seq<OutgoingMessage>)
    ensures |r| <= 3 * |ms|
  {
    if ms == [] then []
    else RepliesTo(fileServerURL, ms[..|ms| - 1]) + Replies(fileServerURL, ms[|ms| - 1])
  }

  /** One more update dispatches at most its own message. */
  lemma DispatchedSnoc(us: seq<Update>, u: Update)
    ensures Dispatched(us + [u]) == Dispatched(us) + (if Dispatches(u) then [u.message.value] else [])
  {
    assert (us + [u])[..|us|] == us;
  }

  /** One more message adds its own replies at the end. */
  lemma RepliesToSnoc(fileServerURL: string, ms: seq<Message>, m: Message)
    ensures RepliesTo(fileServerURL, ms + [m]) == RepliesTo(fileServerURL, ms) + Replies(fileServerURL, m)
  {
    assert (ms + [m])[..|ms|] == ms;
  }

  /** Dispatch is update by update: the dispatched messages of a concatenation concatenate. */
  lemma {:induction false} DispatchedAppend(us: seq<Update>, vs: seq<Update>)
    ensures Dispatched(us + vs) == Dispatched(us) + Dispatched(vs)
  {
    if vs == [] {
      assert us + vs == us;
    } else {
      var vs', v := vs[..|vs| - 1], vs[|vs| - 1];
      assert vs == vs' + [v];
      assert us + vs == (us + vs') + [v];
      DispatchedAppend(us, vs');
      DispatchedSnoc(us + vs', v);
      DispatchedSnoc(vs', v);
    }
  }

  /** A message is dispatched exactly when some update carries it and it is not a command. */
  lemma {:induction false} DispatchedMember(us: seq<Update>, m: Message)
    ensures m in Dispatched(us) <==>
      (!m.isCommand && exists i :: 0 <= i < |us| && us[i].message == Some(m))
  {
    if us != [] {
      var us' := us[..|us| - 1];
      DispatchedMember(us', m);
      if !m.isCommand && exists i :: 0 <= i < |us| && us[i].message == Some(m) {
        var i :| 0 <= i < |us| && us[i].message == Some(m);
        if i < |us| - 1 {
          assert us'[i] == us[i];
        }
      }
      if exists i :: 0 <= i < |us'| && us'[i].message == Some(m) {
        var i :| 0 <= i < |us'| && us'[i].message == Some(m);
        assert us[i] == us'[i];
      }
    }
  }

  /** Replies to consecutive batches of messages come out batch after batch. */
  lemma {:induction false} RepliesToAppend(fileServerURL: string, ms: seq<Message>, ns: seq<Message>)
    ensures RepliesTo(fileServerURL, ms + ns) == RepliesTo(fileServerURL, ms) + RepliesTo(fileServerURL, ns)
  {
    if ns == [] {
      assert ms + ns == ms;
    } else {
      var ns', n := ns[..|ns| - 1], ns[|ns| - 1];
      assert ns == ns' + [n];
      assert ms + ns == (ms + ns') + [n];
      RepliesToSnoc(fileServerURL, ms + ns', n);
      RepliesToAppend(fileServerURL, ms, ns');
      RepliesToSnoc(fileServerURL, ns', n);
      AppendAssoc(RepliesTo(fileServerURL, ms), RepliesTo(fileServerURL, ns'), Replies(fileServerURL, n));
    }
  }

  /** Taking one more update adds the replies to its message, if it is dispatched. */
  lemma DispatchStep(fileServerURL: string, feed: seq<Update>, i: nat)
    requires i < |feed|
    ensures RepliesTo(fileServerURL, Dispatched(feed[..i + 1])) ==
      RepliesTo(fileServerURL, Dispatched(feed[..i]))
      + (if Dispatches(feed[i]) then Replies(fileServerURL, feed[i].message.value) else [])
  {
    assert feed[..i + 1] == feed[..i] + [feed[i]];
    DispatchedSnoc(feed[..i], feed[i]);
    if Dispatches(feed[i]) {
      RepliesToSnoc(fileServerURL, Dispatched(feed[..i]), feed[i].message.value);
    } else {
      assert Dispatched(feed[..i + 1]) == Dispatched(feed[..i]);
    }
  }

  /** The `Start` loop invariant survives one more update. */
  lemma StartStep(fileServerURL: string, start: seq<OutgoingMessage>, before: seq<OutgoingMessage>,
                  after: seq<OutgoingMessage>, feed: seq<Update>, i: nat)
    requires i < |feed|
    requires before == start + RepliesTo(fileServerURL, Dispatched(feed[..i]))
    requires after == before
      + (if Dispatches(feed[i]) then Replies(fileServerURL, feed[i].message.value) else [])
    ensures after == start + RepliesTo(fileServerURL, Dispatched(feed[..i + 1]))
  {
    DispatchStep(fileServerURL, feed, i);
    AppendAssoc(start, RepliesTo(fileServerURL, Dispatched(feed[..i])),
      if Dispatches(feed[i]) then Replies(fileServerURL, feed[i].message.value) else []);
  }

  lemma AppendAssoc<T>(a: seq<T>, b: seq<T>, c: seq<T>)
    ensures (a + b) + c == a + (b + c)
  {
  }

  /** How many updates `Start` takes from a channel of `n` before it returns. */
  function Consumed(n: nat, stopAt: Option<nat>): nat
  {
    match stopAt
    case None => n
    case Some(k) => if k < n then k else n
  }

  class Bot {
    const fileServerURL: string
    /** The Bot API's answer to the `n`-th message handed to `api.Send`. */
    const deliver: (nat, OutgoingMessage) -> SendResult
    /**
     * `stopChan`: `Some(k)` is a stop signal the loop sees once it has taken
     * `k` updates; `None` is a nil channel, which never fires.
     */
    var stopAt: Option<nat>
    /** The update channel, as delivered until it closes. */
    var updates: seq<Update>
    /** Every message handed to `api.Send`, in order. */
    var outbox: seq<OutgoingMessage>

    /** `New` after the API client was created: `stopChan` is left nil. */
    constructor New(fileServerURL: string, deliver: (nat, OutgoingMessage) -> SendResult)
      ensures this.fileServerURL == fileServerURL && this.deliver == deliver
      ensures stopAt == None && updates == [] && outbox == []
    {
      this.fileServerURL := fileServerURL;
      this.deliver := deliver;
      stopAt := None;
      updates := [];
      outbox := [];
    }

    /** Sends `text` to the message's chat as a reply to it; returns `Send`'s error unchanged. */
    method ReplyToMessage(message: Message, text: string) returns (err: Option<Error>)
      modifies this`outbox
      ensures outbox == old(outbox) + [NewReply(message, text)]
      ensures outbox[|outbox| - 1].chatID == message.chatID
      ensures outbox[|outbox| - 1].replyToMessageID == message.messageID
      ensures err == match deliver(|old(outbox)|, NewReply(message, text))
                     case Delivered => None
                     case SendFailed(e) => Some(e)
    {
      var msg := NewReply(message, text);
      var result := deliver(|outbox|, msg);
      outbox := outbox + [msg];
      match result
      case SendFailed(e) =>
        return Some(e);
      case Delivered =>
        return None;
    }

    /**
     * `handleCommand`: sends the replies `Replies` selects. The errors of the
     * sends are discarded, so a failed reply does not stop the later ones.
     */
    method HandleCommand(message: Message)
      modifies this`outbox
      ensures outbox == old(outbox) + Replies(fileServerURL, message)
    {
      if !HasContent(message) {
        return;
      }
      if message.text != "" {
        return;
      }
      if message.document.Some? {
        var forwardText := Link(fileServerURL, message.document.value.fileID);
        var _ := ReplyToMessage(message, forwardText);
      }
      if message.photo.Some? && |message.photo.value| > 0 {
        var photo := message.photo.value[|message.photo.value| - 1];
        var forwardText := Link(fileServerURL, photo.fileID);
        var _ := ReplyToMessage(message, forwardText);
      }
      if message.video.Some? {
        var forwardText := Link(fileServerURL, message.video.value.fileID);
        var _ := ReplyToMessage(message, forwardText);
      }
    }

    /**
     * The body of the `Start` loop for one received update: an update without
     * a message and a command are skipped, anything else goes to
     * `handleCommand`.
     */
    method Receive(update: Update)
      modifies this`outbox
      ensures outbox == old(outbox)
        + (if Dispatches(update) then Replies(fileServerURL, update.message.value) else [])
    {
      if update.message.None? {
        return;
      }
      if update.message.value.isCommand {
        return;
      }
      HandleCommand(update.message.value);
    }

    /**
     * `Bot.Start` on the channel `feed`: skips updates without a message and
     * commands, hands the rest to `handleCommand` in receipt order, and
     * returns nil when the channel closes or the stop signal fires.
     */
    method Start(feed: seq<Update>) returns (err: Option<Error>)
      modifies this`updates, this`outbox
      ensures updates == feed
      ensures err == None
      ensures outbox == old(outbox) + RepliesTo(fileServerURL, Dispatched(feed[..Consumed(|feed|, stopAt)]))
    {
      updates := feed;
      var i := 0;
      while true
        invariant updates == feed && i <= |feed|
        invariant stopAt.Some? ==> i <= stopAt.value
        invariant outbox == old(outbox) + RepliesTo(fileServerURL, Dispatched(feed[..i]))
        decreases |feed| - i
      {
        if stopAt == Some(i) {
          return None;
        }
        if i == |updates| {
          assert feed[..i] == feed;
          return None;
        }
        var update := updates[i];
        ghost var before := outbox;
        Receive(update);
        StartStep(fileServerURL, old(outbox), before, outbox, feed, i);
        i := i + 1;
      }
    }
  }
}
