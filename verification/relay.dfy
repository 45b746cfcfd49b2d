/**
 * How the two halves meet: the link the bot replies with
 * (bot/bot_shell.go) is the URL whose path the `/:file_id` route of
 * main.go hands to `FileController.Get`.
 */
module Relay {
  import opened Types
  import BotShell
  import FileServer

  /** What is left of `s` after `prefix`, if `s` starts with it. */
  function StripPrefix(prefix: string, s: string): (r: Option<string>)
    ensures r.Some? <==> prefix <= s
    ensures r.Some? ==> prefix + r.value == s
  {
    if prefix <= s then Some(s[|prefix|..]) else None
  }

  /**
   * The route `/:file_id`: a request path made of one non-empty segment
   * binds that segment to `:file_id`; any other path does not reach `Get`.
   */
  function RouteFileID(path: string): (r: Option<string>)
    ensures r.Some? <==> |path| > 1 && path[0] == '/' && '/' !in path[1..]
    ensures r.Some? ==> path == "/" + r.value
  {
    if |path| > 1 && path[0] == '/' && '/' !in path[1..] then Some(path[1..]) else None
  }

  /**
   * For a file id without '/', the reply link minus the file server's URL is
   * the request path `/<id>`, the route gives back exactly that id, and
   * stripping the URL and its slash gives the id too.
   */
  lemma LinkRoutesToFileID(fileServerURL: string, fileID: string)
    requires fileID != "" && '/' !in fileID
    ensures StripPrefix(fileServerURL, BotShell.Link(fileServerURL, fileID)) == Some("/" + fileID)
    ensures StripPrefix(fileServerURL + "/", BotShell.Link(fileServerURL, fileID)) == Some(fileID)
    ensures RouteFileID("/" + fileID) == Some(fileID)
  {
    var link := BotShell.Link(fileServerURL, fileID);
    assert link == fileServerURL + ("/" + fileID);
    assert fileServerURL <= link;
    assert link[|fileServerURL|..] == "/" + fileID;
    assert ("/" + fileID)[1..] == fileID;
  }

  /** A file id containing '/' does not come back through the route. */
  lemma SlashInFileIDNotRouted(fileID: string)
    requires '/' in fileID
    ensures RouteFileID("/" + fileID) == None
  {
    assert ("/" + fileID)[1..] == fileID;
  }

  /**
   * The relay end to end: the bot's reply to a message with a document, once
   * requested, routes the document's file id to `Get`, which redirects to
   * the path the backend resolves it to.
   */
  lemma DocumentLinkRedirects(cfg: FileServer.Config, m: BotShell.Message, backend: FileServer.Backend, filePath: string)
    requires m.text == "" && m.document.Some?
    requires m.document.value.fileID != "" && '/' !in m.document.value.fileID
    requires backend(FileServer.GetFileRequest(cfg, m.document.value.fileID))
      == FileServer.Answered(FileServer.Decoded(true, filePath))
    ensures |BotShell.Replies(cfg.fileServerURL, m)| > 0
    ensures var reply := BotShell.Replies(cfg.fileServerURL, m)[0];
      var path := StripPrefix(cfg.fileServerURL, reply.text);
      && reply.chatID == m.chatID
      && reply.replyToMessageID == m.messageID
      && path.Some?
      && RouteFileID(path.value) == Some(m.document.value.fileID)
      && FileServer.Get(cfg, m.document.value.fileID, backend)
         == FileServer.Response(301, "", Some(cfg.fileServerURL + "/d/" + filePath))
  {
    LinkRoutesToFileID(cfg.fileServerURL, m.document.value.fileID);
  }
}
