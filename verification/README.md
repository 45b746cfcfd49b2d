# tg-file-share: a Dafny model of the file relay

tg-file-share is a Telegram bot plus a small web server. A user sends the bot
a file. The bot replies under that message with the link
`FileServerURL + "/" + FileID`. When the link is opened, the web server asks
the Bot API's `getFile` method for the file's current storage path and
redirects (301) to `FileServerURL + "/d/" + path`.

This project models the two decision-making parts of that relay and proves
what they do:

- `bot_shell.dfy` (module `BotShell`, from `bot/bot_shell.go`):
  - The update loop `Bot.Start` is a class method with a loop. It skips
    updates without a message and command messages. It hands every other
    message to `handleCommand`, in receipt order.
  - `Replies` is the reply selection of `handleCommand`, as a function.
    The method `Bot.HandleCommand` sends exactly those replies through
    `Bot.ReplyToMessage`.
  - `isGif` is modelled together with the two library functions it uses,
    `filepath.Ext` and `strings.ToLower`.
- `file_server.dfy` (module `FileServer`, from `main.go`):
  - `GetFilePath` classifies the outcome of the `getFile` call.
  - `Get` maps the file id and that outcome to an HTTP response.
- `relay.dfy` (module `Relay`): the reply link routes back to `Get` with the
  same file id, and the end-to-end path from a document message to a redirect.
- `types.dfy` (module `Types`): `Option`, Go's `error` as `Error(message)`,
  and a 0/1 counter.

Inputs that come from outside are parameters:
- The update channel is a finite sequence of updates. It closes after the
  last one.
- The Bot API's verdict on each `Send` is `Bot.deliver`. It is a function of
  the message's position in the outbox and of the message itself, so any
  pattern of failures can be expressed.
- The `getFile` backend is a function from the form POST to its outcome:
  transport error, undecodable body, or decoded `ok`/`file_path`.
- The configuration (`FileServerURL`, bot token, `TelegramAPI`) is a
  parameter. Loading it is not part of this model. No proof needs the loader's
  guarantee that the values are non-empty.

Some behaviours of the code are easy to misread:
- The code does not send one reply per message. It sends one reply per
  attachment kind present: document, then photo, then video. That is up to
  three replies.
- Any non-empty text suppresses every reply, including replies for an
  attachment on the same message.
- The stop channel is never created by `New`, so only the closing of the
  update channel ends the loop.
- The 500 body includes the error text. A transport error from the POST
  quotes the request URL, and that URL holds the bot token.
  `FileServer.TransportErrorBodyShowsToken` proves the token then appears in
  the body. So the 500 body is not free of credentials.

## Model

| member | source | states |
|---|---|---|
| `BotShell.HasContent` | bot/bot_shell.go:89-97 | Definition, as at lines 89-97; `BotShell.Replies` states that a message without content gets no reply. |
| `BotShell.Link` | bot/bot_shell.go:119-140 | Definition of the reply text built at lines 119, 126 and 140; its properties are `BotShell.LinkInjective` and `Relay.LinkRoutesToFileID`. |
| `BotShell.NewReply` | bot/bot_shell.go:172-173 | Definition, as at lines 172-173; `BotShell.Bot.ReplyToMessage` states it sends exactly this message. |
| `BotShell.Replies` | bot/bot_shell.go:88-143 | No reply without content or with non-empty text. Otherwise one reply per kind present (document, non-empty photo list, video): the document's link first, the largest photo's link after it, the video's link last. At most three replies. Every reply goes to the message's chat, threaded under the message. |
| `BotShell.SmallerPhotoSizesNotLinked` | bot/bot_shell.go:124-127 | A photo size before the last, whose id differs from the last size's, the document's and the video's, is never linked in any reply. |
| `BotShell.LinkInjective` | bot/bot_shell.go:119 | Two links with the same base URL are equal only when their file ids are equal. |
| `BotShell.ExtAt` | bot/bot_shell.go:159 | Scanning down from `i`: the result is either a suffix of the path that starts with the last '.' before any '/', or "" when every '.' before `i` has a '/' after it. |
| `BotShell.Ext` | bot/bot_shell.go:159 | `filepath.Ext`: either "" with no '.' in the last path element, or the suffix that starts at that element's last '.' and holds no other '.' and no '/'. |
| `BotShell.Lower` | bot/bot_shell.go:159 | Definition of `strings.ToLower` as used at line 159; its property is `BotShell.LowerGif`. |
| `BotShell.LowerGif` | bot/bot_shell.go:159 | A three-rune string lowers to "gif" exactly when its runes are g or G, then i, I or U+0130, then f or F; only '.' lowers to '.'. |
| `BotShell.IsGif` | bot/bot_shell.go:155-160 | Definition, as at lines 155-160: false for the empty name, else the lower-cased extension equals ".gif"; its property is `BotShell.IsGifIff`. |
| `BotShell.IsGifIff` | bot/bot_shell.go:155-160 | `isGif` holds exactly for names that end in '.' followed by "gif" in any letter case, so it is false for the empty name. |
| `BotShell.GifNameEndsInDotGif` | bot/bot_shell.go:155-160 | A name `isGif` accepts ends in '.' and three runes that lower to "gif". |
| `BotShell.DotGifNameIsGif` | bot/bot_shell.go:155-160 | Every name that ends in '.' and three runes lowering to "gif" is accepted by `isGif`. |
| `BotShell.Dispatched` | bot/bot_shell.go:58-84 | The messages `Start` hands to `handleCommand`: at most one per update, never a command. |
| `BotShell.DispatchedMember` | bot/bot_shell.go:67-82 | A message is handed on if and only if some update carries it and it is not a command. |
| `BotShell.DispatchedAppend` | bot/bot_shell.go:58-84 | Dispatch goes update by update, in receipt order: the messages of a concatenated stream are the two streams' messages, concatenated. |
| `BotShell.DispatchedSnoc` | bot/bot_shell.go:63-82 | One more update adds its message at the end exactly when it is dispatched. |
| `BotShell.RepliesTo` | bot/bot_shell.go:82 | The replies to a sequence of handled messages number at most three per message. |
| `BotShell.RepliesToAppend` | bot/bot_shell.go:58-84 | Replies to earlier messages all come before replies to later ones. |
| `BotShell.RepliesToSnoc` | bot/bot_shell.go:82 | Handling one more message appends exactly that message's replies. |
| `BotShell.DispatchStep` | bot/bot_shell.go:63-82 | Taking update `i` adds its message's replies if it is dispatched, and nothing otherwise. |
| `BotShell.StartStep` | bot/bot_shell.go:58-84 | The loop's invariant (outbox = initial outbox + replies to the dispatched prefix) survives one more update. |
| `BotShell.Bot.New` | bot/bot_shell.go:24-38 | A new bot has a nil stop channel (no stop signal), no updates and nothing sent. |
| `BotShell.Bot.ReplyToMessage` | bot/bot_shell.go:171-181 | Exactly one message is sent: the given text, to the message's chat, threaded under the message. The send's error is returned unchanged, and nil on success. |
| `BotShell.Bot.HandleCommand` | bot/bot_shell.go:88-143 | What is sent is exactly `Replies` of the message. Send errors are discarded, so a failed reply never suppresses a later one. |
| `BotShell.Bot.Receive` | bot/bot_shell.go:63-82 | An update without a message, or with a command, sends nothing. Any other update sends that message's replies. |
| `BotShell.Bot.Start` | bot/bot_shell.go:52-85 | The update channel is stored. The result is nil. Everything sent is the replies to the dispatched messages of the updates taken, in receipt order. |
| `FileServer.GetFileRequest` | main.go:31-32 | Definition of the `getFile` form POST, as at lines 31-32; its property is `FileServer.GetFileRequestShape`. |
| `FileServer.GetFileRequestShape` | main.go:31-32 | The request carries the single form field `file_id = fileID`, and its URL holds the bot token. |
| `FileServer.GetFilePath` | main.go:30-49 | The error is nil exactly when the body decoded with `ok == true`, and then the path is `file_path` as is, even when empty. On error the path is "". A transport or decoding error is returned unchanged. `ok == false` gives "failed to get file path". |
| `FileServer.Get` | main.go:52-77 | An empty id gives 400 with the fixed body. A resolution error gives 500 with the fixed prefix plus the error text. Otherwise the response is a 301 whose Location is `FileServerURL + "/d/" + path`. A Location is set exactly on 301. |
| `FileServer.RedirectTarget` | main.go:72 | Definition of the redirect URL, as at line 72; `FileServer.Get` and `FileServer.GetByOutcome` state that a 301 goes there. |
| `FileServer.EmptyIDIgnoresBackend` | main.go:53-58 | For an empty id, the response does not depend on the backend, so `GetFilePath` is not consulted. |
| `FileServer.GetByOutcome` | main.go:44-48 | For a non-empty id, the status is 301 exactly when the backend answered `ok == true`, and 500 otherwise. An `ok == false` answer with an empty path is a 500, never a redirect. |
| `FileServer.TransportErrorBodyShowsToken` | main.go:61-66 | A transport error whose text quotes the request URL gives a 500 body that contains the bot token. |
| `Relay.StripPrefix` | bot/bot_shell.go:119 | The result is defined exactly when `s` starts with the prefix, and prefix plus result is `s`. |
| `Relay.RouteFileID` | main.go:100 | The route binds `:file_id` exactly for a path made of one non-empty segment, and the path is "/" plus the bound id. |
| `Relay.LinkRoutesToFileID` | bot/bot_shell.go:119 | For a non-empty id without '/', removing the file server URL from the link leaves "/" plus the id. Removing the URL and its slash leaves the id. The route gives the id back. |
| `Relay.SlashInFileIDNotRouted` | main.go:100 | An id containing '/' does not come back through the route. |
| `Relay.DocumentLinkRedirects` | main.go:52-77 | The first reply to a document message is threaded under it. Its link routes the document's id to `Get`. `Get` then redirects (301) to `/d/` plus the path the backend resolves. |

## Left out

- Library calls are inputs, not implementations: `tgbotapi.NewBotAPI`, `GetUpdatesChan`, `api.Send`, `http.PostForm`, `ioutil.ReadAll` and `json.Unmarshal`. The update stream, the send verdicts and the `getFile` outcome are parameters.
- The failure of `New` when the API client cannot be created is not modelled (a library call). The package-level `Start(token)` only creates the bot and starts its loop on a goroutine, so it is left out with the concurrency.
- Concurrency: the goroutine, the channels, and the unused `mu` and `running` fields.
- `Message.IsCommand()` comes from the library. It is taken as the boolean field `isCommand`.
- BotShell.Bot.Start: a stop signal is taken before the next update. When both are ready, Go's `select` may take either, and only this one order is modelled. With `New`'s nil stop channel, no signal ever arrives.
- The log line of `Start` reads `Message.From.UserName`. A message without a sender would make it fail. All logging is left out, with that dereference.
- `sendWithLog` and `sendMessage` are unused thin wrappers over `api.Send`, and are left out.
- BotShell.Lower: only ASCII capitals and U+0130 are mapped; no other rune lowers to '.', 'g', 'i' or 'f'. This does not change the comparison with ".gif". Go compares bytes, and the model compares runes; the two agree on valid UTF-8.
- BotShell.Ext: models `filepath.Ext` with the Unix separator '/' only.
- FileServer.Get: for a 301, the body written by the framework's redirect, and the framework's rewriting of relative URLs, are not modelled. The modelled body is "".
- Relay.RouteFileID: models the framework's `/:file_id` match as one non-empty path segment. It does not model URL decoding of the segment, nor the case where the file server URL has a path of its own.
- `main()`: creating the log directory, the logger setup, route registration and `web.Run`. This is I/O and framework wiring.
- conf/config.go is not part of this model. It panics on an empty token or file server URL, and the model takes the configuration as a parameter.
