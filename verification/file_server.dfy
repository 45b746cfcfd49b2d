/**
 * The HTTP side of the relay (main.go): `GetFilePath` asks the Bot API's
 * `getFile` method for the storage path of a file id, and
 * `FileController.Get` answers `GET /:file_id` with 400, 500 or a 301
 * redirect to the file server.
 *
 * The form POST, reading the body and JSON decoding are library calls; the
 * backend is an abstract function from the request to its outcome.
 */
module FileServer {
  import opened Types

  /** The configuration values `GetFilePath` and `Get` read: API base URL, bot token, file server URL. */
  datatype Config = Config(telegramAPI: string, botToken: string, fileServerURL: string)

  /** A form POST: the URL and the form fields, each with its list of values. */
  datatype FormPost = FormPost(url: string, form: map<string, seq<string>>)

  /** What `json.Unmarshal` makes of the response body. */
  datatype Decoding =
    | Malformed(err: Error)
    /** `GetFileResponse`: the `ok` flag and `result.file_path` (zero values when absent). */
    | Decoded(ok: bool, filePath: string)

  /** What the `getFile` call comes back with. */
  datatype PostOutcome =
    | TransportFailed(err: Error)   // `http.PostForm` returned an error
    | Answered(body: Decoding)      // a response body arrived

  /** The backend: the outcome of posting a given request. */
  type Backend = FormPost -> PostOutcome

  /** `GetFilePath`'s two results: the path and the Go `error` (None is nil). */
  datatype PathResult = PathResult(path: string, err: Option<Error>)

  /** What `Get` leaves in the controller's output: status, body and Location header. */
  datatype Response = Response(status: int, body: string, location: Option<string>)

  const NotOkMessage := "failed to get file path"
  const EmptyFileIDBody := "file_id 参数不能为空"
  const ResolveFailedPrefix := "无法获取文件路径: "

  /** The request `GetFilePath` sends. */
  function GetFileRequest(cfg: Config, fileID: string): (req: FormPost)
  {
    FormPost(cfg.telegramAPI + "/bot" + cfg.botToken + "/getFile", map["file_id" := [fileID]])
  }

  /** The `getFile` request carries only the file id, and its URL embeds the bot token. */
  lemma GetFileRequestShape(cfg: Config, fileID: string)
    ensures GetFileRequest(cfg, fileID).form.Keys == {"file_id"}
    ensures GetFileRequest(cfg, fileID).form["file_id"] == [fileID]
    ensures Contains(GetFileRequest(cfg, fileID).url, cfg.botToken)
  {
    var url := GetFileRequest(cfg, fileID).url;
    var i := |cfg.telegramAPI| + 4;
    assert OccursAt(url, cfg.botToken, i);
  }

  /** `t` occurs in `s` starting at index `i`. */
  predicate OccursAt(s: string, t: string, i: nat)
  {
    i + |t| <= |s| && s[i..i + |t|] == t
  }

  /** `t` is a substring of `s`. */
  ghost predicate Contains(s: string, t: string)
  {
    exists i: nat :: OccursAt(s, t, i)
  }

  /**
   * `GetFilePath`: a transport error or a body that does not decode is
   * returned as it is; `ok == false` becomes "failed to get file path";
   * only `ok == true` gives a path, whatever it is, with a nil error.
   */
  function GetFilePath(cfg: Config, fileID: string, backend: Backend): (r: PathResult)
    ensures var outcome := backend(GetFileRequest(cfg, fileID));
      && (r.err.None? <==> outcome.Answered? && outcome.body.Decoded? && outcome.body.ok)
      && (r.err.None? ==> r.path == outcome.body.filePath)
      && (r.err.Some? ==> r.path == "")
      && (outcome.TransportFailed? ==> r.err == Some(outcome.err))
      && (outcome.Answered? && outcome.body.Malformed? ==> r.err == Some(outcome.body.err))
      && (outcome.Answered? && outcome.body.Decoded? && !outcome.body.ok ==> r.err == Some(Error(NotOkMessage)))
  {
    match backend(GetFileRequest(cfg, fileID))
    case TransportFailed(err) => PathResult("", Some(err))
    case Answered(Malformed(err)) => PathResult("", Some(err))
    case Answered(Decoded(ok, filePath)) =>
      if !ok then PathResult("", Some(Error(NotOkMessage)))
      else PathResult(filePath, None)
  }

  /** Where a resolved path is served: the file server's `/d/` tree. */
  function RedirectTarget(fileServerURL: string, filePath: string): string
  {
    fileServerURL + "/d/" + filePath
  }

  /**
   * `FileController.Get` for the route parameter `fileID`: 400 for an empty
   * id, 500 with the error text when the path cannot be resolved, otherwise a
   * 301 redirect to the file server.
   */
  function Get(cfg: Config, fileID: string, backend: Backend): (resp: Response)
    ensures fileID == "" ==> resp == Response(400, EmptyFileIDBody, None)
    ensures resp.location.Some? <==> resp.status == 301
    ensures resp.status in {301, 400, 500}
    ensures resp.status == 301 <==> fileID != "" && GetFilePath(cfg, fileID, backend).err.None?
    ensures resp.status == 301 ==>
      resp.location == Some(RedirectTarget(cfg.fileServerURL, GetFilePath(cfg, fileID, backend).path))
    ensures fileID != "" && GetFilePath(cfg, fileID, backend).err.Some? ==>
      resp == Response(500, ResolveFailedPrefix + GetFilePath(cfg, fileID, backend).err.value.message, None)
  {
    if fileID == "" then
      Response(400, EmptyFileIDBody, None)
    else
      var r := GetFilePath(cfg, fileID, backend);
      if r.err.Some? then
        Response(500, ResolveFailedPrefix + r.err.value.message, None)
      else
        Response(301, "", Some(RedirectTarget(cfg.fileServerURL, r.path)))
  }

  /** An empty id is answered without asking the backend: any two backends give the same response. */
  lemma EmptyIDIgnoresBackend(cfg: Config, b1: Backend, b2: Backend)
    ensures Get(cfg, "", b1) == Get(cfg, "", b2)
    ensures Get(cfg, "", b1).status == 400
  {
  }

  /**
   * For a non-empty id the status is decided by the backend's outcome alone:
   * 301 exactly for `ok == true` (to `/d/` plus the path, even an empty
   * one), 500 for everything else, `ok == false` included.
   */
  lemma {:induction false} GetByOutcome(cfg: Config, fileID: string, backend: Backend)
    requires fileID != ""
    ensures var outcome := backend(GetFileRequest(cfg, fileID));
      && (Get(cfg, fileID, backend).status == 301 <==>
            outcome.Answered? && outcome.body.Decoded? && outcome.body.ok)
      && (Get(cfg, fileID, backend).status == 500 <==>
            !(outcome.Answered? && outcome.body.Decoded? && outcome.body.ok))
      && (outcome.Answered? && outcome.body.Decoded? && outcome.body.ok ==>
            Get(cfg, fileID, backend).location == Some(RedirectTarget(cfg.fileServerURL, outcome.body.filePath)))
      && (outcome.Answered? && outcome.body == Decoded(false, "") ==>
            Get(cfg, fileID, backend) == Response(500, ResolveFailedPrefix + NotOkMessage, None))
  {
  }

  /**
   * The 500 body repeats the error text. A transport error whose text
   * quotes the request URL, as Go's `*url.Error` does, therefore puts the
   * bot token into the response body.
   */
  lemma TransportErrorBodyShowsToken(cfg: Config, fileID: string, backend: Backend)
    requires fileID != ""
    requires backend(GetFileRequest(cfg, fileID)).TransportFailed?
    requires Contains(backend(GetFileRequest(cfg, fileID)).err.message, GetFileRequest(cfg, fileID).url)
    ensures Get(cfg, fileID, backend).status == 500
    ensures Contains(Get(cfg, fileID, backend).body, cfg.botToken)
  {
    var url := GetFileRequest(cfg, fileID).url;
    var msg := backend(GetFileRequest(cfg, fileID)).err.message;
    var body := Get(cfg, fileID, backend).body;
    assert body == ResolveFailedPrefix + msg;
    var i: nat :| OccursAt(msg, url, i);
    var j := |cfg.telegramAPI| + 4;
    var n := |cfg.botToken|;
    assert url[j..j + n] == cfg.botToken;
    var at := |ResolveFailedPrefix| + i + j;
    assert body[at..at + n] == msg[i + j..i + j + n];
    assert msg[i + j..i + j + n] == url[j..j + n];
    assert OccursAt(body, cfg.botToken, at);
  }
}
