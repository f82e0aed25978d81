/** The profile server's request handler: `ProfileHandler.do_GET`.

    Whether the profile file exists, and its bytes, are read from disk by the
    source; here they are one input, `file`: None when the file is missing,
    Some(bytes) otherwise. The landing page's HTML is a fixed text that is not
    reproduced: it is the body `LandingPage`. */
module Server {
  import opened Wrappers

  newtype byte = b: int | 0 <= b < 256

  /** `PROFILE_FILENAME`: the name the profile is written under and served as. */
  const ProfileFilename: string := "burp-wifi-proxy.mobileconfig"

  const HtmlType: string := "text/html; charset=utf-8"
  const ProfileType: string := "application/x-apple-aspen-config"

  datatype Header = Header(name: string, value: string)

  /** What is written after the headers. `ErrorPage` stands for the page
      `send_error` generates from its message. */
  datatype Body = LandingPage | FileBytes(data: seq<byte>) | ErrorPage(message: string)

  /** The status, the headers `do_GET` sends itself, in order, and the body. */
  datatype Response = Response(status: nat, headers: seq<Header>, body: Body)

  /** The value of the first header with the given name. */
  function HeaderValue(hs: seq<Header>, name: string): (v: Option<string>)
    ensures v.Some? ==> Header(name, v.value) in hs
    ensures v.None? ==> forall h :: h in hs ==> h.name != name
  {
    if hs == [] then None
    else if hs[0].name == name then Some(hs[0].value)
    else HeaderValue(hs[1..], name)
  }

  predicate IsLandingPath(path: string) {
    path == "/" || path == ""
  }

  /** The response `do_GET` sends for `path`, where `profileName` is the name
      of the served file (`profile_path.name`). Paths match exactly. */
  function Route(path: string, profileName: string, file: Option<seq<byte>>): (r: Response)
    ensures r.status == 200 || r.status == 404
  {
    if IsLandingPath(path) then
      Response(200, [Header("Content-Type", HtmlType)], LandingPage)
    else if path == "/download" then
      match file
      case None => Response(404, [], ErrorPage("Profile not found"))
      case Some(data) =>
        Response(200,
                 [Header("Content-Type", ProfileType),
                  Header("Content-Disposition", "attachment; filename=" + profileName)],
                 FileBytes(data))
    else
      Response(404, [], ErrorPage("Not found"))
  }

  // ---------------------------------------------------------------- routes

  /** A request succeeds exactly for the landing page, and for the download
      while the file exists. */
  lemma RouteSucceeds(path: string, profileName: string, file: Option<seq<byte>>)
    ensures Route(path, profileName, file).status == 200
            <==> IsLandingPath(path) || (path == "/download" && file.Some?)
  {
  }

  /** "/" and "" give the landing page as HTML, whatever the file's state. */
  lemma RouteLanding(path: string, profileName: string, file: Option<seq<byte>>)
    requires IsLandingPath(path)
    ensures var r := Route(path, profileName, file);
            && r.status == 200
            && HeaderValue(r.headers, "Content-Type") == Some("text/html; charset=utf-8")
            && r.body == LandingPage
  {
  }

  /** "/download" serves the file's bytes as an attachment under its own name
      while it exists, and answers 404 once it is missing. */
  lemma RouteDownload(profileName: string, file: Option<seq<byte>>)
    ensures var r := Route("/download", profileName, file);
            && (file.Some? ==>
                  && r.status == 200
                  && HeaderValue(r.headers, "Content-Type") == Some("application/x-apple-aspen-config")
                  && HeaderValue(r.headers, "Content-Disposition") == Some("attachment; filename=" + profileName)
                  && r.body == FileBytes(file.value))
            && (file.None? ==> r.status == 404 && r.body == ErrorPage("Profile not found"))
  {
  }

  /** Every other path is 404, including ones that only start with a route. */
  lemma RouteOther(path: string, profileName: string, file: Option<seq<byte>>)
    requires !IsLandingPath(path) && path != "/download"
    ensures Route(path, profileName, file) == Response(404, [], ErrorPage("Not found"))
  {
  }

  /** The file's bytes leave the server only through "/download", and only
      as they are on disk. */
  lemma RouteDisclosesOnlyDownload(path: string, profileName: string, file: Option<seq<byte>>)
    ensures Route(path, profileName, file).body.FileBytes?
            <==> path == "/download" && file.Some?
    ensures Route(path, profileName, file).body.FileBytes? ==>
              file == Some(Route(path, profileName, file).body.data)
  {
  }

  /** Deleting the file after start-up turns "/download" into 404 and leaves
      "/" as it was. */
  lemma FileDeletedAfterStart(profileName: string, data: seq<byte>)
    ensures Route("/download", profileName, Some(data)).status == 200
    ensures Route("/download", profileName, None).status == 404
    ensures Route("/", profileName, None) == Route("/", profileName, Some(data))
  {
  }

  /** A query string makes the download path a different path. */
  lemma DownloadWithQueryIsNotFound(profileName: string, file: Option<seq<byte>>)
    ensures Route("/download?x", profileName, file).status == 404
  {
    assert "/download?x" != "/download";
    RouteOther("/download?x", profileName, file);
  }

  // ---------------------------------------------------------------- handler

  /** One `ProfileHandler`: the per-request object `http.server` creates,
      holding the profile path and what has been sent so far. */
  class ProfileHandler {
    /** `profile_path.name`. */
    const profileName: string

    /** The status line sent, 0 before `send_response` or `send_error`. */
    var status: nat
    var headers: seq<Header>
    var headersEnded: bool
    /** What has gone to `wfile`, one entry per write. */
    var written: seq<Body>

    /** Nothing has been sent yet. */
    ghost predicate Fresh()
      reads this
    {
      status == 0 && headers == [] && !headersEnded && written == []
    }

    /** The exchange holds exactly response `r`, complete. */
    ghost predicate Sent(r: Response)
      reads this
    {
      status == r.status && headers == r.headers && headersEnded && written == [r.body]
    }

    constructor (profileName: string)
      ensures this.profileName == profileName && Fresh()
    {
      this.profileName := profileName;
      status, headers, headersEnded, written := 0, [], false, [];
    }

    method SendResponse(code: nat)
      modifies this
      ensures status == code
      ensures headers == old(headers) && headersEnded == old(headersEnded) && written == old(written)
    {
      status := code;
    }

    method SendHeader(name: string, value: string)
      modifies this
      ensures headers == old(headers) + [Header(name, value)]
      ensures status == old(status) && headersEnded == old(headersEnded) && written == old(written)
    {
      headers := headers + [Header(name, value)];
    }

    method EndHeaders()
      modifies this
      ensures headersEnded
      ensures status == old(status) && headers == old(headers) && written == old(written)
    {
      headersEnded := true;
    }

    method Write(b: Body)
      modifies this
      ensures written == old(written) + [b]
      ensures status == old(status) && headers == old(headers) && headersEnded == old(headersEnded)
    {
      written := written + [b];
    }

    /** `send_error(code, message)`: status, the library's own headers (not
        modelled) and the generated error page. */
    method SendError(code: nat, message: string)
      modifies this
      ensures status == code && headersEnded && written == old(written) + [ErrorPage(message)]
      ensures headers == old(headers)
    {
      status := code;
      headersEnded := true;
      written := written + [ErrorPage(message)];
    }

    /** `do_GET`: answers one request by a sequence of sends that leaves the
        status, the headers `do_GET` sends itself and the body of
        `Route(path, profileName, file)` on the connection. */
    method DoGet(path: string, file: Option<seq<byte>>)
      requires Fresh()
      modifies this
      ensures Sent(Route(path, profileName, file))
    {
      if path == "/" || path == "" {
        SendResponse(200);
        SendHeader("Content-Type", HtmlType);
        EndHeaders();
        Write(LandingPage);
        return;
      }

      if path == "/download" {
        if file.None? {
          SendError(404, "Profile not found");
          return;
        }
        SendResponse(200);
        SendHeader("Content-Type", ProfileType);
        SendHeader("Content-Disposition", "attachment; filename=" + profileName);
        EndHeaders();
        Write(FileBytes(file.value));
        return;
      }

      SendError(404, "Not found");
    }
  }

  /** The server's configuration: the handler is bound to the profile path
      `Path.cwd() / PROFILE_FILENAME`, whose name is `ProfileFilename`, and a
      fresh one serves a download as an attachment of that name. */
  method ServeDownload(data: seq<byte>) returns (r: Response)
    ensures r.status == 200 && r.body == FileBytes(data)
    ensures HeaderValue(r.headers, "Content-Type") == Some(ProfileType)
    ensures HeaderValue(r.headers, "Content-Disposition") == Some("attachment; filename=" + ProfileFilename)
  {
    ghost var expected := Route("/download", ProfileFilename, Some(data));
    RouteDownload(ProfileFilename, Some(data));
    var handler := new ProfileHandler(ProfileFilename);
    handler.DoGet("/download", Some(data));
    r := Response(handler.status, handler.headers, handler.written[0]);
    assert r == expected;
  }
}
