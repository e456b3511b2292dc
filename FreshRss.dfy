/** `FreshRSSClient`: the Google Reader API client of FreshRSS. The network
    is an oracle `server` that answers each request as a function of the
    requests sent before it; the client keeps the cached auth token and the
    log of what it has sent. Each method is proved equal to a function of
    the client state (`...Step`), and the properties are proved about those
    functions. */
module FreshRss {
  import opened Results
  import opened Strings
  import opened Articles

  // ---------------------------------------------------------------------
  // Requests and responses
  // ---------------------------------------------------------------------

  datatype Method = Get | Post

  /** One `key=value` pair of a form body (`URLSearchParams`). */
  datatype FormField = FormField(name: string, value: string)

  /** A `fetch` call: method, url, the `Authorization` header if any, and
      the form body (empty for a GET). */
  datatype Request = Request(verb: Method, url: string, authorization: Option<string>, form: seq<FormField>)

  /** The fields of the JSON replies the client reads. */
  datatype Tag = Tag(id: string, tagType: string)
  datatype Item = Item(id: string, title: string, canonical: seq<string>, originTitle: string)

  /** `response.json()`: a tag list, a stream of items, or anything else
      (which the client cannot read). */
  datatype Json = TagListJson(tags: seq<Tag>) | StreamJson(items: seq<Item>) | OtherJson

  /** A reply: the status, the body as text, and the body as JSON. */
  datatype Response = Response(status: nat, text: string, json: Json)

  /** `response.ok`. */
  predicate IsOk(status: nat) {
    200 <= status <= 299
  }

  /** `config.freshrss`. */
  datatype Settings = Settings(baseUrl: string, username: string, password: string)

  /** The server: its reply to a request, given the requests before it. */
  type Server = (seq<Request>, Request) -> Response

  /** What the client has: the cached token (`string | null`) and the
      requests sent so far. */
  datatype State = State(authToken: Option<string>, sent: seq<Request>)

  const ReadState: string := "user/-/state/com.google/read"
  const ApiPrefix: string := "/api/greader.php"

  function Bearer(token: string): Option<string> {
    Some("GoogleLogin auth=" + token)
  }

  function LoginRequest(s: Settings): Request {
    Request(Post, s.baseUrl + ApiPrefix + "/accounts/ClientLogin", None,
      [FormField("Email", s.username), FormField("Passwd", s.password)])
  }

  function TagListRequest(s: Settings, token: string): Request {
    Request(Get, s.baseUrl + ApiPrefix + "/reader/api/0/tag/list?output=json", Bearer(token), [])
  }

  function StreamRequest(s: Settings, token: string, id: string): Request {
    Request(Get, s.baseUrl + ApiPrefix + "/reader/api/0/stream/contents/" + id + "?xt=" + ReadState + "&n=1000",
      Bearer(token), [])
  }

  function EditTokenRequest(s: Settings, token: string): Request {
    Request(Get, s.baseUrl + ApiPrefix + "/reader/api/0/token", Bearer(token), [])
  }

  function EditTagRequest(s: Settings, token: string, body: seq<FormField>): Request {
    Request(Post, s.baseUrl + ApiPrefix + "/reader/api/0/edit-tag", Bearer(token), body)
  }

  /** The error thrown for a non-ok status: `what` and the status. */
  function StatusError(what: string, status: nat): string {
    what + ": " + DecimalString(status)
  }

  const MissingAuthMessage: string := "FreshRSS authentication response missing Auth token"

  /** What the client throws when a reply lacks the JSON fields it reads
      (a `TypeError` in the source; its text is not modelled). */
  const MalformedReplyMessage: string := "TypeError"

  // ---------------------------------------------------------------------
  // The pure parts
  // ---------------------------------------------------------------------

  /** The cached token is used only when it is truthy: present and not
      empty. */
  predicate Truthy(token: Option<string>) {
    token.Some? && token.value != ""
  }

  /** `lines.find((line) => line.startsWith("Auth="))`. */
  function FindAuthLine(lines: seq<string>): (r: Option<string>)
    ensures r.Some? ==> StartsWith(r.value, "Auth=") && r.value in lines
    ensures r.None? <==> forall k :: 0 <= k < |lines| ==> !StartsWith(lines[k], "Auth=")
  {
    if lines == [] then None
    else if StartsWith(lines[0], "Auth=") then Some(lines[0])
    else FindAuthLine(lines[1..])
  }

  /** The token a login reply carries, or the error `authenticate` throws. */
  function LoginOutcome(response: Response): Result<string> {
    if !IsOk(response.status) then Err(StatusError("FreshRSS authentication failed", response.status))
    else
      match FindAuthLine(Split(response.text, '\n'))
      case None => Err(MissingAuthMessage)
      case Some(line) => Ok(ReplaceFirst(line, "Auth=", ""))
  }

  /** `.filter((tag) => tag.type === "folder").map((tag) => tag.id)`. */
  function FolderIds(tags: seq<Tag>): (r: seq<string>)
    ensures |r| <= |tags|
    ensures forall id :: id in r <==> exists k :: 0 <= k < |tags| && tags[k].tagType == "folder" && tags[k].id == id
  {
    if tags == [] then []
    else (if tags[0].tagType == "folder" then [tags[0].id] else []) + FolderIds(tags[1..])
  }

  /** One stream item as an `Article`: the first canonical link, or `""`. */
  function ToArticle(item: Item): (a: Article)
    ensures a.id == item.id && a.title == item.title && a.feedTitle == item.originTitle
    ensures a.url == if item.canonical == [] then "" else item.canonical[0]
  {
    Article(item.id, item.title, if |item.canonical| > 0 then item.canonical[0] else "", item.originTitle)
  }

  function ToArticles(items: seq<Item>): (r: seq<Article>)
    ensures |r| == |items| && forall k :: 0 <= k < |items| ==> r[k] == ToArticle(items[k])
  {
    seq(|items|, k requires 0 <= k < |items| => ToArticle(items[k]))
  }

  function CategoriesOutcome(response: Response): Result<seq<string>> {
    if !IsOk(response.status) then Err(StatusError("Failed to fetch categories", response.status))
    else if response.json.TagListJson? then Ok(FolderIds(response.json.tags))
    else Err(MalformedReplyMessage)
  }

  function UnreadOutcome(response: Response): Result<seq<Article>> {
    if !IsOk(response.status) then Err(StatusError("Failed to fetch unread articles", response.status))
    else if response.json.StreamJson? then Ok(ToArticles(response.json.items))
    else Err(MalformedReplyMessage)
  }

  /** The `edit-tag` form: the read state, the edit token, then one `i`
      field per id, in the given order. */
  function EditTagForm(editToken: string, ids: seq<string>): (body: seq<FormField>)
    ensures |body| == |ids| + 2
    ensures body[0] == FormField("a", ReadState) && body[1] == FormField("T", editToken)
    ensures forall k :: 0 <= k < |ids| ==> body[k + 2] == FormField("i", ids[k])
  {
    if ids == [] then [FormField("a", ReadState), FormField("T", editToken)]
    else EditTagForm(editToken, ids[..|ids| - 1]) + [FormField("i", ids[|ids| - 1])]
  }

  // ---------------------------------------------------------------------
  // The operations as functions of the client state
  // ---------------------------------------------------------------------

  /** Sending a request: the server's reply, and the request logged. */
  function Send(server: Server, st: State, request: Request): (Response, State) {
    (server(st.sent, request), State(st.authToken, st.sent + [request]))
  }

  /** `authenticate()`. */
  function AuthenticateStep(s: Settings, server: Server, st: State): (Result<string>, State) {
    if Truthy(st.authToken) then (Ok(st.authToken.value), st)
    else
      var (response, st1) := Send(server, st, LoginRequest(s));
      match LoginOutcome(response)
      case Err(e) => (Err(e), st1)
      case Ok(token) => (Ok(token), State(Some(token), st1.sent))
  }

  /** `getMyCategories()`. */
  function GetMyCategoriesStep(s: Settings, server: Server, st: State): (Result<seq<string>>, State) {
    var (auth, st1) := AuthenticateStep(s, server, st);
    if auth.Err? then (Err(auth.error), st1)
    else
      var (response, st2) := Send(server, st1, TagListRequest(s, auth.value));
      (CategoriesOutcome(response), st2)
  }

  /** `getUnreadArticles(id)`. */
  function GetUnreadArticlesStep(s: Settings, server: Server, st: State, id: string): (Result<seq<Article>>, State) {
    var (auth, st1) := AuthenticateStep(s, server, st);
    if auth.Err? then (Err(auth.error), st1)
    else
      var (response, st2) := Send(server, st1, StreamRequest(s, auth.value, id));
      (UnreadOutcome(response), st2)
  }

  /** `markAsRead(ids)`. */
  function MarkAsReadStep(s: Settings, server: Server, st: State, ids: seq<string>): (Outcome, State) {
    if |ids| == 0 then (Pass, st)
    else
      var (auth, st1) := AuthenticateStep(s, server, st);
      if auth.Err? then (Fail(auth.error), st1)
      else
        var (tokenResponse, st2) := Send(server, st1, EditTokenRequest(s, auth.value));
        if !IsOk(tokenResponse.status) then (Fail(StatusError("Failed to get edit token", tokenResponse.status)), st2)
        else
          var body := EditTagForm(tokenResponse.text, ids);
          var (response, st3) := Send(server, st2, EditTagRequest(s, auth.value, body));
          if !IsOk(response.status) then (Fail(StatusError("Failed to mark articles as read", response.status)), st3)
          else (Pass, st3)
  }

  // ---------------------------------------------------------------------
  // The client
  // ---------------------------------------------------------------------

  class FreshRssClient {
    const settings: Settings
    const server: Server
    var authToken: Option<string>
    var sent: seq<Request>

    function CurrentState(): State
      reads this
    {
      State(authToken, sent)
    }

    /** `new FreshRSSClient()`: no token yet, nothing sent. */
    constructor(settings: Settings, server: Server)
      ensures this.settings == settings && this.server == server
      ensures authToken == None && sent == []
    {
      this.settings := settings;
      this.server := server;
      authToken := None;
      sent := [];
    }

    /** `fetch(request)`. */
    method Fetch(request: Request) returns (response: Response)
      modifies this
      ensures (response, CurrentState()) == Send(server, old(CurrentState()), request)
    {
      response := server(sent, request);
      sent := sent + [request];
    }

    method Authenticate() returns (r: Result<string>)
      modifies this
      ensures (r, CurrentState()) == AuthenticateStep(settings, server, old(CurrentState()))
    {
      if authToken.Some? && authToken.value != "" {
        return Ok(authToken.value);
      }
      var response := Fetch(LoginRequest(settings));
      if !IsOk(response.status) {
        return Err(StatusError("FreshRSS authentication failed", response.status));
      }
      var authLine := FindAuthLine(Split(response.text, '\n'));
      if authLine.None? {
        return Err(MissingAuthMessage);
      }
      authToken := Some(ReplaceFirst(authLine.value, "Auth=", ""));
      return Ok(authToken.value);
    }

    method GetMyCategories() returns (r: Result<seq<string>>)
      modifies this
      ensures (r, CurrentState()) == GetMyCategoriesStep(settings, server, old(CurrentState()))
    {
      var token := Authenticate();
      if token.Err? {
        return Err(token.error);
      }
      var response := Fetch(TagListRequest(settings, token.value));
      if !IsOk(response.status) {
        return Err(StatusError("Failed to fetch categories", response.status));
      }
      if !response.json.TagListJson? {
        return Err(MalformedReplyMessage);
      }
      return Ok(FolderIds(response.json.tags));
    }

    method GetUnreadArticles(id: string) returns (r: Result<seq<Article>>)
      modifies this
      ensures (r, CurrentState()) == GetUnreadArticlesStep(settings, server, old(CurrentState()), id)
    {
      var token := Authenticate();
      if token.Err? {
        return Err(token.error);
      }
      var response := Fetch(StreamRequest(settings, token.value, id));
      if !IsOk(response.status) {
        return Err(StatusError("Failed to fetch unread articles", response.status));
      }
      if !response.json.StreamJson? {
        return Err(MalformedReplyMessage);
      }
      return Ok(ToArticles(response.json.items));
    }

    method MarkAsRead(articleIds: seq<string>) returns (r: Outcome)
      modifies this
      ensures (r, CurrentState()) == MarkAsReadStep(settings, server, old(CurrentState()), articleIds)
    {
      if |articleIds| == 0 {
        return Pass;
      }
      var token := Authenticate();
      if token.Err? {
        return Fail(token.error);
      }
      var tokenResponse := Fetch(EditTokenRequest(settings, token.value));
      if !IsOk(tokenResponse.status) {
        return Fail(StatusError("Failed to get edit token", tokenResponse.status));
      }
      var body := BuildEditTagBody(tokenResponse.text, articleIds);
      var response := Fetch(EditTagRequest(settings, token.value, body));
      if !IsOk(response.status) {
        return Fail(StatusError("Failed to mark articles as read", response.status));
      }
      return Pass;
    }
  }

  /** The `URLSearchParams` of `markAsRead`, appended field by field. */
  method BuildEditTagBody(editToken: string, ids: seq<string>) returns (body: seq<FormField>)
    ensures body == EditTagForm(editToken, ids)
  {
    body := [FormField("a", ReadState), FormField("T", editToken)];
    for k := 0 to |ids|
      invariant body == EditTagForm(editToken, ids[..k])
    {
      assert ids[..k + 1][..k] == ids[..k];
      body := body + [FormField("i", ids[k])];
    }
    assert ids[..|ids|] == ids;
  }

  // ---------------------------------------------------------------------
  // Properties
  // ---------------------------------------------------------------------

  /** `authenticate` sends the login request only when the cached token is
      not truthy (absent or `""`); a success stores the new token, a failure
      leaves the cached one as it was. */
  lemma AuthenticateCachesToken(s: Settings, server: Server, st: State)
    ensures var (r, st1) := AuthenticateStep(s, server, st);
      && (Truthy(st.authToken) ==> r == Ok(st.authToken.value) && st1 == st)
      && (!Truthy(st.authToken) ==> st1.sent == st.sent + [LoginRequest(s)])
      && (r.Ok? ==> st1.authToken == Some(r.value))
      && (r.Err? ==> st1.authToken == st.authToken)
  {
  }

  /** The first line starting with `Auth=` is the one found. */
  lemma {:induction false} FindAuthLineFirst(lines: seq<string>, k: nat)
    requires k < |lines| && StartsWith(lines[k], "Auth=")
    requires forall j :: 0 <= j < k ==> !StartsWith(lines[j], "Auth=")
    ensures FindAuthLine(lines) == Some(lines[k])
  {
    if k > 0 {
      assert !StartsWith(lines[0], "Auth=");
      FindAuthLineFirst(lines[1..], k - 1);
    }
  }

  /** An ok login reply whose lines are `lines` yields the text after
      `Auth=` on the first line that starts with it. */
  lemma LoginReadsAuthLine(lines: seq<string>, k: nat, token: string, status: nat, json: Json)
    requires IsOk(status)
    requires forall j :: 0 <= j < |lines| ==> '\n' !in lines[j]
    requires k < |lines| && lines[k] == "Auth=" + token
    requires forall j :: 0 <= j < k ==> !StartsWith(lines[j], "Auth=")
    ensures LoginOutcome(Response(status, Join(lines, "\n"), json)) == Ok(token)
  {
    SplitJoin(lines, '\n');
    assert StartsWith(lines[k], "Auth=") by {
      assert lines[k][..5] == "Auth=";
    }
    FindAuthLineFirst(lines, k);
    ReplaceFirstOfPrefix(lines[k], "Auth=");
    assert lines[k][5..] == token;
  }

  /** A login reply without an `Auth=` line, or with a non-ok status, is an
      error: the token is never taken from anywhere else. */
  lemma LoginFailures(response: Response)
    ensures !IsOk(response.status) ==>
      LoginOutcome(response) == Err(StatusError("FreshRSS authentication failed", response.status))
    ensures IsOk(response.status) && (forall j :: 0 <= j < |Split(response.text, '\n')| ==> !StartsWith(Split(response.text, '\n')[j], "Auth=")) ==>
      LoginOutcome(response) == Err(MissingAuthMessage)
    ensures LoginOutcome(response).Ok? ==>
      exists j :: 0 <= j < |Split(response.text, '\n')| && Split(response.text, '\n')[j] == "Auth=" + LoginOutcome(response).value
  {
    var lines := Split(response.text, '\n');
    var line := FindAuthLine(lines);
    if IsOk(response.status) && line.Some? {
      ReplaceFirstOfPrefix(line.value, "Auth=");
      assert line.value == "Auth=" + line.value[5..];
    }
  }

  /** Folder ids keep the order of the reply: the ids of a concatenation are
      the ids of each part, one after the other. */
  lemma {:induction false} FolderIdsAppend(a: seq<Tag>, b: seq<Tag>)
    ensures FolderIds(a + b) == FolderIds(a) + FolderIds(b)
  {
    if a == [] {
      assert a + b == b;
    } else {
      assert (a + b)[0] == a[0];
      assert (a + b)[1..] == a[1..] + b;
      FolderIdsAppend(a[1..], b);
    }
  }

  /** `markAsRead([])` returns at once: no login, no request. */
  lemma MarkNothingSendsNothing(s: Settings, server: Server, st: State)
    ensures MarkAsReadStep(s, server, st, []) == (Pass, st)
  {
  }

  /** A successful `markAsRead(ids)` ends with the `edit-tag` POST whose body
      names every id, in order, after the read state and the edit token the
      server handed out. */
  lemma MarkAsReadPostsEveryId(s: Settings, server: Server, st: State, ids: seq<string>)
    requires |ids| > 0
    requires MarkAsReadStep(s, server, st, ids).0 == Pass
    ensures var st3 := MarkAsReadStep(s, server, st, ids).1;
      && |st3.sent| >= |st.sent| + 2
      && st3.sent[..|st.sent|] == st.sent
      && var post := st3.sent[|st3.sent| - 1];
      && var tokenRequest := st3.sent[|st3.sent| - 2];
      && post.verb == Post && tokenRequest.verb == Get
      && |post.form| == |ids| + 2
      && post.form[0] == FormField("a", ReadState)
      && post.form[1] == FormField("T", server(st3.sent[..|st3.sent| - 2], tokenRequest).text)
      && (forall k :: 0 <= k < |ids| ==> post.form[k + 2] == FormField("i", ids[k]))
  {
    var (auth, st1) := AuthenticateStep(s, server, st);
    AuthenticateCachesToken(s, server, st);
    var (tokenResponse, st2) := Send(server, st1, EditTokenRequest(s, auth.value));
    var body := EditTagForm(tokenResponse.text, ids);
    var st3 := MarkAsReadStep(s, server, st, ids).1;
    assert st3.sent == st1.sent + [EditTokenRequest(s, auth.value), EditTagRequest(s, auth.value, body)];
    assert st3.sent[..|st3.sent| - 2] == st1.sent;
  }

  /** Every non-ok status the client sees is an error that names the status:
      the login (`LoginFailures`), then the two reads and the two requests of
      `markAsRead`, each sent with the token `authenticate` returned, whether
      that token was cached or just fetched. A failed login ends each of them
      with the login's error. */
  lemma NonOkStatusThrows(s: Settings, server: Server, st: State, id: string, ids: seq<string>)
    ensures var (auth, st1) := AuthenticateStep(s, server, st);
      auth.Err? ==>
        && GetMyCategoriesStep(s, server, st).0 == Err(auth.error)
        && GetUnreadArticlesStep(s, server, st, id).0 == Err(auth.error)
        && (|ids| > 0 ==> MarkAsReadStep(s, server, st, ids).0 == Fail(auth.error))
    ensures var (auth, st1) := AuthenticateStep(s, server, st);
      auth.Ok? ==>
        var status := server(st1.sent, TagListRequest(s, auth.value)).status;
        !IsOk(status) ==> GetMyCategoriesStep(s, server, st).0 == Err(StatusError("Failed to fetch categories", status))
    ensures var (auth, st1) := AuthenticateStep(s, server, st);
      auth.Ok? ==>
        var status := server(st1.sent, StreamRequest(s, auth.value, id)).status;
        !IsOk(status) ==> GetUnreadArticlesStep(s, server, st, id).0 == Err(StatusError("Failed to fetch unread articles", status))
    ensures var (auth, st1) := AuthenticateStep(s, server, st);
      auth.Ok? ==>
        var status := server(st1.sent, EditTokenRequest(s, auth.value)).status;
        |ids| > 0 && !IsOk(status) ==> MarkAsReadStep(s, server, st, ids).0 == Fail(StatusError("Failed to get edit token", status))
    ensures var (auth, st1) := AuthenticateStep(s, server, st);
      auth.Ok? ==>
        var tokenRequest := EditTokenRequest(s, auth.value);
        var tokenResponse := server(st1.sent, tokenRequest);
        var post := EditTagRequest(s, auth.value, EditTagForm(tokenResponse.text, ids));
        var status := server(st1.sent + [tokenRequest], post).status;
        |ids| > 0 && IsOk(tokenResponse.status) && !IsOk(status) ==>
          MarkAsReadStep(s, server, st, ids).0 == Fail(StatusError("Failed to mark articles as read", status))
  {
  }
}
