/** `main`: for each FreshRSS category, fetch its unread articles, let
    Bedrock pick the useful ones, mail the picks through SES and mark every
    fetched article as read. The collaborators are oracles that answer each
    call as a function of the calls made before it, and the run is the
    trace of calls it makes; the first error ends the run with exit code 1. */
module Pipeline {
  import opened Results
  import opened Articles
  import opened Selection
  import opened Email
  import opened Config
  import MockFeed

  /** A collaborator call, with the argument `main` passes. */
  datatype Call =
    | GetMyCategories
    | GetUnreadArticles(category: string)
    | Converse(userMessage: string)
    | SendEmail(message: EmailMessage)
    | MarkAsRead(articleIds: seq<string>)

  /** The calls made so far. */
  type History = seq<Call>

  /** `IFreshRSSClient`: each answer depends on the history before the call. */
  datatype FeedClient = FeedClient(
    categories: History -> Result<seq<string>>,
    unreadArticles: (History, string) -> Result<seq<Article>>,
    markAsRead: (History, seq<string>) -> Outcome)

  /** The Bedrock `Converse` call (the text of the reply, if it has one, or
      an error) and the SES send. */
  datatype Services = Services(
    converse: (History, string) -> Result<Option<string>>,
    send: (History, EmailMessage) -> Outcome)

  /** What `main` computes between its calls: the user message of the
      `Converse` call, the articles picked from the reply, and the message
      mailed for them. The run is defined for any such steps; `main` uses
      `MainSteps`. */
  datatype Steps = Steps(
    message: seq<Article> -> string,
    select: (seq<Article>, Option<string>) -> seq<Article>,
    compose: seq<Article> -> EmailMessage)

  /** `filterArticles` builds the user message and parses the reply;
      `sendEmail` renders the selection for the configured addresses. */
  function MainSteps(ses: SesConfig): Steps {
    Steps(
      UserMessage,
      (articles, reply) => FilterArticles(articles, reply).selectedArticles,
      selected => ComposeEmail(ses.fromAddress, ses.toAddress, selected))
  }

  /** A run: its calls, and whether it ended in an error. */
  datatype Run = Run(trace: History, failed: bool)

  function ExitCode(run: Run): int {
    if run.failed then 1 else 0
  }

  /** `new MockFreshRSSClient()`. */
  function MockClient(): FeedClient {
    FeedClient(
      h => Ok(MockFeed.Categories),
      (h, id) => Ok(MockFeed.MockArticles),
      (h, ids) => Pass)
  }

  /** `createFreshRSSClient()`; `remote` stands for `new FreshRSSClient()`. */
  function CreateFreshRssClient(cfg: FreshRssConfig, remote: FeedClient): FeedClient {
    if cfg.useMock then MockClient() else remote
  }

  // ---------------------------------------------------------------------
  // The run as a function
  // ---------------------------------------------------------------------

  /** One iteration of the loop, for `category`, after the calls `h`:
      1. fetch the unread articles; an empty category ends the iteration. */
  function ProcessCategory(client: FeedClient, services: Services, steps: Steps, category: string, h: History): Run {
    var h1 := h + [GetUnreadArticles(category)];
    match client.unreadArticles(h, category)
    case Err(_) => Run(h1, true)
    case Ok(articles) =>
      if |articles| == 0 then Run(h1, false) else Filter(client, services, steps, articles, h1)
  }

  /** 2. `filterArticles(articles)`: one `Converse` call on the numbered
      titles, and the parse of its reply. */
  function Filter(client: FeedClient, services: Services, steps: Steps, articles: seq<Article>, h: History): Run {
    var message := steps.message(articles);
    var h1 := h + [Converse(message)];
    match services.converse(h, message)
    case Err(_) => Run(h1, true)
    case Ok(reply) => Mail(client, services, steps, articles, steps.select(articles, reply), h1)
  }

  /** 3. `sendEmail(selectedArticles)`. */
  function Mail(client: FeedClient, services: Services, steps: Steps, articles: seq<Article>, selected: seq<Article>, h: History): Run {
    var email := steps.compose(selected);
    var h1 := h + [SendEmail(email)];
    match services.send(h, email)
    case Fail(_) => Run(h1, true)
    case Pass => Mark(client, Ids(articles), h1)
  }

  /** 4. `markAsRead` of every fetched article. */
  function Mark(client: FeedClient, articleIds: seq<string>, h: History): Run {
    var h1 := h + [MarkAsRead(articleIds)];
    match client.markAsRead(h, articleIds)
    case Fail(_) => Run(h1, true)
    case Pass => Run(h1, false)
  }

  /** The body of the `for` loop, as a step from the calls so far to the
      run after one category. */
  function Iteration(client: FeedClient, services: Services, steps: Steps): (string, History) -> Run {
    (category, h) => ProcessCategory(client, services, steps, category, h)
  }

  /** A `for` loop over `categories` whose body is `iteration`, stopping at
      the first iteration that fails. */
  function Loop(iteration: (string, History) -> Run, categories: seq<string>, h: History): Run
    decreases |categories|
  {
    if categories == [] then Run(h, false)
    else
      var run := iteration(categories[0], h);
      if run.failed then run else Loop(iteration, categories[1..], run.trace)
  }

  /** The loop of `main` over `categories`. */
  function ProcessCategories(client: FeedClient, services: Services, steps: Steps, categories: seq<string>, h: History): Run {
    Loop(Iteration(client, services, steps), categories, h)
  }

  /** `main()` under a loaded configuration. */
  function RunMain(cfg: AppConfig, remote: FeedClient, services: Services): Run {
    var client := CreateFreshRssClient(cfg.freshrss, remote);
    match client.categories([])
    case Err(_) => Run([GetMyCategories], true)
    case Ok(categories) => ProcessCategories(client, services, MainSteps(cfg.ses), categories, [GetMyCategories])
  }

  /** The whole program: loading the configuration throws before `main`
      starts, and the process then also exits with 1. */
  function Program(env: Env, remote: FeedClient, services: Services): Run {
    match LoadConfig(env)
    case Err(_) => Run([], true)
    case Ok(cfg) => RunMain(cfg, remote, services)
  }

  // ---------------------------------------------------------------------
  // The run as a loop
  // ---------------------------------------------------------------------

  method RunProgram(env: Env, remote: FeedClient, services: Services) returns (trace: History, exitCode: int)
    ensures trace == Program(env, remote, services).trace
    ensures exitCode == ExitCode(Program(env, remote, services))
  {
    var loaded := LoadConfig(env);
    if loaded.Err? {
      return [], 1;
    }
    var cfg := loaded.value;
    var freshrss := CreateFreshRssClient(cfg.freshrss, remote);
    var categories := freshrss.categories([]);
    if categories.Err? {
      return [GetMyCategories], 1;
    }
    var failed;
    trace, failed := ProcessAll(freshrss, services, cfg.ses, categories.value);
    exitCode := if failed then 1 else 0;
  }

  /** The `for` loop of `main`, after `getMyCategories` answered
      `categories`. */
  method ProcessAll(client: FeedClient, services: Services, ses: SesConfig, categories: seq<string>)
    returns (trace: History, failed: bool)
    ensures Run(trace, failed) == ProcessCategories(client, services, MainSteps(ses), categories, [GetMyCategories])
  {
    trace := [GetMyCategories];
    failed := false;
    ghost var total := ProcessCategories(client, services, MainSteps(ses), categories, trace);
    var i := 0;
    while i < |categories|
      invariant 0 <= i <= |categories|
      invariant Loop(Iteration(client, services, MainSteps(ses)), categories[i..], trace) == total
    {
      assert categories[i..][0] == categories[i] && categories[i..][1..] == categories[i + 1..];
      trace, failed := ProcessOne(client, services, ses, categories[i], trace);
      if failed {
        return;
      }
      i := i + 1;
    }
  }

  /** The body of the loop for one category; `continue` and a throw both
      end it early. */
  method ProcessOne(client: FeedClient, services: Services, ses: SesConfig, category: string, before: History)
    returns (trace: History, failed: bool)
    ensures Run(trace, failed) == ProcessCategory(client, services, MainSteps(ses), category, before)
  {
    trace := before + [GetUnreadArticles(category)];
    var articles := client.unreadArticles(before, category);
    if articles.Err? {
      return trace, true;
    }
    if |articles.value| == 0 {
      return trace, false;
    }
    var message := UserMessage(articles.value);
    var history := trace;
    trace := trace + [Converse(message)];
    var reply := services.converse(history, message);
    if reply.Err? {
      return trace, true;
    }
    var selected := FilterArticles(articles.value, reply.value).selectedArticles;
    var email := ComposeEmail(ses.fromAddress, ses.toAddress, selected);
    history := trace;
    trace := trace + [SendEmail(email)];
    var sent := services.send(history, email);
    if sent.Fail? {
      return trace, true;
    }
    var articleIds := Ids(articles.value);
    history := trace;
    trace := trace + [MarkAsRead(articleIds)];
    var marked := client.markAsRead(history, articleIds);
    failed := marked.Fail?;
  }

  // ---------------------------------------------------------------------
  // What a trace looks like
  // ---------------------------------------------------------------------

  /** The last call of `u` got an error, given the calls before it. */
  predicate CallFailed(client: FeedClient, services: Services, u: History) {
    if u == [] then false
    else
      var h := u[..|u| - 1];
      match u[|u| - 1]
      case GetMyCategories => client.categories(h).Err?
      case GetUnreadArticles(category) => client.unreadArticles(h, category).Err?
      case Converse(message) => services.converse(h, message).Err?
      case SendEmail(email) => services.send(h, email).Fail?
      case MarkAsRead(ids) => client.markAsRead(h, ids).Fail?
  }

  /** `u` ends where an iteration of the loop may begin: after
      `getMyCategories`, after `markAsRead`, or after a fetch that found
      nothing. */
  predicate AtBoundary(client: FeedClient, u: History) {
    |u| > 0 &&
    match u[|u| - 1]
    case GetMyCategories => true
    case MarkAsRead(_) => true
    case GetUnreadArticles(category) => client.unreadArticles(u[..|u| - 1], category) == Ok([])
    case _ => false
  }

  /** The last call of `u` is where `main` makes it, with the argument
      `main` gives it:
      - `getMyCategories` comes first;
      - a fetch starts an iteration;
      - `Converse` follows a non-empty fetch and numbers its titles;
      - the mail follows and carries exactly the articles the filter
        selected from the reply;
      - `markAsRead` comes last and names every fetched article. */
  predicate WellPlaced(client: FeedClient, services: Services, steps: Steps, u: History) {
    if u == [] then false
    else
      var h := u[..|u| - 1];
      match u[|u| - 1]
      case GetMyCategories => h == []
      case GetUnreadArticles(_) => AtBoundary(client, h)
      case Converse(message) =>
        && |h| >= 1 && h[|h| - 1].GetUnreadArticles?
        && var fetched := client.unreadArticles(h[..|h| - 1], h[|h| - 1].category);
        && fetched.Ok? && fetched.value != [] && message == steps.message(fetched.value)
      case SendEmail(email) =>
        && |h| >= 2 && h[|h| - 2].GetUnreadArticles?
        && var fetched := client.unreadArticles(h[..|h| - 2], h[|h| - 2].category);
        && fetched.Ok? && fetched.value != [] && h[|h| - 1] == Converse(steps.message(fetched.value))
        && var reply := services.converse(h[..|h| - 1], steps.message(fetched.value));
        && reply.Ok?
        && email == steps.compose(steps.select(fetched.value, reply.value))
      case MarkAsRead(ids) =>
        && |h| >= 3 && h[|h| - 3].GetUnreadArticles?
        && var fetched := client.unreadArticles(h[..|h| - 3], h[|h| - 3].category);
        && fetched.Ok? && fetched.value != []
        && h[|h| - 2].Converse? && h[|h| - 1].SendEmail?
        && ids == Ids(fetched.value)
  }

  /** `P` holds of every non-empty prefix of `t`. */
  predicate EveryPrefix(P: History -> bool, t: History) {
    forall n {:trigger P(t[..n])} :: 1 <= n <= |t| ==> P(t[..n])
  }

  function Placement(client: FeedClient, services: Services, steps: Steps): History -> bool {
    u => WellPlaced(client, services, steps, u)
  }

  function Success(client: FeedClient, services: Services): History -> bool {
    u => !CallFailed(client, services, u)
  }

  /** Every call of `t` is well placed, and every call but the last one
      succeeded. */
  predicate Sound(client: FeedClient, services: Services, steps: Steps, t: History) {
    && |t| > 0
    && EveryPrefix(Placement(client, services, steps), t)
    && EveryPrefix(Success(client, services), t[..|t| - 1])
  }

  lemma ExtendEveryPrefix(P: History -> bool, t: History, c: Call)
    requires EveryPrefix(P, t) && P(t + [c])
    ensures EveryPrefix(P, t + [c])
  {
    var u := t + [c];
    forall n | 1 <= n <= |u|
      ensures P(u[..n])
    {
      if n <= |t| {
        assert u[..n] == t[..n];
      } else {
        assert u[..n] == u;
      }
    }
  }

  /** The categories fetched, in the order of the fetches. */
  function FetchedCategories(t: History): seq<string> {
    if t == [] then []
    else FetchedCategories(t[..|t| - 1]) + (if t[|t| - 1].GetUnreadArticles? then [t[|t| - 1].category] else [])
  }

  lemma FetchedCategoriesAppend(t: History, c: Call)
    ensures FetchedCategories(t + [c]) == FetchedCategories(t) + (if c.GetUnreadArticles? then [c.category] else [])
  {
    assert (t + [c])[..|t|] == t;
  }

  /** A well-placed call after a sound trace that ended in a success keeps
      it sound. */
  lemma Extend(client: FeedClient, services: Services, steps: Steps, t: History, c: Call)
    requires Sound(client, services, steps, t) && !CallFailed(client, services, t)
    requires WellPlaced(client, services, steps, t + [c])
    ensures Sound(client, services, steps, t + [c])
    ensures (t + [c])[..|t|] == t
  {
    var u := t + [c];
    assert Placement(client, services, steps)(u);
    ExtendEveryPrefix(Placement(client, services, steps), t, c);
    var k := |t| - 1;
    var before := t[..k];
    assert before + [t[k]] == t;
    assert Success(client, services)(t);
    ExtendEveryPrefix(Success(client, services), before, t[k]);
    assert u[..|u| - 1] == t;
  }

  /** One iteration adds a sound segment; it fails exactly when its last
      call did, and otherwise ends where the next iteration may begin. */
  lemma ProcessCategorySound(client: FeedClient, services: Services, steps: Steps, category: string, h: History)
    requires Sound(client, services, steps, h) && !CallFailed(client, services, h) && AtBoundary(client, h)
    ensures var run := ProcessCategory(client, services, steps, category, h);
      && Sound(client, services, steps, run.trace)
      && (run.failed <==> CallFailed(client, services, run.trace))
      && (!run.failed ==> AtBoundary(client, run.trace))
  {
    var h1 := h + [GetUnreadArticles(category)];
    assert h1[..|h1| - 1] == h;
    Extend(client, services, steps, h, GetUnreadArticles(category));
    var fetched := client.unreadArticles(h, category);
    if fetched.Ok? && fetched.value != [] {
      FilterSound(client, services, steps, fetched.value, h1);
    }
  }

  lemma FilterSound(client: FeedClient, services: Services, steps: Steps, articles: seq<Article>, h: History)
    requires Sound(client, services, steps, h) && !CallFailed(client, services, h)
    requires h[|h| - 1].GetUnreadArticles? && articles != []
    requires client.unreadArticles(h[..|h| - 1], h[|h| - 1].category) == Ok(articles)
    ensures var run := Filter(client, services, steps, articles, h);
      && Sound(client, services, steps, run.trace)
      && (run.failed <==> CallFailed(client, services, run.trace))
      && (!run.failed ==> AtBoundary(client, run.trace))
  {
    var message := steps.message(articles);
    var h1 := h + [Converse(message)];
    assert h1[..|h1| - 1] == h;
    Extend(client, services, steps, h, Converse(message));
    var reply := services.converse(h, message);
    if reply.Ok? {
      assert h1[..|h1| - 2] == h[..|h| - 1];
      MailSound(client, services, steps, articles, steps.select(articles, reply.value), h1);
    }
  }

  lemma MailSound(client: FeedClient, services: Services, steps: Steps, articles: seq<Article>, selected: seq<Article>, h: History)
    requires Sound(client, services, steps, h) && !CallFailed(client, services, h)
    requires |h| >= 2 && h[|h| - 2].GetUnreadArticles? && articles != []
    requires client.unreadArticles(h[..|h| - 2], h[|h| - 2].category) == Ok(articles)
    requires h[|h| - 1] == Converse(steps.message(articles))
    requires services.converse(h[..|h| - 1], steps.message(articles)).Ok?
    requires selected == steps.select(articles, services.converse(h[..|h| - 1], steps.message(articles)).value)
    ensures var run := Mail(client, services, steps, articles, selected, h);
      && Sound(client, services, steps, run.trace)
      && (run.failed <==> CallFailed(client, services, run.trace))
      && (!run.failed ==> AtBoundary(client, run.trace))
  {
    var email := steps.compose(selected);
    var h1 := h + [SendEmail(email)];
    assert h1[..|h1| - 1] == h;
    assert WellPlaced(client, services, steps, h1);
    Extend(client, services, steps, h, SendEmail(email));
    if services.send(h, email).Pass? {
      assert h1[..|h1| - 3] == h[..|h| - 2];
      MarkSound(client, services, steps, Ids(articles), h1);
    }
  }

  lemma MarkSound(client: FeedClient, services: Services, steps: Steps, articleIds: seq<string>, h: History)
    requires Sound(client, services, steps, h) && !CallFailed(client, services, h)
    requires WellPlaced(client, services, steps, h + [MarkAsRead(articleIds)])
    ensures var run := Mark(client, articleIds, h);
      && Sound(client, services, steps, run.trace)
      && (run.failed <==> CallFailed(client, services, run.trace))
      && (!run.failed ==> AtBoundary(client, run.trace))
  {
    var h1 := h + [MarkAsRead(articleIds)];
    assert h1[..|h1| - 1] == h;
    Extend(client, services, steps, h, MarkAsRead(articleIds));
  }

  /** The loop keeps the trace sound, fetches the categories in the order
      given (all of them when it completes, a non-empty prefix when it
      fails), and fails exactly when its last call did. */
  lemma {:induction false} ProcessCategoriesSound(client: FeedClient, services: Services, steps: Steps, categories: seq<string>, h: History)
    requires Sound(client, services, steps, h) && !CallFailed(client, services, h) && AtBoundary(client, h)
    ensures var run := ProcessCategories(client, services, steps, categories, h);
      && Sound(client, services, steps, run.trace)
      && (run.failed <==> CallFailed(client, services, run.trace))
      && (!run.failed ==> AtBoundary(client, run.trace))
    decreases |categories|
  {
    if categories != [] {
      var first := ProcessCategory(client, services, steps, categories[0], h);
      ProcessCategorySound(client, services, steps, categories[0], h);
      if !first.failed {
        ProcessCategoriesSound(client, services, steps, categories[1..], first.trace);
      }
    }
  }

  /** One iteration fetches its category, once. */
  lemma ProcessCategoryFetchesOnce(client: FeedClient, services: Services, steps: Steps, category: string, h: History)
    ensures FetchedCategories(ProcessCategory(client, services, steps, category, h).trace) == FetchedCategories(h) + [category]
  {
    var h1 := h + [GetUnreadArticles(category)];
    FetchedCategoriesAppend(h, GetUnreadArticles(category));
    var fetched := client.unreadArticles(h, category);
    if fetched.Ok? && fetched.value != [] {
      FilterFetchesNothing(client, services, steps, fetched.value, h1);
    }
  }

  lemma FilterFetchesNothing(client: FeedClient, services: Services, steps: Steps, articles: seq<Article>, h: History)
    ensures FetchedCategories(Filter(client, services, steps, articles, h).trace) == FetchedCategories(h)
  {
    var message := steps.message(articles);
    FetchedCategoriesAppend(h, Converse(message));
    var reply := services.converse(h, message);
    if reply.Ok? {
      MailFetchesNothing(client, services, steps, articles, steps.select(articles, reply.value), h + [Converse(message)]);
    }
  }

  lemma MailFetchesNothing(client: FeedClient, services: Services, steps: Steps, articles: seq<Article>, selected: seq<Article>, h: History)
    ensures FetchedCategories(Mail(client, services, steps, articles, selected, h).trace) == FetchedCategories(h)
  {
    var email := steps.compose(selected);
    FetchedCategoriesAppend(h, SendEmail(email));
    FetchedCategoriesAppend(h + [SendEmail(email)], MarkAsRead(Ids(articles)));
  }

  lemma AppendAssociates(a: seq<string>, b: seq<string>, c: seq<string>)
    ensures a + b + c == a + (b + c)
  {
  }

  /** The fetches of a failed run: the first category, then a non-empty
      prefix of the rest. */
  lemma PrefixAfterFirst(before: seq<string>, categories: seq<string>, middle: seq<string>, after: seq<string>)
    requires |categories| >= 1 && middle == before + [categories[0]]
    requires var n := |after| - |middle|;
      1 <= n <= |categories| - 1 && after == middle + categories[1..][..n]
    ensures var n := |after| - |before|;
      1 <= n <= |categories| && after == before + categories[..n]
  {
    var n := |after| - |middle|;
    assert categories[..n + 1] == [categories[0]] + categories[1..][..n];
    AppendAssociates(before, [categories[0]], categories[1..][..n]);
  }

  /** Each step of `iteration` fetches its own category and no other. */
  ghost predicate FetchesItsCategory(iteration: (string, History) -> Run) {
    forall category, h :: FetchedCategories(iteration(category, h).trace) == FetchedCategories(h) + [category]
  }

  lemma IterationFetchesItsCategory(client: FeedClient, services: Services, steps: Steps)
    ensures FetchesItsCategory(Iteration(client, services, steps))
  {
    forall category, h
      ensures FetchedCategories(Iteration(client, services, steps)(category, h).trace) == FetchedCategories(h) + [category]
    {
      ProcessCategoryFetchesOnce(client, services, steps, category, h);
    }
  }

  /** A loop that completes fetches every category, once each, in the
      order given. */
  lemma {:induction false} CompletedLoopFetchesAll(iteration: (string, History) -> Run, categories: seq<string>, h: History)
    requires FetchesItsCategory(iteration)
    ensures var run := Loop(iteration, categories, h);
      !run.failed ==> FetchedCategories(run.trace) == FetchedCategories(h) + categories
    decreases |categories|
  {
    if categories != [] {
      var first := iteration(categories[0], h);
      if !first.failed {
        var rest := categories[1..];
        CompletedLoopFetchesAll(iteration, rest, first.trace);
        assert categories == [categories[0]] + rest;
        AppendAssociates(FetchedCategories(h), [categories[0]], rest);
      }
    }
  }

  /** A loop that stops at an error has fetched a non-empty prefix of the
      categories, in order, and none after the one that failed. */
  lemma {:induction false} FailedLoopFetchesPrefix(iteration: (string, History) -> Run, categories: seq<string>, h: History)
    requires FetchesItsCategory(iteration)
    ensures var run := Loop(iteration, categories, h);
      var n := |FetchedCategories(run.trace)| - |FetchedCategories(h)|;
      run.failed ==> 1 <= n <= |categories| && FetchedCategories(run.trace) == FetchedCategories(h) + categories[..n]
    decreases |categories|
  {
    if categories != [] {
      var first := iteration(categories[0], h);
      var before := FetchedCategories(h);
      if first.failed {
        assert categories[..1] == [categories[0]];
      } else {
        var rest := categories[1..];
        FailedLoopFetchesPrefix(iteration, rest, first.trace);
        var run := Loop(iteration, rest, first.trace);
        if run.failed {
          PrefixAfterFirst(before, categories, FetchedCategories(first.trace), FetchedCategories(run.trace));
        }
      }
    }
  }

  /** `main` under a loaded configuration: a sound trace that opens with
      `getMyCategories` and fails exactly when its last call got an error. */
  lemma RunMainSound(cfg: AppConfig, remote: FeedClient, services: Services)
    ensures var client := CreateFreshRssClient(cfg.freshrss, remote);
      var run := RunMain(cfg, remote, services);
      && Sound(client, services, MainSteps(cfg.ses), run.trace)
      && run.trace[0] == GetMyCategories
      && (run.failed <==> CallFailed(client, services, run.trace))
  {
    var client := CreateFreshRssClient(cfg.freshrss, remote);
    var start := [GetMyCategories];
    assert start[..1] == start && start[..0] == [];
    assert Placement(client, services, MainSteps(cfg.ses))(start);
    if client.categories([]).Ok? {
      ProcessCategoriesSound(client, services, MainSteps(cfg.ses), client.categories([]).value, start);
      ProcessCategoriesPrefix(client, services, MainSteps(cfg.ses), client.categories([]).value, start);
    }
  }

  /** `main` fetches the categories `getMyCategories` answered, in that
      order. */
  lemma RunMainCategoriesInOrder(cfg: AppConfig, remote: FeedClient, services: Services)
    requires CreateFreshRssClient(cfg.freshrss, remote).categories([]).Ok?
    ensures var categories := CreateFreshRssClient(cfg.freshrss, remote).categories([]).value;
      var run := RunMain(cfg, remote, services);
      var fetched := FetchedCategories(run.trace);
      && (!run.failed ==> fetched == categories)
      && (run.failed ==> 1 <= |fetched| <= |categories| && fetched == categories[..|fetched|])
  {
    var client := CreateFreshRssClient(cfg.freshrss, remote);
    var start := [GetMyCategories];
    FetchedCategoriesAppend([], GetMyCategories);
    assert [] + start == start;
    IterationFetchesItsCategory(client, services, MainSteps(cfg.ses));
    CompletedLoopFetchesAll(Iteration(client, services, MainSteps(cfg.ses)), client.categories([]).value, start);
    FailedLoopFetchesPrefix(Iteration(client, services, MainSteps(cfg.ses)), client.categories([]).value, start);
  }

  lemma {:induction false} ProcessCategoriesPrefix(client: FeedClient, services: Services, steps: Steps, categories: seq<string>, h: History)
    ensures var t := ProcessCategories(client, services, steps, categories, h).trace;
      |h| <= |t| && t[..|h|] == h
    decreases |categories|
  {
    if categories != [] {
      var first := ProcessCategory(client, services, steps, categories[0], h);
      assert |h| <= |first.trace| && first.trace[..|h|] == h;
      if !first.failed {
        ProcessCategoriesPrefix(client, services, steps, categories[1..], first.trace);
      }
    }
  }

  // ---------------------------------------------------------------------
  // Consequences for each call of a run
  // ---------------------------------------------------------------------

  /** Call `p` of a sound trace is well placed after the calls before it. */
  lemma PlacedAt(client: FeedClient, services: Services, steps: Steps, t: History, p: nat)
    requires Sound(client, services, steps, t) && p < |t|
    ensures WellPlaced(client, services, steps, t[..p] + [t[p]])
  {
    assert Placement(client, services, steps)(t[..p + 1]);
    assert t[..p + 1] == t[..p] + [t[p]];
  }

  /** A fetch that found nothing is followed by the next fetch or by
      nothing: no filter, no mail, no `markAsRead`. */
  lemma EmptyFetchSkips(client: FeedClient, services: Services, steps: Steps, t: History, p: nat)
    requires Sound(client, services, steps, t) && p + 1 < |t|
    requires t[p].GetUnreadArticles? && client.unreadArticles(t[..p], t[p].category) == Ok([])
    ensures t[p + 1].GetUnreadArticles?
  {
    PlacedAt(client, services, steps, t, p + 1);
    var h := t[..p + 1];
    assert h[..|h| - 1] == t[..p] && h[|h| - 1] == t[p];
    assert t[..p + 1] + [t[p + 1]] == t[..p + 2];
  }

  /** After a non-empty fetch comes `Converse` on its numbered titles (as
      far as the trace goes). */
  lemma FetchThenFilter(client: FeedClient, services: Services, steps: Steps, t: History, p: nat, articles: seq<Article>)
    requires Sound(client, services, steps, t) && p + 1 < |t|
    requires t[p].GetUnreadArticles? && client.unreadArticles(t[..p], t[p].category) == Ok(articles) && articles != []
    ensures t[p + 1] == Converse(steps.message(articles))
  {
    PlacedAt(client, services, steps, t, p + 1);
    var h := t[..p + 1];
    assert h[..|h| - 1] == t[..p] && h[|h| - 1] == t[p];
  }

  /** ... then the mail ... */
  lemma FilterThenMail(client: FeedClient, services: Services, steps: Steps, t: History, p: nat)
    requires Sound(client, services, steps, t) && p + 1 < |t| && t[p].Converse?
    ensures t[p + 1].SendEmail?
  {
    PlacedAt(client, services, steps, t, p + 1);
    var h := t[..p + 1];
    assert h[|h| - 1] == t[p];
  }

  /** ... then `markAsRead`. */
  lemma MailThenMark(client: FeedClient, services: Services, steps: Steps, t: History, p: nat)
    requires Sound(client, services, steps, t) && p + 1 < |t| && t[p].SendEmail?
    ensures t[p + 1].MarkAsRead?
  {
    PlacedAt(client, services, steps, t, p + 1);
    var h := t[..p + 1];
    assert h[|h| - 1] == t[p];
  }

  /** A run that did not fail does not stop inside an iteration: a
      non-empty fetch is followed by all three calls. */
  lemma CompletedIterations(client: FeedClient, services: Services, steps: Steps, t: History, p: nat, articles: seq<Article>)
    requires Sound(client, services, steps, t) && AtBoundary(client, t) && p < |t|
    requires t[p].GetUnreadArticles? && client.unreadArticles(t[..p], t[p].category) == Ok(articles) && articles != []
    ensures p + 3 < |t|
    ensures t[p + 1] == Converse(steps.message(articles)) && t[p + 2].SendEmail? && t[p + 3] == MarkAsRead(Ids(articles))
  {
    assert p + 1 < |t|;
    FetchThenFilter(client, services, steps, t, p, articles);
    assert p + 2 < |t|;
    FilterThenMail(client, services, steps, t, p + 1);
    assert p + 3 < |t|;
    MailThenMark(client, services, steps, t, p + 2);
    MarkNamesEveryFetched(client, services, steps, t, p + 3);
    assert p + 3 - 3 == p;
  }

  /** The mail names exactly the articles the filter selected from the
      fetch before it, given the model's reply. */
  lemma MailCarriesSelection(client: FeedClient, services: Services, steps: Steps, t: History, p: nat)
    requires Sound(client, services, steps, t) && p < |t| && t[p].SendEmail?
    ensures 2 <= p && t[p - 2].GetUnreadArticles? && t[p - 1].Converse?
    ensures var fetched := client.unreadArticles(t[..p - 2], t[p - 2].category);
      var reply := services.converse(t[..p - 1], t[p - 1].userMessage);
      && fetched.Ok? && reply.Ok?
      && t[p - 1].userMessage == steps.message(fetched.value)
      && t[p].message == steps.compose(steps.select(fetched.value, reply.value))
  {
    PlacedAt(client, services, steps, t, p);
    var h := t[..p];
    assert |h| >= 2;
    assert h[..|h| - 2] == t[..p - 2] && h[..|h| - 1] == t[..p - 1];
  }

  /** In a run of `main`, `Converse` gets the numbered titles of the
      fetch before it, and the mail renders for the configured addresses
      exactly the articles `filterArticles` picked from the reply. */
  lemma MainMailCarriesSelection(cfg: AppConfig, remote: FeedClient, services: Services, p: nat)
    requires var t := RunMain(cfg, remote, services).trace; p < |t| && t[p].SendEmail?
    ensures var t := RunMain(cfg, remote, services).trace;
      var client := CreateFreshRssClient(cfg.freshrss, remote);
      && 2 <= p && t[p - 2].GetUnreadArticles? && t[p - 1].Converse?
      && var fetched := client.unreadArticles(t[..p - 2], t[p - 2].category);
      && var reply := services.converse(t[..p - 1], t[p - 1].userMessage);
      && fetched.Ok? && reply.Ok?
      && t[p - 1].userMessage == UserMessage(fetched.value)
      && t[p].message == ComposeEmail(cfg.ses.fromAddress, cfg.ses.toAddress, FilterArticles(fetched.value, reply.value).selectedArticles)
  {
    var client := CreateFreshRssClient(cfg.freshrss, remote);
    RunMainSound(cfg, remote, services);
    MailCarriesSelection(client, services, MainSteps(cfg.ses), RunMain(cfg, remote, services).trace, p);
  }

  /** `markAsRead` names every article of the fetch that began the
      iteration, in fetch order, whatever the filter selected. */
  lemma MarkNamesEveryFetched(client: FeedClient, services: Services, steps: Steps, t: History, p: nat)
    requires Sound(client, services, steps, t) && p < |t| && t[p].MarkAsRead?
    ensures 3 <= p && t[p - 3].GetUnreadArticles?
    ensures var fetched := client.unreadArticles(t[..p - 3], t[p - 3].category);
      fetched.Ok? && t[p].articleIds == Ids(fetched.value)
  {
    PlacedAt(client, services, steps, t, p);
    var h := t[..p];
    assert |h| >= 3;
    assert h[..|h| - 3] == t[..p - 3];
  }

  /** Loading the configuration happens before `main`: when it fails no
      call is made and the exit code is 1. */
  lemma ConfigFailsFirst(env: Env, remote: FeedClient, services: Services)
    ensures LoadConfig(env).Err? <==> Program(env, remote, services) == Run([], true)
    ensures LoadConfig(env).Ok? ==> Program(env, remote, services) == RunMain(LoadConfig(env).value, remote, services)
  {
    if LoadConfig(env).Ok? {
      RunMainSound(LoadConfig(env).value, remote, services);
    }
  }

  /** No call follows one that got an error. */
  lemma NothingAfterError(cfg: AppConfig, remote: FeedClient, services: Services)
    ensures var run := RunMain(cfg, remote, services);
      var client := CreateFreshRssClient(cfg.freshrss, remote);
      forall n :: 1 <= n < |run.trace| ==> !CallFailed(client, services, run.trace[..n])
  {
    var t := RunMain(cfg, remote, services).trace;
    var client := CreateFreshRssClient(cfg.freshrss, remote);
    RunMainSound(cfg, remote, services);
    forall n | 1 <= n < |t|
      ensures !CallFailed(client, services, t[..n])
    {
      assert Success(client, services)(t[..|t| - 1][..n]);
      assert t[..|t| - 1][..n] == t[..n];
    }
  }

  /** The exit code is 1 exactly when some call got an error. */
  lemma ExitCodeReportsError(cfg: AppConfig, remote: FeedClient, services: Services)
    ensures var run := RunMain(cfg, remote, services);
      var client := CreateFreshRssClient(cfg.freshrss, remote);
      ExitCode(run) == 1 <==> exists n :: 1 <= n <= |run.trace| && CallFailed(client, services, run.trace[..n])
  {
    var t := RunMain(cfg, remote, services).trace;
    var client := CreateFreshRssClient(cfg.freshrss, remote);
    RunMainSound(cfg, remote, services);
    NothingAfterError(cfg, remote, services);
    assert t[..|t|] == t;
  }

  /** With the mock switched on, the FreshRSS client passed in is never
      used. */
  lemma MockIgnoresRemote(cfg: AppConfig, remote: FeedClient, other: FeedClient, services: Services)
    requires cfg.freshrss.useMock
    ensures RunMain(cfg, remote, services) == RunMain(cfg, other, services)
  {
  }

  /** With the mock switched off, `main` runs on the remote client: its
      trace is well formed against that client and fails exactly when one
      of that client's calls (or a Bedrock or SES call) got an error. */
  lemma RemoteRunFollowsClient(cfg: AppConfig, remote: FeedClient, services: Services)
    requires !cfg.freshrss.useMock
    ensures var run := RunMain(cfg, remote, services);
      && Sound(remote, services, MainSteps(cfg.ses), run.trace)
      && (run.failed <==> CallFailed(remote, services, run.trace))
  {
    RunMainSound(cfg, remote, services);
  }

  /** With the mock switched on, the run fetches the mock's two categories
      in order, every `markAsRead` names all eight mock articles, and only
      the Bedrock or SES call can fail. */
  lemma MockRun(cfg: AppConfig, remote: FeedClient, services: Services)
    requires cfg.freshrss.useMock
    ensures var run := RunMain(cfg, remote, services);
      var fetched := FetchedCategories(run.trace);
      && (!run.failed ==> fetched == MockFeed.Categories)
      && (run.failed ==> 1 <= |fetched| <= |MockFeed.Categories| && fetched == MockFeed.Categories[..|fetched|])
      && (forall p :: 0 <= p < |run.trace| && run.trace[p].MarkAsRead? ==> run.trace[p].articleIds == Ids(MockFeed.MockArticles))
      && (run.failed ==> |run.trace| > 0 && (run.trace[|run.trace| - 1].Converse? || run.trace[|run.trace| - 1].SendEmail?))
  {
    var client := MockClient();
    var run := RunMain(cfg, remote, services);
    RunMainSound(cfg, remote, services);
    RunMainCategoriesInOrder(cfg, remote, services);
    forall p | 0 <= p < |run.trace| && run.trace[p].MarkAsRead?
      ensures run.trace[p].articleIds == Ids(MockFeed.MockArticles)
    {
      MarkNamesEveryFetched(client, services, MainSteps(cfg.ses), run.trace, p);
    }
  }
}
