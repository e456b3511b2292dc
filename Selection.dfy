/** `filterArticles`: the prompt that numbers the articles, and the
    defensive reading of the model's reply into selected and unselected
    articles. The Bedrock call itself is an oracle: its reply is a parameter. */
module Selection {
  import opened Results
  import opened Strings
  import opened Articles

  /** The reply the system prompt asks for when nothing is worth reading. */
  const NothingSelected: string := "なし"

  /** First paragraph of the user message; the numbered list follows it. */
  const UserMessageIntro: string := "以下の記事タイトルから、DevOps エンジニアにとって有益そうな記事を選別してください。"

  datatype FilterResult = FilterResult(selectedArticles: seq<Article>, unselectedArticles: seq<Article>)

  // ---------------------------------------------------------------------
  // The prompt
  // ---------------------------------------------------------------------

  /** Line `i` (0-based) of the list: the 1-based number, a dot, the title. */
  function PromptLine(i: nat, article: Article): string {
    DecimalString(i + 1) + ". " + article.title
  }

  function PromptLines(articles: seq<Article>): seq<string> {
    seq(|articles|, i requires 0 <= i < |articles| => PromptLine(i, articles[i]))
  }

  /** The numbered article list, one line per article. */
  function ArticleList(articles: seq<Article>): string {
    Join(PromptLines(articles), "\n")
  }

  function UserMessage(articles: seq<Article>): string {
    UserMessageIntro + "\n\n" + ArticleList(articles)
  }

  /** Where line `i` of the list starts in the user message. */
  function PromptLineOffset(articles: seq<Article>, i: nat): nat
    requires i < |articles|
  {
    |UserMessageIntro| + 2 + JoinOffset(PromptLines(articles), "\n", i)
  }

  /** Every numbered line occurs in the user message, line `i` right after
      line `i - 1` and a newline, so the model sees article `k` (1-based)
      behind the number `k`, in the articles' order. */
  lemma UserMessageListsEveryArticle(articles: seq<Article>, i: nat)
    requires i < |articles|
    ensures OccursAt(DecimalString(i + 1) + ". " + articles[i].title, UserMessage(articles), PromptLineOffset(articles, i))
    ensures i + 1 < |articles| ==>
      PromptLineOffset(articles, i + 1) == PromptLineOffset(articles, i) + |PromptLine(i, articles[i])| + 1
  {
    var lines := PromptLines(articles);
    var head := UserMessageIntro + "\n\n";
    JoinPartInContext(head, lines, "\n", "", i);
    assert head + Join(lines, "\n") + "" == UserMessage(articles);
    if i + 1 < |articles| {
      JoinOffsetNext(lines, "\n", i);
    }
  }

  // ---------------------------------------------------------------------
  // Reading the reply
  // ---------------------------------------------------------------------

  /** `response.output?.message?.content?.[0]?.text ?? ""`. */
  function OutputText(reply: Option<string>): string {
    match reply
    case Some(text) => text
    case None => ""
  }

  /** `parseInt(token.trim(), 10) - 1`; `None` is `NaN`. */
  function TokenIndex(token: string): Option<int> {
    match ParseInt(Trim(token))
    case None => None
    case Some(v) => Some(v - 1)
  }

  /** The filter of the source: not `NaN`, and inside `[0, n)`. */
  predicate InRange(t: Option<int>, n: nat) {
    t.Some? && 0 <= t.value < n
  }

  /** `.map((s) => parseInt(s.trim(), 10) - 1)` over the tokens. */
  function TokenIndices(tokens: seq<string>): (r: seq<Option<int>>)
    ensures |r| == |tokens|
  {
    seq(|tokens|, k requires 0 <= k < |tokens| => TokenIndex(tokens[k]))
  }

  /** `.filter((i) => !isNaN(i) && i >= 0 && i < n)`: the in-range indices
      in token order, repetitions kept. */
  function InRangeIndices(ts: seq<Option<int>>, n: nat): (r: seq<nat>)
    ensures forall k :: 0 <= k < |r| ==> r[k] < n
  {
    if ts == [] then []
    else (if InRange(ts[0], n) then [ts[0].value as nat] else []) + InRangeIndices(ts[1..], n)
  }

  /** The whole split / map / filter pipeline over the reply. */
  function SelectedIndices(tokens: seq<string>, n: nat): (r: seq<nat>)
    ensures forall k :: 0 <= k < |r| ==> r[k] < n
  {
    InRangeIndices(TokenIndices(tokens), n)
  }

  /** `idx.map((i) => articles[i])`. */
  function Project(articles: seq<Article>, idx: seq<nat>): (r: seq<Article>)
    requires forall k :: 0 <= k < |idx| ==> idx[k] < |articles|
  {
    seq(|idx|, k requires 0 <= k < |idx| => articles[idx[k]])
  }

  /** `new Set(idx)`. */
  function IndexSet(idx: seq<nat>): (r: set<nat>)
    ensures forall i :: i in r <==> i in idx
  {
    set k | k in idx
  }

  /** `articles.filter((_, i) => !chosen.has(i))`. */
  function Unselected(articles: seq<Article>, chosen: set<nat>): seq<Article> {
    if articles == [] then []
    else
      var last := |articles| - 1;
      Unselected(articles[..last], chosen) + (if last in chosen then [] else [articles[last]])
  }

  /** Whether the reply takes the early "nothing selected" exit: exactly the
      sentinel, or blank once trimmed. */
  predicate SaysNothing(outputText: string) {
    outputText == NothingSelected || Trim(outputText) == ""
  }

  /** The indices the reply selects: none on the early exit, the parsed
      tokens otherwise. */
  function SelectionIndices(outputText: string, n: nat): (r: seq<nat>)
    ensures forall k :: 0 <= k < |r| ==> r[k] < n
  {
    if SaysNothing(outputText) then [] else SelectedIndices(Split(outputText, ','), n)
  }

  /** What `filterArticles` returns once the model has replied with
      `outputText` for a non-empty article list. */
  function ParseSelection(outputText: string, articles: seq<Article>): FilterResult {
    if SaysNothing(outputText) then FilterResult([], articles)
    else
      var idx := SelectedIndices(Split(outputText, ','), |articles|);
      FilterResult(Project(articles, idx), Unselected(articles, IndexSet(idx)))
  }

  /** `filterArticles(articles)` given the model's reply. An empty list
      returns before the model is asked, so the reply is then not read. */
  function FilterArticles(articles: seq<Article>, reply: Option<string>): (r: FilterResult)
    ensures articles == [] ==> r == FilterResult([], [])
  {
    if |articles| == 0 then FilterResult([], []) else ParseSelection(OutputText(reply), articles)
  }

  // ---------------------------------------------------------------------
  // Properties of the unselected filter
  // ---------------------------------------------------------------------

  /** The indices below `n` that are not chosen, in increasing order. */
  function UnselectedIndices(n: nat, chosen: set<nat>): (r: seq<nat>)
    ensures forall k :: 0 <= k < |r| ==> r[k] < n
  {
    if n == 0 then [] else UnselectedIndices(n - 1, chosen) + (if n - 1 in chosen then [] else [n - 1])
  }

  /** The positions `0 .. n-1`. */
  function Below(n: nat): set<nat> {
    if n == 0 then {} else Below(n - 1) + {n - 1}
  }

  lemma {:induction false} BelowMembers(n: nat, i: nat)
    ensures i in Below(n) <==> i < n
  {
    if n > 0 {
      BelowMembers(n - 1, i);
    }
  }

  /** `UnselectedIndices` lists exactly the unchosen indices below `n`. */
  lemma {:induction false} UnselectedIndicesMembers(n: nat, chosen: set<nat>, i: nat)
    ensures i in UnselectedIndices(n, chosen) <==> i < n && i !in chosen
  {
    if n > 0 {
      UnselectedIndicesMembers(n - 1, chosen, i);
    }
  }

  predicate Increasing(r: seq<nat>) {
    forall j, k :: 0 <= j < k < |r| ==> r[j] < r[k]
  }

  /** ... in strictly increasing order, that is, in the articles' order. */
  lemma {:induction false} UnselectedIndicesIncreasing(n: nat, chosen: set<nat>)
    ensures Increasing(UnselectedIndices(n, chosen))
  {
    if n > 0 {
      UnselectedIndicesIncreasing(n - 1, chosen);
      var prev := UnselectedIndices(n - 1, chosen);
      var r := UnselectedIndices(n, chosen);
      assert r == prev + (if n - 1 in chosen then [] else [n - 1]);
      forall j, k | 0 <= j < k < |r| ensures r[j] < r[k] {
        assert r[j] == prev[j] && prev[j] < n - 1;
        if k < |prev| {
          assert r[k] == prev[k];
          assert prev[j] < prev[k];
        } else {
          assert r[k] == n - 1;
        }
      }
    }
  }

  /** ... and with the chosen ones they account for all `n` positions. */
  lemma {:induction false} UnselectedIndicesCount(n: nat, chosen: set<nat>)
    ensures |UnselectedIndices(n, chosen)| + |chosen * Below(n)| == n
  {
    if n > 0 {
      UnselectedIndicesCount(n - 1, chosen);
      var before := chosen * Below(n - 1);
      BelowMembers(n - 1, n - 1);
      assert n - 1 !in before;
      if n - 1 in chosen {
        assert chosen * Below(n) == before + {n - 1};
      } else {
        assert chosen * Below(n) == before;
      }
    }
  }

  /** The source's index filter is the projection of the articles onto the
      unchosen indices. */
  lemma {:induction false} UnselectedIsProjection(articles: seq<Article>, chosen: set<nat>)
    ensures Unselected(articles, chosen) == Project(articles, UnselectedIndices(|articles|, chosen))
  {
    if articles != [] {
      var last := |articles| - 1;
      UnselectedIsProjection(articles[..last], chosen);
    }
  }

  lemma {:induction false} UnselectedNoneChosen(articles: seq<Article>)
    ensures Unselected(articles, {}) == articles
  {
    if articles != [] {
      UnselectedNoneChosen(articles[..|articles| - 1]);
    }
  }

  // ---------------------------------------------------------------------
  // Properties of the token pipeline
  // ---------------------------------------------------------------------

  /** How many of the parsed tokens name the 0-based index `i`. */
  function Naming(ts: seq<Option<int>>, i: int): nat {
    if ts == [] then 0
    else (if ts[0] == Some(i) then 1 else 0) + Naming(ts[1..], i)
  }

  /** Each in-range index appears in the result as often as tokens name it:
      repeated numbers are kept, not collapsed. Indices out of range and
      `NaN` tokens contribute nothing. */
  lemma {:induction false} InRangeIndicesCount(ts: seq<Option<int>>, n: nat, i: nat)
    ensures multiset(InRangeIndices(ts, n))[i] == if i < n then Naming(ts, i) else 0
  {
    if ts != [] {
      InRangeIndicesCount(ts[1..], n, i);
      var head: seq<nat> := if InRange(ts[0], n) then [ts[0].value as nat] else [];
      assert InRangeIndices(ts, n) == head + InRangeIndices(ts[1..], n);
    }
  }

  /** The filter works token by token, so the indices come out in the order
      the tokens appear in the reply. */
  lemma {:induction false} InRangeIndicesAppend(xs: seq<Option<int>>, ys: seq<Option<int>>, n: nat)
    ensures InRangeIndices(xs + ys, n) == InRangeIndices(xs, n) + InRangeIndices(ys, n)
  {
    if xs == [] {
      assert xs + ys == ys;
    } else {
      assert (xs + ys)[1..] == xs[1..] + ys;
      InRangeIndicesAppend(xs[1..], ys, n);
    }
  }

  /** Tokens that all read as `NaN` select nothing. */
  lemma {:induction false} InRangeIndicesAllNaN(ts: seq<Option<int>>, n: nat)
    requires forall k :: 0 <= k < |ts| ==> ts[k] == None
    ensures InRangeIndices(ts, n) == []
  {
    if ts != [] {
      InRangeIndicesAllNaN(ts[1..], n);
    }
  }

  // ---------------------------------------------------------------------
  // Properties of filterArticles
  // ---------------------------------------------------------------------

  /** Both outcomes of the parse have one shape: the selected articles are
      the projection of the selected indices, the unselected ones are the
      articles at the other positions, in their original order. */
  lemma ParseSelectionShape(outputText: string, articles: seq<Article>)
    ensures var idx := SelectionIndices(outputText, |articles|);
      ParseSelection(outputText, articles)
        == FilterResult(Project(articles, idx), Unselected(articles, IndexSet(idx)))
  {
    if SaysNothing(outputText) {
      assert (IndexSet(SelectionIndices(outputText, |articles|))) == {};
      UnselectedNoneChosen(articles);
    }
  }

  /** Partition over any in-range index list: the distinct selected
      positions and the positions the filter keeps are disjoint, cover every
      position, and their sizes add up to the number of articles. */
  lemma PartitionOfIndices(articles: seq<Article>, idx: seq<nat>)
    requires forall k :: 0 <= k < |idx| ==> idx[k] < |articles|
    ensures var chosen := IndexSet(idx);
      var rest := UnselectedIndices(|articles|, chosen);
      && Unselected(articles, chosen) == Project(articles, rest)
      && chosen !! IndexSet(rest)
      && chosen + IndexSet(rest) == Below(|articles|)
      && |Unselected(articles, chosen)| + |chosen| == |articles|
  {
    var n := |articles|;
    var chosen := IndexSet(idx);
    var rest := UnselectedIndices(n, chosen);
    UnselectedIsProjection(articles, chosen);
    UnselectedIndicesCount(n, chosen);
    forall i: nat | i in chosen + IndexSet(rest) || i in Below(n)
      ensures i in chosen + IndexSet(rest) <==> i in Below(n)
    {
      UnselectedIndicesMembers(n, chosen, i);
      BelowMembers(n, i);
    }
    forall i | i in chosen ensures i in Below(n) {
      BelowMembers(n, i);
    }
    assert chosen * Below(n) == chosen;
    forall i: nat | i in rest ensures i !in chosen {
      UnselectedIndicesMembers(n, chosen, i);
    }
  }

  /** Partition: every article is either selected (possibly several times)
      or unselected, never both, and `|unselected| + |distinct selected
      indices| == |articles|`. */
  lemma Partition(outputText: string, articles: seq<Article>)
    ensures var idx := SelectionIndices(outputText, |articles|);
      var chosen := IndexSet(idx);
      var rest := UnselectedIndices(|articles|, chosen);
      var r := ParseSelection(outputText, articles);
      && r.selectedArticles == Project(articles, idx)
      && r.unselectedArticles == Project(articles, rest)
      && chosen !! IndexSet(rest)
      && chosen + IndexSet(rest) == Below(|articles|)
      && |r.unselectedArticles| + |chosen| == |articles|
  {
    ParseSelectionShape(outputText, articles);
    PartitionOfIndices(articles, SelectionIndices(outputText, |articles|));
  }

  /** Every selected article is one of the input articles. */
  lemma SelectedAreArticles(outputText: string, articles: seq<Article>)
    ensures var r := ParseSelection(outputText, articles);
      forall k :: 0 <= k < |r.selectedArticles| ==> r.selectedArticles[k] in articles
  {
    ParseSelectionShape(outputText, articles);
  }

  /** The sentinel itself reads as `NaN`. */
  lemma SentinelIsNaN()
    ensures TokenIndices(Split(NothingSelected, ',')) == [None]
  {
    SplitWithout(NothingSelected, ',');
    assert TrimStart(NothingSelected) == NothingSelected;
    assert TrimEnd(NothingSelected) == NothingSelected;
    ParseIntNaN(NothingSelected);
  }

  /** Every token of a blank reply reads as `NaN`. */
  lemma BlankIsNaN(outputText: string)
    requires AllWhitespace(outputText)
    ensures forall k :: 0 <= k < |Split(outputText, ',')| ==> TokenIndices(Split(outputText, ','))[k] == None
  {
    var tokens := Split(outputText, ',');
    forall k | 0 <= k < |tokens| ensures TokenIndices(tokens)[k] == None {
      SplitPartsWhitespace(outputText, ',', k);
      TrimEmptyIffWhitespace(tokens[k]);
      ParseIntNaN(Trim(tokens[k]));
    }
  }

  /** The early exit changes nothing observable: the sentinel and a blank
      reply would also select nothing if they went through the parser. */
  lemma EarlyExitAgreesWithParser(outputText: string, articles: seq<Article>)
    requires SaysNothing(outputText)
    ensures SelectedIndices(Split(outputText, ','), |articles|) == []
    ensures ParseSelection(outputText, articles) == FilterResult([], articles)
  {
    var tokens := Split(outputText, ',');
    if outputText == NothingSelected {
      SentinelIsNaN();
    } else {
      TrimEmptyIffWhitespace(outputText);
      BlankIsNaN(outputText);
    }
    InRangeIndicesAllNaN(TokenIndices(tokens), |articles|);
  }

  lemma {:induction false} SplitPartsWhitespace(s: string, sep: char, k: nat)
    requires AllWhitespace(s)
    requires k < |Split(s, sep)|
    ensures AllWhitespace(Split(s, sep)[k])
  {
    if s != [] {
      assert AllWhitespace(s[1..]);
      var rest := Split(s[1..], sep);
      if s[0] == sep {
        if k > 0 {
          SplitPartsWhitespace(s[1..], sep, k - 1);
        }
      } else if k == 0 {
        SplitPartsWhitespace(s[1..], sep, 0);
        assert Split(s, sep)[0] == [s[0]] + rest[0];
      } else {
        SplitPartsWhitespace(s[1..], sep, k);
      }
    }
  }

  /** The reply passes the early exit and is a single token reading as the
      0-based index `i`. */
  predicate NamesOnly(outputText: string, i: int) {
    !SaysNothing(outputText) && TokenIndices(Split(outputText, ',')) == [Some(i)]
  }

  /** A reply made of digits only is a single token naming that number,
      and does not take the early exit. */
  lemma DigitsReply(d: string)
    requires d != [] && AllDigits(d)
    ensures NamesOnly(d, DigitsValue(d) - 1)
  {
    assert ',' !in d by {
      forall j | 0 <= j < |d| ensures d[j] != ',' {
        assert IsDigit(d[j]);
      }
    }
    SplitWithout(d, ',');
    DigitIsNotBlank(d[0]);
    DigitIsNotBlank(d[|d| - 1]);
    TrimUnpadded(d);
    ParseIntOfDigits(d, []);
    assert d + [] == d;
    assert d != NothingSelected by {
      assert IsDigit(d[0]);
    }
  }

  lemma DecimalReply(k: nat)
    requires k >= 1
    ensures NamesOnly(DecimalString(k), k - 1)
  {
    DigitsReply(DecimalString(k));
    DigitsValueOfDecimal(k);
  }

  lemma PromptLineNumber(articles: seq<Article>, k: nat)
    requires 1 <= k <= |articles|
    ensures StartsWith(PromptLines(articles)[k - 1], DecimalString(k) + ". ")
  {
    var line := PromptLines(articles)[k - 1];
    assert line == DecimalString(k) + ". " + articles[k - 1].title;
  }

  lemma SingleIndexTokens(outputText: string, n: nat, i: nat)
    requires i < n
    requires NamesOnly(outputText, i)
    ensures SelectionIndices(outputText, n) == [i]
  {
    var ts := TokenIndices(Split(outputText, ','));
    InRangeIndicesSingle(ts, n, i);
  }

  lemma InRangeIndicesSingle(ts: seq<Option<int>>, n: nat, i: nat)
    requires i < n && ts == [Some(i)]
    ensures InRangeIndices(ts, n) == [i]
  {
    assert ts[1..] == [];
  }

  /** A reply whose only token names the in-range index `i` selects the
      article at `i` alone and leaves the other `n - 1` unselected. */
  lemma SingleIndexReply(outputText: string, articles: seq<Article>, i: nat)
    requires i < |articles|
    requires NamesOnly(outputText, i)
    ensures ParseSelection(outputText, articles).selectedArticles == [articles[i]]
    ensures |ParseSelection(outputText, articles).unselectedArticles| == |articles| - 1
  {
    SingleIndexTokens(outputText, |articles|, i);
    ParseSelectionShape(outputText, articles);
    OneIndexPartition(articles, i);
  }

  lemma OneIndexPartition(articles: seq<Article>, i: nat)
    requires i < |articles|
    ensures Project(articles, [i]) == [articles[i]]
    ensures |Unselected(articles, IndexSet([i]))| == |articles| - 1
  {
    PartitionOfIndices(articles, [i]);
    assert IndexSet([i]) == {i};
  }

  /** Replying with the number printed in front of line `k` of the prompt
      selects exactly the article on that line and leaves every other one
      unselected. */
  lemma ReplyNamesPromptLine(articles: seq<Article>, k: nat)
    requires 1 <= k <= |articles|
    ensures ParseSelection(DecimalString(k), articles).selectedArticles == [articles[k - 1]]
    ensures |ParseSelection(DecimalString(k), articles).unselectedArticles| == |articles| - 1
  {
    DecimalReply(k);
    SingleIndexReply(DecimalString(k), articles, k - 1);
  }

  // ---------------------------------------------------------------------
  // Concrete replies
  // ---------------------------------------------------------------------

  /** Past the early exit, the selected indices are the in-range ones among
      the parsed tokens. */
  lemma ReplyIndices(outputText: string, n: nat, ts: seq<Option<int>>)
    requires !SaysNothing(outputText) && TokenIndices(Split(outputText, ',')) == ts
    ensures SelectionIndices(outputText, n) == InRangeIndices(ts, n)
  {
  }

  lemma RepeatedAndOutOfRangeIndices()
    ensures InRangeIndices([Some(0), Some(2), Some(2), Some(98)], 3) == [0, 2, 2]
  {
  }

  lemma SelectedSecondOfThree(a: Article, b: Article, c: Article)
    ensures Unselected([a, b, c], IndexSet([0, 2, 2])) == [b]
    ensures Project([a, b, c], [0, 2, 2]) == [a, c, c]
  {
    var chosen := IndexSet([0, 2, 2]);
    assert chosen == {0, 2};
    assert [a, b, c][..2] == [a, b];
    assert [a, b][..1] == [a];
    assert [a][..0] == [];
    assert Unselected([a], chosen) == [];
    assert Unselected([a, b], chosen) == [b];
    assert Project([a, b, c], [0, 2, 2]) == [a, c, c];
  }

  /** Three articles and a reply whose tokens read as 1, 3, 3 and 99: the
      out-of-range number is dropped and the repeated number selects its
      article twice. */
  lemma RepeatedAndOutOfRangeTokens(outputText: string, a: Article, b: Article, c: Article)
    requires !SaysNothing(outputText)
    requires TokenIndices(Split(outputText, ',')) == [Some(0), Some(2), Some(2), Some(98)]
    ensures ParseSelection(outputText, [a, b, c]) == FilterResult([a, c, c], [b])
  {
    ReplyIndices(outputText, 3, [Some(0), Some(2), Some(2), Some(98)]);
    RepeatedAndOutOfRangeIndices();
    SelectedSecondOfThree(a, b, c);
    ParseSelectionShape(outputText, [a, b, c]);
  }

  /** A token of digits only names that number minus one. */
  lemma DigitsToken(d: string)
    requires d != [] && AllDigits(d)
    ensures TokenIndex(d) == Some(DigitsValue(d) - 1)
  {
    assert d + [] == d;
    ParseIntOfDigits(d, []);
    assert ParseInt(d) == Some(DigitsValue(d));
    DigitIsNotBlank(d[0]);
    DigitIsNotBlank(d[|d| - 1]);
    TrimUnpadded(d);
  }

  /** A comma-separated reply of three numbers, the second one repeated. */
  function ThreeNumberReply(x: string, y: string, z: string): string {
    x + [','] + (y + [','] + (y + [','] + z))
  }

  lemma ThreeNumberTokens(x: string, y: string, z: string)
    requires ',' !in x && ',' !in y && ',' !in z
    ensures Split(ThreeNumberReply(x, y, z), ',') == [x, y, y, z]
  {
    SplitWithout(z, ',');
    SplitAtFirst(y, ',', z);
    SplitAtFirst(y, ',', y + [','] + z);
    SplitAtFirst(x, ',', y + [','] + (y + [','] + z));
  }

  /** `TokenIndices` is read token by token. */
  lemma TokenIndicesPointwise(tokens: seq<string>, ts: seq<Option<int>>)
    requires |ts| == |tokens|
    requires forall k :: 0 <= k < |tokens| ==> TokenIndex(tokens[k]) == ts[k]
    ensures TokenIndices(tokens) == ts
  {
  }

  lemma TokenIndicesOfFour(x: string, y: string, z: string, vx: Option<int>, vy: Option<int>, vz: Option<int>)
    requires TokenIndex(x) == vx && TokenIndex(y) == vy && TokenIndex(z) == vz
    ensures TokenIndices([x, y, y, z]) == [vx, vy, vy, vz]
  {
    var tokens := [x, y, y, z];
    assert tokens[0] == x && tokens[1] == y && tokens[2] == y && tokens[3] == z;
    TokenIndicesPointwise(tokens, [vx, vy, vy, vz]);
  }

  /** Three articles and a reply of three numbers that read as 1, 3 and 99,
      the 3 repeated. */
  lemma ThreeNumberSelection(x: string, y: string, z: string, a: Article, b: Article, c: Article)
    requires ',' !in x && ',' !in y && ',' !in z
    requires !SaysNothing(ThreeNumberReply(x, y, z))
    requires TokenIndex(x) == Some(0) && TokenIndex(y) == Some(2) && TokenIndex(z) == Some(98)
    ensures ParseSelection(ThreeNumberReply(x, y, z), [a, b, c]) == FilterResult([a, c, c], [b])
  {
    ThreeNumberTokens(x, y, z);
    TokenIndicesOfFour(x, y, z, Some(0), Some(2), Some(98));
    RepeatedAndOutOfRangeTokens(ThreeNumberReply(x, y, z), a, b, c);
  }

  lemma OneDigitValue(c: char)
    requires IsDigit(c)
    ensures DigitsValue([c]) == c as int - '0' as int
  {
    assert [c][..0] == [];
  }

  lemma OneToken()
    ensures ',' !in "1" && TokenIndex("1") == Some(0)
  {
    OneDigitValue('1');
    DigitsToken("1");
  }

  lemma ThreeToken()
    ensures ',' !in "3" && TokenIndex("3") == Some(2)
  {
    OneDigitValue('3');
    DigitsToken("3");
  }

  lemma NinetyNineToken()
    ensures ',' !in "99" && TokenIndex("99") == Some(98)
  {
    OneDigitValue('9');
    assert "99"[..1] == "9";
    DigitsToken("99");
  }

  /** The reply "1,3,3,99" over three articles selects the first and the
      third, the third twice, drops 99, and leaves the second unselected. */
  lemma RepeatedAndOutOfRange(a: Article, b: Article, c: Article)
    ensures ParseSelection("1,3,3,99", [a, b, c]) == FilterResult([a, c, c], [b])
  {
    var reply := ThreeNumberReply("1", "3", "99");
    assert reply == "1,3,3,99";
    OneToken();
    ThreeToken();
    NinetyNineToken();
    DigitIsNotBlank(reply[0]);
    DigitIsNotBlank(reply[|reply| - 1]);
    TrimUnpadded(reply);
    ThreeNumberSelection("1", "3", "99", a, b, c);
  }
}
