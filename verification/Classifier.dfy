/** The rule classifier that may reroute a request to another model: a lazy loop over the
    rules, against "the first rule whose whole condition holds". Characters are runes; case
    folding maps rune by rune, and path.Match is a parameter. */
module Classifier {
  import opened Provider
  import Tokenizer

  datatype Condition = Condition(
    maxTokens: int, minTokens: int, keywordsAny: seq<string>, keywordsNone: seq<string>, model: string, weight: real)

  datatype Rule = Rule(name: string, routeTo: string, cond: Condition)

  datatype Request = Request(model: string, messages: seq<Tokenizer.Message>)

  datatype Decision = Decision(model: string, rule: string) {
    predicate Empty() {
      model == ""
    }
  }

  datatype GlobResult = Match | NoMatch | BadPattern

  /** What the classifier calls into: the glob matcher, the rune case folding, the codec. */
  datatype Env = Env(glob: (string, string) -> GlobResult, fold: char -> char, codec: Option<Tokenizer.Codec>)

  // ---- Construction ----

  datatype Defect = MissingName | MissingRouteTo | DuplicateName | WeightOutOfRange | BadGlob

  datatype Built = Ready(rules: seq<Rule>) | Rejected(index: nat, defect: Defect)

  predicate Sound(env: Env, r: Rule) {
    r.name != "" && r.routeTo != "" && 0.0 <= r.cond.weight <= 100.0
    && (r.cond.model != "" ==> env.glob(r.cond.model, "probe") != BadPattern)
  }

  predicate Fresh(rules: seq<Rule>, i: nat)
    requires i < |rules|
  {
    forall j :: 0 <= j < i ==> rules[j].name != rules[i].name
  }

  predicate Accepted(env: Env, rules: seq<Rule>) {
    forall i :: 0 <= i < |rules| ==> Sound(env, rules[i]) && Fresh(rules, i)
  }

  /** The defect reported for rule i: the first of the checks it fails. */
  predicate DefectAt(env: Env, rules: seq<Rule>, i: nat, d: Defect)
    requires i < |rules|
  {
    var r := rules[i];
    match d
    case MissingName => r.name == ""
    case MissingRouteTo => r.name != "" && r.routeTo == ""
    case DuplicateName => r.name != "" && r.routeTo != "" && !Fresh(rules, i)
    case WeightOutOfRange =>
      r.name != "" && r.routeTo != "" && Fresh(rules, i) && (r.cond.weight < 0.0 || r.cond.weight > 100.0)
    case BadGlob =>
      r.name != "" && r.routeTo != "" && Fresh(rules, i) && 0.0 <= r.cond.weight <= 100.0
      && r.cond.model != "" && env.glob(r.cond.model, "probe") == BadPattern
  }

  /** Accepts exactly the rule lists in which every rule is sound and names are unique, and
      otherwise names the first bad rule and its first defect. */
  method NewRuleClassifier(env: Env, rules: seq<Rule>) returns (c: Built)
    ensures c.Ready? <==> Accepted(env, rules)
    ensures c.Ready? ==> c.rules == rules
    ensures c.Rejected? ==> c.index < |rules| && Accepted(env, rules[..c.index]) && DefectAt(env, rules, c.index, c.defect)
  {
    var seen: set<string> := {};
    var i := 0;
    while i < |rules|
      invariant 0 <= i <= |rules|
      invariant forall n :: n in seen <==> exists j :: 0 <= j < i && rules[j].name == n
      invariant forall j :: 0 <= j < i ==> Sound(env, rules[j]) && Fresh(rules, j)
    {
      var r := rules[i];
      assert forall j :: 0 <= j < i ==> Fresh(rules[..i], j);
      if r.name == "" {
        return Rejected(i, MissingName);
      }
      if r.routeTo == "" {
        return Rejected(i, MissingRouteTo);
      }
      if r.name in seen {
        assert !Fresh(rules, i);
        return Rejected(i, DuplicateName);
      }
      assert Fresh(rules, i);
      seen := seen + {r.name};
      if r.cond.weight < 0.0 || r.cond.weight > 100.0 {
        return Rejected(i, WeightOutOfRange);
      }
      if r.cond.model != "" && env.glob(r.cond.model, "probe") == BadPattern {
        return Rejected(i, BadGlob);
      }
      i := i + 1;
    }
    c := Ready(rules);
  }

  // ---- The parts of a condition ----

  function Lower(env: Env, s: string): string {
    seq(|s|, i requires 0 <= i < |s| => env.fold(s[i]))
  }

  predicate OccursAt(hay: string, needle: string, i: nat) {
    i + |needle| <= |hay| && hay[i..i + |needle|] == needle
  }

  predicate Contains(hay: string, needle: string) {
    exists i :: 0 <= i <= |hay| && OccursAt(hay, needle, i)
  }

  /** Some nonempty keyword occurs; hay is already lowered. */
  predicate AnyKeyword(env: Env, hay: string, keywords: seq<string>) {
    exists k :: 0 <= k < |keywords| && keywords[k] != "" && Contains(hay, Lower(env, keywords[k]))
  }

  method AnyKeywordPresent(env: Env, hay: string, keywords: seq<string>) returns (found: bool)
    ensures found <==> AnyKeyword(env, hay, keywords)
  {
    var i := 0;
    while i < |keywords|
      invariant 0 <= i <= |keywords|
      invariant forall k :: 0 <= k < i ==> keywords[k] == "" || !Contains(hay, Lower(env, keywords[k]))
    {
      if keywords[i] != "" && Contains(hay, Lower(env, keywords[i])) {
        return true;
      }
      i := i + 1;
    }
    found := false;
  }

  function Join(msgs: seq<Tokenizer.Message>): string {
    if msgs == [] then ""
    else
      var before, m := Join(msgs[..|msgs| - 1]), msgs[|msgs| - 1];
      if m.role != "user" then before
      else (if before == "" then "" else before + " ") + m.content
  }

  method JoinUserContent(msgs: seq<Tokenizer.Message>) returns (b: string)
    ensures b == Join(msgs)
  {
    b := "";
    var i := 0;
    while i < |msgs|
      invariant 0 <= i <= |msgs|
      invariant b == Join(msgs[..i])
    {
      assert msgs[..i + 1][..i] == msgs[..i];
      if msgs[i].role == "user" {
        if |b| > 0 {
          b := b + " ";
        }
        b := b + msgs[i].content;
      }
      i := i + 1;
    }
    assert msgs[..i] == msgs;
  }

  function TokensOf(env: Env, req: Request): nat {
    match env.codec
    case None => 0
    case Some(enc) => Tokenizer.Count(Tokenizer.For(s => Lower(env, s), req.model), enc, req.messages)
  }

  method CountTokens(env: Env, req: Request) returns (n: nat)
    ensures n == TokensOf(env, req)
  {
    if env.codec.None? {
      return 0;
    }
    n := Tokenizer.CountMessages(Tokenizer.For(s => Lower(env, s), req.model), env.codec.value, req.messages);
  }

  predicate ModelOk(env: Env, req: Request, c: Condition) {
    c.model != "" ==> env.glob(c.model, req.model) == Match
  }

  predicate UsesTokens(c: Condition) {
    c.maxTokens > 0 || c.minTokens > 0
  }

  predicate TokensOk(env: Env, req: Request, c: Condition) {
    (c.maxTokens > 0 ==> TokensOf(env, req) <= c.maxTokens) && (c.minTokens > 0 ==> TokensOf(env, req) >= c.minTokens)
  }

  predicate UsesKeywords(c: Condition) {
    c.keywordsAny != [] || c.keywordsNone != []
  }

  predicate KeywordsOk(env: Env, req: Request, c: Condition) {
    var content := Lower(env, Join(req.messages));
    (c.keywordsAny != [] ==> AnyKeyword(env, content, c.keywordsAny))
    && (c.keywordsNone != [] ==> !AnyKeyword(env, content, c.keywordsNone))
  }

  /** Everything but the roll. */
  predicate Selects(env: Env, req: Request, c: Condition) {
    ModelOk(env, req, c) && TokensOk(env, req, c) && KeywordsOk(env, req, c)
  }

  // ---- The plain specification ----

  /** Numbers from the random source, in the order they are drawn. */
  type Draws = nat -> real

  /** How many of the first k rules are weighted and otherwise selected: each rolled once. */
  function Rolls(env: Env, req: Request, rules: seq<Rule>, k: nat): nat
    requires k <= |rules|
  {
    if k == 0 then 0
    else
      Rolls(env, req, rules, k - 1)
      + if rules[k - 1].cond.weight > 0.0 && Selects(env, req, rules[k - 1].cond) then 1 else 0
  }

  predicate WinsRoll(weight: real, draw: real) {
    draw * 100.0 < weight
  }

  /** The whole condition of rule i, its roll included. */
  predicate Holds(env: Env, req: Request, rules: seq<Rule>, draws: Draws, i: nat)
    requires i < |rules|
  {
    Selects(env, req, rules[i].cond)
    && (rules[i].cond.weight > 0.0 ==> WinsRoll(rules[i].cond.weight, draws(Rolls(env, req, rules, i))))
  }

  /** n rules were looked at: none before the last holds, and the last one does unless the
      list ran out. */
  predicate FirstHit(env: Env, req: Request, rules: seq<Rule>, draws: Draws, hit: bool, n: nat) {
    n <= |rules|
    && (if hit then n > 0 && Holds(env, req, rules, draws, n - 1) else n == |rules|)
    && forall j :: 0 <= j < (if hit then n - 1 else n) ==> !Holds(env, req, rules, draws, j)
  }

  predicate NeedsTokens(env: Env, req: Request, r: Rule) {
    ModelOk(env, req, r.cond) && UsesTokens(r.cond)
  }

  predicate NeedsContent(env: Env, req: Request, r: Rule) {
    ModelOk(env, req, r.cond) && TokensOk(env, req, r.cond) && UsesKeywords(r.cond)
  }

  /** Somewhere among the first n rules the token count was needed. */
  predicate TokensNeeded(env: Env, req: Request, rules: seq<Rule>, n: nat)
    requires n <= |rules|
  {
    exists j :: 0 <= j < n && NeedsTokens(env, req, rules[j])
  }

  predicate ContentNeeded(env: Env, req: Request, rules: seq<Rule>, n: nat)
    requires n <= |rules|
  {
    exists j :: 0 <= j < n && NeedsContent(env, req, rules[j])
  }

  // ---- The lazy walk ----

  /** The lazily filled locals, with how often each was computed. */
  datatype Memo = Memo(tokenCount: nat, counted: nat, userContent: string, joined: nat)

  predicate MemoOk(env: Env, req: Request, m: Memo) {
    m.counted <= 1 && m.joined <= 1
    && (m.counted == 1 ==> m.tokenCount == TokensOf(env, req))
    && (m.joined == 1 ==> m.userContent == Lower(env, Join(req.messages)))
  }

  method ExamineTokens(env: Env, req: Request, c: Condition, memo: Memo) returns (ok: bool, m: Memo)
    requires MemoOk(env, req, memo)
    ensures MemoOk(env, req, m) && m.joined == memo.joined && m.userContent == memo.userContent
    ensures ok <==> TokensOk(env, req, c)
    ensures m.counted == if UsesTokens(c) then 1 else memo.counted
  {
    hide Tokenizer.Count, Tokenizer.For, Join, Lower;
    m := memo;
    if c.maxTokens > 0 || c.minTokens > 0 {
      if m.counted == 0 {
        var n := CountTokens(env, req);
        m := m.(tokenCount := n, counted := m.counted + 1);
      }
      if c.maxTokens > 0 && m.tokenCount > c.maxTokens {
        return false, m;
      }
      if c.minTokens > 0 && m.tokenCount < c.minTokens {
        return false, m;
      }
    }
    ok := true;
  }

  method ExamineKeywords(env: Env, req: Request, c: Condition, memo: Memo) returns (ok: bool, m: Memo)
    requires MemoOk(env, req, memo)
    ensures MemoOk(env, req, m) && m.counted == memo.counted && m.tokenCount == memo.tokenCount
    ensures ok <==> KeywordsOk(env, req, c)
    ensures m.joined == if UsesKeywords(c) then 1 else memo.joined
  {
    hide TokensOf, Join, Lower, AnyKeyword;
    m := memo;
    if |c.keywordsAny| > 0 || |c.keywordsNone| > 0 {
      if m.joined == 0 {
        var text := JoinUserContent(req.messages);
        m := m.(userContent := Lower(env, text), joined := m.joined + 1);
      }
      if |c.keywordsAny| > 0 {
        var found := AnyKeywordPresent(env, m.userContent, c.keywordsAny);
        if !found {
          return false, m;
        }
      }
      if |c.keywordsNone| > 0 {
        var found := AnyKeywordPresent(env, m.userContent, c.keywordsNone);
        if found {
          return false, m;
        }
      }
    }
    ok := true;
  }

  /** The deterministic conditions of one rule, cheapest first. */
  method Examine(env: Env, req: Request, r: Rule, memo: Memo) returns (ok: bool, m: Memo)
    requires MemoOk(env, req, memo)
    ensures MemoOk(env, req, m)
    ensures ok <==> Selects(env, req, r.cond)
    ensures m.counted == if NeedsTokens(env, req, r) then 1 else memo.counted
    ensures m.joined == if NeedsContent(env, req, r) then 1 else memo.joined
  {
    hide MemoOk, TokensOk, KeywordsOk;
    m := memo;
    if r.cond.model != "" {
      var matched := env.glob(r.cond.model, req.model);
      if matched != Match {
        return false, m;
      }
    }
    ok, m := ExamineTokens(env, req, r.cond, m);
    if !ok {
      return;
    }
    ok, m := ExamineKeywords(env, req, r.cond, m);
  }

  /** What one call did: the decision, how many rules it looked at and whether the last of
      them fired, numbers drawn, token counts made, contents joined. */
  datatype Outcome = Outcome(decision: Decision, looked: nat, hit: bool, drawn: nat, counted: nat, joined: nat)

  const NO_DECISION := Decision("", "")

  /** The lazy walk decides for the first rule whose whole condition holds; it draws once per
      weighted, otherwise selected rule it looked at, and counts tokens and joins the content
      once, at the first rule that needs them, or never. */
  method Classify(env: Env, rules: seq<Rule>, request: Option<Request>, draws: Draws) returns (o: Outcome)
    ensures request.None? || rules == [] ==> o == Outcome(NO_DECISION, 0, false, 0, 0, 0)
    ensures request.Some? ==>
              var req := request.value;
              FirstHit(env, req, rules, draws, o.hit, o.looked)
              && o.decision == (if o.hit then Decision(rules[o.looked - 1].routeTo, rules[o.looked - 1].name) else NO_DECISION)
              && o.drawn == Rolls(env, req, rules, o.looked)
              && o.counted == (if TokensNeeded(env, req, rules, o.looked) then 1 else 0)
              && o.joined == (if ContentNeeded(env, req, rules, o.looked) then 1 else 0)
  {
    hide MemoOk, Selects, NeedsTokens, NeedsContent, WinsRoll;
    if request.None? || |rules| == 0 {
      return Outcome(NO_DECISION, 0, false, 0, 0, 0);
    }
    var req := request.value;
    var memo := Memo(0, 0, "", 0);
    BlankMemo(env, req);
    var drawn := 0;
    var i := 0;
    while i < |rules|
      invariant 0 <= i <= |rules|
      invariant forall j :: 0 <= j < i ==> !Holds(env, req, rules, draws, j)
      invariant drawn == Rolls(env, req, rules, i)
      invariant MemoOk(env, req, memo)
      invariant memo.counted == if TokensNeeded(env, req, rules, i) then 1 else 0
      invariant memo.joined == if ContentNeeded(env, req, rules, i) then 1 else 0
    {
      var r := rules[i];
      var ok;
      ok, memo := Examine(env, req, r, memo);
      i := i + 1;
      if !ok {
        continue;
      }
      if r.cond.weight > 0.0 {
        drawn := drawn + 1;
        if !WinsRoll(r.cond.weight, draws(drawn - 1)) {
          continue;
        }
      }
      return Outcome(Decision(r.routeTo, r.name), i, true, drawn, memo.counted, memo.joined);
    }
    o := Outcome(NO_DECISION, i, false, drawn, memo.counted, memo.joined);
  }

  lemma BlankMemo(env: Env, req: Request)
    ensures MemoOk(env, req, Memo(0, 0, "", 0))
  {
  }

  // ---- What the specification promises ----

  /** For rules that passed construction, the decision is empty iff no rule matched. */
  method ClassifyBuilt(env: Env, rules: seq<Rule>, req: Request, draws: Draws) returns (d: Decision)
    requires Accepted(env, rules)
    ensures d.Empty() <==> forall j :: 0 <= j < |rules| ==> !Holds(env, req, rules, draws, j)
    ensures !d.Empty() ==> exists j :: 0 <= j < |rules| && rules[j].routeTo == d.model && rules[j].name == d.rule && Holds(env, req, rules, draws, j)
  {
    hide Holds;
    var o := Classify(env, rules, Some(req), draws);
    d := o.decision;
    assert o.hit ==> Sound(env, rules[o.looked - 1]);
  }

  /** Without a tokenizer every prompt counts 0 tokens: an upper bound always admits, a lower
      bound never does. */
  lemma WithoutTokenizer(env: Env, req: Request, c: Condition)
    requires env.codec.None?
    ensures TokensOk(env, req, c) <==> c.minTokens <= 0
  {
  }

  // ---- Keywords over a conversation ----

  lemma ContainsWithin(hay: string, a: string, b: string, needle: string)
    requires Contains(hay, needle)
    ensures Contains(a + hay + b, needle)
  {
    var i :| 0 <= i <= |hay| && OccursAt(hay, needle, i);
    assert (a + hay + b)[|a| + i..|a| + i + |needle|] == hay[i..i + |needle|];
    assert OccursAt(a + hay + b, needle, |a| + i);
  }

  lemma LowerAppend(env: Env, a: string, b: string)
    ensures Lower(env, a + b) == Lower(env, a) + Lower(env, b)
  {
  }

  /** What some user message contains, in any case, the joined content contains. */
  lemma {:induction false} JoinCovers(env: Env, msgs: seq<Tokenizer.Message>, k: nat, needle: string)
    requires k < |msgs| && msgs[k].role == "user" && Contains(Lower(env, msgs[k].content), needle)
    ensures Contains(Lower(env, Join(msgs)), needle)
  {
    hide Contains, Lower;
    var n := |msgs| - 1;
    var before, m := Join(msgs[..n]), msgs[n];
    var lead := if before == "" then "" else before + " ";
    if k < n {
      JoinCovers(env, msgs[..n], k, needle);
      if m.role == "user" {
        var rest := (if before == "" then "" else " ") + m.content;
        assert Join(msgs) == before + rest;
        LowerAppend(env, before, rest);
        ContainsWithin(Lower(env, before), "", Lower(env, rest), needle);
        assert "" + Lower(env, before) + Lower(env, rest) == Lower(env, before) + Lower(env, rest);
      }
    } else {
      LowerAppend(env, lead, m.content);
      ContainsWithin(Lower(env, m.content), Lower(env, lead), "", needle);
      assert Lower(env, lead) + Lower(env, m.content) + "" == Lower(env, lead) + Lower(env, m.content);
    }
  }

  /** A keyword in one user turn keeps a rule that forbids it from matching, whatever the
      other turns say, and satisfies the list of a rule that asks for it. */
  lemma KeywordInAnyTurn(env: Env, req: Request, c: Condition, k: nat, kw: string)
    requires k < |req.messages| && req.messages[k].role == "user" && kw != ""
    requires Contains(Lower(env, req.messages[k].content), Lower(env, kw))
    ensures kw in c.keywordsNone ==> !KeywordsOk(env, req, c)
    ensures kw in c.keywordsAny && c.keywordsNone == [] ==> KeywordsOk(env, req, c)
  {
    hide Join, Contains, Lower;
    JoinCovers(env, req.messages, k, Lower(env, kw));
  }

  function UserTurns(msgs: seq<Tokenizer.Message>): seq<Tokenizer.Message> {
    if msgs == [] then []
    else UserTurns(msgs[..|msgs| - 1]) + if msgs[|msgs| - 1].role == "user" then [msgs[|msgs| - 1]] else []
  }

  /** System, assistant and tool turns cannot influence the keyword checks. */
  lemma {:induction false} OnlyUserTurnsCount(msgs: seq<Tokenizer.Message>)
    ensures Join(msgs) == Join(UserTurns(msgs))
  {
    if msgs == [] {
    } else {
      var n := |msgs| - 1;
      OnlyUserTurnsCount(msgs[..n]);
      if msgs[n].role != "user" {
        assert UserTurns(msgs) == UserTurns(msgs[..n]);
      } else {
        assert UserTurns(msgs)[..|UserTurns(msgs)| - 1] == UserTurns(msgs[..n]);
      }
    }
  }

  // ---- The canary share ----

  /** How many of the draws 0/grid, 1/grid, ..., (k-1)/grid win a roll of this weight. */
  function Winners(weight: real, grid: nat, k: nat): nat
    requires grid > 0
  {
    if k == 0 then 0
    else Winners(weight, grid, k - 1) + if WinsRoll(weight, (k - 1) as real / grid as real) then 1 else 0
  }

  lemma WinsByIndex(weight: real, grid: nat, j: nat)
    requires grid > 0
    ensures WinsRoll(weight, j as real / grid as real) <==> (j as real) * 100.0 < weight * grid as real
  {
    var g, x := grid as real, j as real / grid as real;
    assert x * g == j as real;
    if x * 100.0 < weight {
      assert (weight - x * 100.0) * g > 0.0;
      assert (weight - x * 100.0) * g == weight * g - (x * g) * 100.0;
    } else {
      assert (x * 100.0 - weight) * g >= 0.0;
      assert (x * 100.0 - weight) * g == (x * g) * 100.0 - weight * g;
    }
  }

  /** Over a uniform grid of draws, such as the 2^53 values of the random source, a rule of
      weight w wins for w percent of them, rounded up to one draw: below w percent plus one
      draw, never less than w percent. */
  lemma {:induction false} CanaryShare(weight: real, grid: nat, k: nat)
    requires grid > 0 && 0.0 <= weight <= 100.0 && k <= grid
    ensures var share := weight * grid as real / 100.0;
            var w := Winners(weight, grid, k) as real;
            if k as real <= share then w == k as real else share <= w < share + 1.0
  {
    hide WinsRoll;
    if k > 0 {
      CanaryShare(weight, grid, k - 1);
      WinsByIndex(weight, grid, k - 1);
    } else {
      assert weight * grid as real >= 0.0;
    }
  }

  /** A rule with token bounds alone fires exactly for prompts within them, both ends included,
      counted by the model's own tokenizer family. */
  lemma TokenRuleExact(env: Env, req: Request, r: Rule, draws: Draws, enc: Tokenizer.Codec)
    requires env.codec == Some(enc)
    requires r.cond == Condition(r.cond.maxTokens, r.cond.minTokens, [], [], "", 0.0)
    ensures var family := if "claude" <= Lower(env, req.model) then Tokenizer.AnthropicApprox else Tokenizer.OpenAiBpe;
            var n := Tokenizer.Count(family, enc, req.messages);
            Holds(env, req, [r], draws, 0) <==>
            (r.cond.maxTokens <= 0 || n <= r.cond.maxTokens) && (r.cond.minTokens <= 0 || r.cond.minTokens <= n)
  {
    hide Tokenizer.Count, Lower;
  }

  /** A rule with a model pattern alone fires exactly for the models the pattern matches; a
      malformed pattern matches nothing. */
  lemma ModelRuleExact(env: Env, req: Request, r: Rule, draws: Draws)
    requires r.cond.model != "" && r.cond == Condition(0, 0, [], [], r.cond.model, 0.0)
    ensures Holds(env, req, [r], draws, 0) <==> env.glob(r.cond.model, req.model) == Match
  {
  }

  /** A rule with keyword lists alone fires exactly if some word of its any-list, where it has one,
      occurs in what the user said, and no word of its none-list does; empty words do not count. */
  lemma KeywordRuleExact(env: Env, req: Request, r: Rule, draws: Draws)
    requires r.cond == Condition(0, 0, r.cond.keywordsAny, r.cond.keywordsNone, "", 0.0)
    ensures var said := Lower(env, Join(req.messages));
            Holds(env, req, [r], draws, 0) <==>
            && (|| r.cond.keywordsAny == []
                || exists w :: w in r.cond.keywordsAny && w != "" && Contains(said, Lower(env, w)))
            && (forall w :: w in r.cond.keywordsNone && w != "" ==> !Contains(said, Lower(env, w)))
  {
    hide Contains, Lower, Join;
  }

  /** Two user turns are joined by one blank, unless the first is empty. */
  lemma JoinOfTwo(a: Tokenizer.Message, b: Tokenizer.Message)
    requires a.role == "user" && b.role == "user"
    ensures Join([a, b]) == if a.content == "" then b.content else a.content + " " + b.content
  {
    assert [a, b][..1] == [a] && [a][..0] == [];
    assert Join([a]) == "" + a.content == a.content;
    assert "" + b.content == b.content;
  }

  /** A number is drawn for a rule exactly when it is weighted and its model, token and keyword
      conditions hold: a rule that fails one of them costs no draw. */
  lemma RollsExact(env: Env, req: Request, rules: seq<Rule>, k: nat)
    requires k < |rules|
    ensures var c := rules[k].cond;
            Rolls(env, req, rules, k + 1) == Rolls(env, req, rules, k)
            + if c.weight > 0.0 && ModelOk(env, req, c) && TokensOk(env, req, c) && KeywordsOk(env, req, c) then 1 else 0
  {
    hide ModelOk, TokensOk, KeywordsOk;
  }

  /** What construction accepts, written out. */
  lemma AcceptedExact(env: Env, rules: seq<Rule>)
    ensures Accepted(env, rules) <==>
            && (forall i :: 0 <= i < |rules| ==>
                  var r := rules[i];
                  && r.name != "" && r.routeTo != "" && 0.0 <= r.cond.weight <= 100.0
                  && (r.cond.model == "" || env.glob(r.cond.model, "probe") != BadPattern))
            && (forall i, j :: 0 <= i < j < |rules| ==> rules[i].name != rules[j].name)
  {
    if Accepted(env, rules) {
      forall i, j | 0 <= i < j < |rules|
        ensures rules[i].name != rules[j].name
      {
        assert Fresh(rules, j);
      }
    }
  }
}
