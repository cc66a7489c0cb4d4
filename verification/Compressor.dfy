/** System-preserving truncation of a prompt to a token budget. */
module Compressor {
  import opened Tokenizer

  /** The options; non-positive or out-of-range ones fall back to the defaults. */
  datatype Options = Options(defaultWindow: int, windows: map<string, int>, triggerRatio: real, minKeep: int)

  predicate Valid(o: Options) {
    o.defaultWindow > 0 && 0.0 < o.triggerRatio <= 1.0 && o.minKeep > 0
  }

  function NewSlidingWindow(o: Options): (c: Options)
    ensures Valid(c) && c.windows == o.windows
    ensures c.defaultWindow == o.defaultWindow || (o.defaultWindow <= 0 && c.defaultWindow == 128_000)
    ensures c.triggerRatio == o.triggerRatio || (!(0.0 < o.triggerRatio <= 1.0) && c.triggerRatio == 0.8)
    ensures c.minKeep == o.minKeep || (o.minKeep <= 0 && c.minKeep == 2)
  {
    Options(
      if o.defaultWindow <= 0 then 128_000 else o.defaultWindow,
      o.windows,
      if o.triggerRatio <= 0.0 || o.triggerRatio > 1.0 then 0.8 else o.triggerRatio,
      if o.minKeep <= 0 then 2 else o.minKeep)
  }

  function WindowFor(c: Options, model: string): int {
    if model in c.windows && c.windows[model] > 0 then c.windows[model] else c.defaultWindow
  }

  function Budget(c: Options, model: string): int {
    (WindowFor(c, model) as real * c.triggerRatio).Floor
  }

  // ---- System messages and the rest ----

  function Systems(msgs: seq<Message>): seq<Message> {
    if msgs == [] then []
    else Systems(msgs[..|msgs| - 1]) + if msgs[|msgs| - 1].role == "system" then [msgs[|msgs| - 1]] else []
  }

  function Rest(msgs: seq<Message>): seq<Message> {
    if msgs == [] then []
    else Rest(msgs[..|msgs| - 1]) + if msgs[|msgs| - 1].role == "system" then [] else [msgs[|msgs| - 1]]
  }

  // ---- The longest admissible suffix ----

  /** What the walk compares against: the tokenizer, the system part's count, budget and floor. */
  datatype Limits = Limits(f: Family, enc: Codec, system: nat, budget: int, minKeep: int)

  /** The suffix's messages, counted one by one. */
  function Separately(f: Family, enc: Codec, msgs: seq<Message>): nat {
    if msgs == [] then 0 else Count(f, enc, [msgs[0]]) + Separately(f, enc, msgs[1..])
  }

  /** A suffix may be kept if the floor protects it or it fits the budget. */
  predicate Admissible(l: Limits, rest: seq<Message>, i: nat)
    requires i <= |rest|
  {
    |rest| - i <= l.minKeep || l.system + Separately(l.f, l.enc, rest[i..]) <= l.budget
  }

  /** Where the kept tail begins, walking down from i. */
  function KeepFrom(l: Limits, rest: seq<Message>, i: nat): (k: nat)
    requires i <= |rest|
    ensures k <= i
  {
    if i == 0 then 0
    else if Admissible(l, rest, i - 1) then KeepFrom(l, rest, i - 1)
    else i
  }

  function LimitsOf(c: Options, f: Family, enc: Codec, model: string, msgs: seq<Message>): Limits {
    Limits(f, enc, Count(f, enc, Systems(msgs)), Budget(c, model), c.minKeep)
  }

  function KeepStart(c: Options, f: Family, enc: Codec, model: string, msgs: seq<Message>): (k: nat)
    ensures k <= |Rest(msgs)|
  {
    KeepFrom(LimitsOf(c, f, enc, model, msgs), Rest(msgs), |Rest(msgs)|)
  }

  /** The messages after Compress. */
  function Compressed(c: Options, f: Family, enc: Codec, model: string, msgs: seq<Message>): seq<Message> {
    var k := KeepStart(c, f, enc, model, msgs);
    if Count(f, enc, msgs) <= Budget(c, model) || k == 0 then msgs
    else Systems(msgs) + Rest(msgs)[k..]
  }

  datatype Result = Result(compressed: bool, tokensBefore: int, tokensAfter: int, removed: int)

  class ChatRequest {
    const model: string
    var messages: seq<Message>

    constructor (model: string, messages: seq<Message>)
      ensures this.model == model && this.messages == messages
    {
      this.model, this.messages := model, messages;
    }
  }

  method Partition(msgs: seq<Message>) returns (systems: seq<Message>, rest: seq<Message>)
    ensures systems == Systems(msgs) && rest == Rest(msgs)
  {
    systems, rest := [], [];
    var i := 0;
    while i < |msgs|
      invariant 0 <= i <= |msgs|
      invariant systems == Systems(msgs[..i]) && rest == Rest(msgs[..i])
    {
      assert msgs[..i + 1][..i] == msgs[..i];
      if msgs[i].role == "system" {
        systems := systems + [msgs[i]];
      } else {
        rest := rest + [msgs[i]];
      }
      i := i + 1;
    }
    assert msgs[..i] == msgs;
  }

  /** The backward walk: keep one more message while it fits or the floor wants it. */
  method WalkBack(l: Limits, rest: seq<Message>) returns (keepStart: nat)
    ensures keepStart == KeepFrom(l, rest, |rest|)
  {
    keepStart := |rest|;
    var keepTokens := 0;
    assert rest[|rest|..] == [];
    while keepStart > 0
      invariant keepStart <= |rest|
      invariant keepTokens == Separately(l.f, l.enc, rest[keepStart..])
      invariant KeepFrom(l, rest, |rest|) == KeepFrom(l, rest, keepStart)
    {
      var i := keepStart - 1;
      assert rest[i..][1..] == rest[keepStart..];
      assert rest[i..][0] == rest[i];
      var msgTokens := CountMessages(l.f, l.enc, [rest[i]]);
      var fits := l.system + keepTokens + msgTokens <= l.budget;
      var mustKeep := |rest| - i <= l.minKeep;
      if !fits && !mustKeep {
        break;
      }
      keepStart := i;
      keepTokens := keepTokens + msgTokens;
    }
  }

  method Compress(c: Options, lower: string -> string, enc: Codec, req: ChatRequest) returns (r: Result)
    modifies req
    ensures var f := For(lower, req.model);
            && req.messages == Compressed(c, f, enc, req.model, old(req.messages))
            && r.tokensBefore == Count(f, enc, old(req.messages))
            && r.tokensAfter == Count(f, enc, req.messages)
            && r.removed == |old(req.messages)| - |req.messages|
            && r.compressed == (r.removed > 0)
  {
    hide Count, Budget, KeepFrom;
    var f, msgs := For(lower, req.model), req.messages;
    SplitSize(msgs);
    if |msgs| == 0 {
      NothingToCount(f, enc);
      return Result(false, 0, 0, 0);
    }
    var tokensBefore := CountMessages(f, enc, msgs);
    var budget := Budget(c, req.model);
    if tokensBefore <= budget {
      return Result(false, tokensBefore, tokensBefore, 0);
    }
    var systems, rest := Partition(msgs);
    var systemTokens := 0;
    if |systems| > 0 {
      systemTokens := CountMessages(f, enc, systems);
    } else {
      NothingToCount(f, enc);
    }
    var keepStart := WalkBack(Limits(f, enc, systemTokens, budget, c.minKeep), rest);
    if keepStart == 0 {
      return Result(false, tokensBefore, tokensBefore, 0);
    }
    req.messages := systems + rest[keepStart..];
    var tokensAfter := CountMessages(f, enc, req.messages);
    return Result(true, tokensBefore, tokensAfter, keepStart);
  }

  lemma NothingToCount(f: Family, enc: Codec)
    ensures Count(f, enc, []) == 0
  {
  }

  lemma {:induction false} SplitSize(msgs: seq<Message>)
    ensures |Systems(msgs)| + |Rest(msgs)| == |msgs|
  {
    if msgs == [] {
    } else {
      SplitSize(msgs[..|msgs| - 1]);
    }
  }

  // ---- What compression guarantees ----

  /** Dropping less never makes an inadmissible suffix admissible. */
  lemma AdmissibleShrinks(l: Limits, rest: seq<Message>, i: nat)
    requires i < |rest| && Admissible(l, rest, i)
    ensures Admissible(l, rest, i + 1)
  {
    assert rest[i..][1..] == rest[i + 1..];
  }

  lemma {:induction false} InadmissibleBelow(l: Limits, rest: seq<Message>, i: nat, j: nat)
    requires j <= i <= |rest| && !Admissible(l, rest, i)
    ensures !Admissible(l, rest, j)
    decreases i - j
  {
    hide Admissible;
    if j == i {
    } else {
      InadmissibleBelow(l, rest, i, j + 1);
      if Admissible(l, rest, j) {
        AdmissibleShrinks(l, rest, j);
      }
    }
  }

  lemma {:induction false} KeepFromLongest(l: Limits, rest: seq<Message>, i: nat)
    requires i <= |rest| && forall j :: i <= j <= |rest| ==> Admissible(l, rest, j)
    ensures var k := KeepFrom(l, rest, i);
            forall j: nat :: j <= |rest| ==> (Admissible(l, rest, j) <==> j >= k)
  {
    hide Admissible;
    if i > 0 {
      if Admissible(l, rest, i - 1) {
        KeepFromLongest(l, rest, i - 1);
      } else {
        forall j: nat | j < i
          ensures !Admissible(l, rest, j)
        {
          InadmissibleBelow(l, rest, i - 1, j);
        }
      }
    }
  }

  /** The kept tail is the longest suffix that fits or that the floor protects. */
  lemma LongestAdmissible(c: Options, f: Family, enc: Codec, model: string, msgs: seq<Message>, j: nat)
    requires Valid(c) && j <= |Rest(msgs)|
    ensures Admissible(LimitsOf(c, f, enc, model, msgs), Rest(msgs), j) <==> j >= KeepStart(c, f, enc, model, msgs)
  {
    KeepFromLongest(LimitsOf(c, f, enc, model, msgs), Rest(msgs), |Rest(msgs)|);
  }

  /** The budget test overestimates: the recounted prompt never exceeds what the walk added up. */
  lemma {:induction false} PiecesCoverWhole(f: Family, enc: Codec, head: seq<Message>, tail: seq<Message>)
    ensures Count(f, enc, head + tail) <= Count(f, enc, head) + Separately(f, enc, tail)
    decreases |tail|
  {
    hide Count;
    if tail == [] {
      assert head + tail == head;
    } else {
      CountSubadditive(f, enc, head, [tail[0]]);
      PiecesCoverWhole(f, enc, head + [tail[0]], tail[1..]);
      assert head + [tail[0]] + tail[1..] == head + tail;
    }
  }

  lemma {:induction false} SplitWeights(enc: Codec, msgs: seq<Message>)
    ensures Weights(enc, Systems(msgs)) + Weights(enc, Rest(msgs)) == Weights(enc, msgs)
  {
    if msgs == [] {
    } else {
      var init, last := msgs[..|msgs| - 1], msgs[|msgs| - 1];
      SplitWeights(enc, init);
      WeightsAppend(enc, Systems(init), [last]);
      WeightsAppend(enc, Rest(init), [last]);
      SingleWeight(enc, last);
      assert Systems(init) + [] == Systems(init) && Rest(init) + [] == Rest(init);
    }
  }

  lemma SingleWeight(enc: Codec, m: Message)
    ensures Weights(enc, [m]) == Weight(enc, m)
  {
    assert [m][..0] == [];
  }

  /** Moving the system messages to the front does not change the count. */
  lemma SplitCount(f: Family, enc: Codec, msgs: seq<Message>)
    ensures Count(f, enc, Systems(msgs) + Rest(msgs)) == Count(f, enc, msgs)
  {
    SplitWeights(enc, msgs);
    WeightsAppend(enc, Systems(msgs), Rest(msgs));
    SplitSize(msgs);
  }

  /** Over budget, the walk drops something if and only if there is more than the floor. */
  lemma WalkDrops(c: Options, f: Family, enc: Codec, model: string, msgs: seq<Message>)
    requires Valid(c) && Count(f, enc, msgs) > Budget(c, model)
    ensures KeepStart(c, f, enc, model, msgs) > 0 <==> |Rest(msgs)| > c.minKeep
  {
    hide Count, Budget, KeepFrom;
    var rest := Rest(msgs);
    LongestAdmissible(c, f, enc, model, msgs, 0);
    PiecesCoverWhole(f, enc, Systems(msgs), rest);
    SplitCount(f, enc, msgs);
    assert rest[0..] == rest;
  }

  /** Compression happens exactly when the prompt is over budget and has more non-system
      messages than the floor protects. */
  lemma ChangesOverBudget(c: Options, f: Family, enc: Codec, model: string, msgs: seq<Message>)
    requires Valid(c)
    ensures Compressed(c, f, enc, model, msgs) != msgs <==>
            Count(f, enc, msgs) > Budget(c, model) && |Rest(msgs)| > c.minKeep
  {
    hide Count, Budget, KeepFrom;
    if Count(f, enc, msgs) > Budget(c, model) {
      WalkDrops(c, f, enc, model, msgs);
      SplitSize(msgs);
    }
  }

  /** After compression the recounted prompt fits the budget, or exactly the floor is left. */
  lemma BudgetOrFloorInTokens(c: Options, f: Family, enc: Codec, model: string, msgs: seq<Message>)
    requires Valid(c) && Count(f, enc, msgs) > Budget(c, model) && |Rest(msgs)| > c.minKeep
    ensures var k := KeepStart(c, f, enc, model, msgs);
            && 0 < k && |Rest(msgs)| - k >= c.minKeep
            && Compressed(c, f, enc, model, msgs) == Systems(msgs) + Rest(msgs)[k..]
            && (|| Count(f, enc, Compressed(c, f, enc, model, msgs)) <= Budget(c, model)
                || |Rest(msgs)| - k == c.minKeep)
  {
    hide Count, Budget, KeepFrom;
    var k, rest := KeepStart(c, f, enc, model, msgs), Rest(msgs);
    WalkDrops(c, f, enc, model, msgs);
    LongestAdmissible(c, f, enc, model, msgs, k);
    LongestAdmissible(c, f, enc, model, msgs, |rest| - c.minKeep);
    PiecesCoverWhole(f, enc, Systems(msgs), rest[k..]);
  }

  /** Every compression strictly lowers the count. */
  lemma ShrinksOverBudget(c: Options, f: Family, enc: Codec, model: string, msgs: seq<Message>)
    requires Valid(c) && Count(f, enc, msgs) > Budget(c, model) && |Rest(msgs)| > c.minKeep
    ensures Count(f, enc, Compressed(c, f, enc, model, msgs)) < Count(f, enc, msgs)
  {
    hide Count, Budget, KeepFrom;
    BudgetOrFloorInTokens(c, f, enc, model, msgs);
    var k, systems, rest := KeepStart(c, f, enc, model, msgs), Systems(msgs), Rest(msgs);
    SplitWeights(enc, msgs);
    SplitSize(msgs);
    assert rest[..k] + rest[k..] == rest;
    WeightsAppend(enc, rest[..k], rest[k..]);
    WeightsAppend(enc, systems, rest[k..]);
    WeightsBound(enc, rest[..k]);
    CountStrict(f, enc, systems + rest[k..], msgs);
  }

  lemma {:induction false} SplitAppend(a: seq<Message>, b: seq<Message>)
    ensures Systems(a + b) == Systems(a) + Systems(b) && Rest(a + b) == Rest(a) + Rest(b)
  {
    if b == [] {
      assert a + b == a;
    } else {
      assert (a + b)[..|a + b| - 1] == a + b[..|b| - 1];
      SplitAppend(a, b[..|b| - 1]);
    }
  }

  lemma {:induction false} AllSystem(msgs: seq<Message>)
    requires forall i :: 0 <= i < |msgs| ==> msgs[i].role == "system"
    ensures Systems(msgs) == msgs && Rest(msgs) == []
  {
    if msgs == [] {
    } else {
      AllSystem(msgs[..|msgs| - 1]);
      assert msgs == msgs[..|msgs| - 1] + [msgs[|msgs| - 1]];
    }
  }

  lemma {:induction false} NoneSystem(msgs: seq<Message>)
    requires forall i :: 0 <= i < |msgs| ==> msgs[i].role != "system"
    ensures Systems(msgs) == [] && Rest(msgs) == msgs
  {
    if msgs == [] {
    } else {
      NoneSystem(msgs[..|msgs| - 1]);
      assert msgs == msgs[..|msgs| - 1] + [msgs[|msgs| - 1]];
    }
  }

  lemma {:induction false} SplitRoles(msgs: seq<Message>)
    ensures forall i :: 0 <= i < |Systems(msgs)| ==> Systems(msgs)[i].role == "system"
    ensures forall i :: 0 <= i < |Rest(msgs)| ==> Rest(msgs)[i].role != "system"
  {
    if msgs == [] {
    } else {
      SplitRoles(msgs[..|msgs| - 1]);
    }
  }

  /** Compressing a second time changes nothing. */
  lemma CompressTwice(c: Options, f: Family, enc: Codec, model: string, msgs: seq<Message>)
    requires Valid(c)
    ensures var once := Compressed(c, f, enc, model, msgs);
            Compressed(c, f, enc, model, once) == once
  {
    hide Count, Budget, KeepFrom, Systems, Rest;
    var once := Compressed(c, f, enc, model, msgs);
    ChangesOverBudget(c, f, enc, model, msgs);
    if Count(f, enc, msgs) > Budget(c, model) && |Rest(msgs)| > c.minKeep {
      BudgetOrFloorInTokens(c, f, enc, model, msgs);
      var k, systems, rest := KeepStart(c, f, enc, model, msgs), Systems(msgs), Rest(msgs);
      SplitRoles(msgs);
      AllSystem(systems);
      NoneSystem(rest[k..]);
      SplitAppend(systems, rest[k..]);
      ChangesOverBudget(c, f, enc, model, once);
    }
  }

  // ---- The guarantees, by the model's own window ----

  /** w is the model's configured window if there is a positive one, and the default otherwise. */
  predicate IsWindow(c: Options, model: string, w: int) {
    && (model in c.windows && c.windows[model] > 0 ==> w == c.windows[model])
    && (model !in c.windows || c.windows[model] <= 0 ==> w == c.defaultWindow)
  }

  /** So many tokens are within the trigger ratio of the window. */
  predicate Fits(c: Options, w: int, tokens: int) {
    tokens as real <= w as real * c.triggerRatio
  }

  /** The integer budget decides exactly what the real one decides. */
  lemma BudgetExact(c: Options, model: string, w: int, tokens: int)
    requires IsWindow(c, model, w)
    ensures tokens <= Budget(c, model) <==> Fits(c, w, tokens)
  {
    var x := w as real * c.triggerRatio;
    assert Budget(c, model) == x.Floor;
    assert tokens <= x.Floor <==> tokens as real <= x;
  }

  /** The messages change exactly when the prompt exceeds the ratio of its model's window and has
      more non-system messages than the floor protects. */
  lemma CompressesExactly(c: Options, f: Family, enc: Codec, model: string, msgs: seq<Message>, w: int)
    requires Valid(c) && IsWindow(c, model, w)
    ensures Compressed(c, f, enc, model, msgs) != msgs <==>
            !Fits(c, w, Count(f, enc, msgs)) && |Rest(msgs)| > c.minKeep
  {
    hide Budget, Compressed;
    ChangesOverBudget(c, f, enc, model, msgs);
    BudgetExact(c, model, w, Count(f, enc, msgs));
  }

  /** The kept tail is the longest suffix that the floor protects, or whose messages, counted one
      by one and added to the system part, are within the ratio: one message more would be over. */
  lemma LongestSuffix(c: Options, f: Family, enc: Codec, model: string, msgs: seq<Message>, w: int, j: nat)
    requires Valid(c) && IsWindow(c, model, w) && j <= |Rest(msgs)|
    ensures j >= KeepStart(c, f, enc, model, msgs) <==>
            || |Rest(msgs)| - j <= c.minKeep
            || Fits(c, w, Count(f, enc, Systems(msgs)) + Separately(f, enc, Rest(msgs)[j..]))
  {
    hide Budget, KeepStart, Count, Separately;
    LongestAdmissible(c, f, enc, model, msgs, j);
    BudgetExact(c, model, w, Count(f, enc, Systems(msgs)) + Separately(f, enc, Rest(msgs)[j..]));
  }

  /** After a compression all system messages and a proper suffix of the rest are left, in order;
      the recounted prompt is smaller, and is within the ratio of the window unless exactly the
      floor was kept. */
  lemma BudgetOrFloor(c: Options, f: Family, enc: Codec, model: string, msgs: seq<Message>, w: int)
    requires Valid(c) && IsWindow(c, model, w) && Compressed(c, f, enc, model, msgs) != msgs
    ensures var k, after := KeepStart(c, f, enc, model, msgs), Compressed(c, f, enc, model, msgs);
            && 0 < k && |Rest(msgs)| - k >= c.minKeep
            && after == Systems(msgs) + Rest(msgs)[k..]
            && Count(f, enc, after) < Count(f, enc, msgs)
            && (Fits(c, w, Count(f, enc, after)) || |Rest(msgs)| - k == c.minKeep)
  {
    hide Budget, KeepStart, Count;
    var after := Compressed(c, f, enc, model, msgs);
    ChangesOverBudget(c, f, enc, model, msgs);
    BudgetOrFloorInTokens(c, f, enc, model, msgs);
    ShrinksOverBudget(c, f, enc, model, msgs);
    BudgetExact(c, model, w, Count(f, enc, after));
  }
}
