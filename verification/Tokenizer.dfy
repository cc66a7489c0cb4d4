/** Prompt token counting. The BPE codec is an opaque nonnegative count; the 1.15 scale of
    the Anthropic approximation is exact decimal arithmetic. */
module Tokenizer {
  import opened Basics

  datatype Message = Message(role: string, content: string, name: string)

  datatype Family = OpenAiBpe | AnthropicApprox

  type Codec = string -> nat

  const PER_MESSAGE_OVERHEAD := 3
  const PRIMING_OVERHEAD := 3

  function CountText(enc: Codec, text: string): nat {
    if text == "" then 0 else enc(text)
  }

  function Weight(enc: Codec, m: Message): nat {
    PER_MESSAGE_OVERHEAD + CountText(enc, m.role) + CountText(enc, m.content) + CountText(enc, m.name)
  }

  function Weights(enc: Codec, msgs: seq<Message>): nat {
    if msgs == [] then 0 else Weights(enc, msgs[..|msgs| - 1]) + Weight(enc, msgs[|msgs| - 1])
  }

  /** Half-up rounding of 1.15 n. */
  function Scale(n: nat): (s: nat)
    ensures 115 * n - 50 < 100 * s <= 115 * n + 50
  {
    if n == 0 then 0 else (115 * n + 50) / 100
  }

  function Bpe(enc: Codec, msgs: seq<Message>): nat {
    if msgs == [] then 0 else PRIMING_OVERHEAD + Weights(enc, msgs)
  }

  function Count(f: Family, enc: Codec, msgs: seq<Message>): nat {
    if f.OpenAiBpe? then Bpe(enc, msgs) else Scale(Bpe(enc, msgs))
  }

  /** CountMessages of both families. */
  method CountMessages(f: Family, enc: Codec, msgs: seq<Message>) returns (total: nat)
    ensures total == Count(f, enc, msgs)
  {
    if |msgs| == 0 {
      return 0;
    }
    total := PRIMING_OVERHEAD;
    var i := 0;
    while i < |msgs|
      invariant 0 <= i <= |msgs|
      invariant total == PRIMING_OVERHEAD + Weights(enc, msgs[..i])
    {
      assert msgs[..i + 1][..i] == msgs[..i];
      var m := msgs[i];
      total := total + PER_MESSAGE_OVERHEAD;
      total := total + CountText(enc, m.role);
      total := total + CountText(enc, m.content);
      if m.name != "" {
        total := total + CountText(enc, m.name);
      }
      i := i + 1;
    }
    assert msgs[..i] == msgs;
    if f.AnthropicApprox? {
      total := Scale(total);
    }
  }

  /** The family that accounts for a model id; `lower` is the case folding. */
  function For(lower: string -> string, model: string): Family {
    if HasPrefix(lower(model), "claude") then AnthropicApprox else OpenAiBpe
  }

  lemma {:induction false} WeightsAppend(enc: Codec, a: seq<Message>, b: seq<Message>)
    ensures Weights(enc, a + b) == Weights(enc, a) + Weights(enc, b)
  {
    if b == [] {
      assert a + b == a;
    } else {
      assert (a + b)[..|a + b| - 1] == a + b[..|b| - 1];
      WeightsAppend(enc, a, b[..|b| - 1]);
    }
  }

  lemma {:induction false} WeightsBound(enc: Codec, msgs: seq<Message>)
    ensures Weights(enc, msgs) >= 3 * |msgs|
  {
    if msgs == [] {
    } else {
      WeightsBound(enc, msgs[..|msgs| - 1]);
    }
  }

  lemma ScaleSplit(a: nat, b: nat)
    ensures Scale(PRIMING_OVERHEAD + a + b) <= Scale(PRIMING_OVERHEAD + a) + Scale(PRIMING_OVERHEAD + b)
  {
  }

  /** Three more tokens survive the rounding. */
  lemma ScaleStrict(a: nat, b: nat)
    requires a + 3 <= b
    ensures Scale(a) < Scale(b)
  {
  }

  /** Counting pieces separately never comes out below counting the whole, in both families:
      each piece carries its own priming overhead, and that outweighs the rounding. */
  lemma CountSubadditive(f: Family, enc: Codec, a: seq<Message>, b: seq<Message>)
    ensures Count(f, enc, a + b) <= Count(f, enc, a) + Count(f, enc, b)
  {
    WeightsAppend(enc, a, b);
    if a == [] {
      assert a + b == b;
    } else if b == [] {
      assert a + b == a;
    } else {
      ScaleSplit(Weights(enc, a), Weights(enc, b));
    }
  }

  /** A prompt with more messages costs strictly more, in both families. */
  lemma CountStrict(f: Family, enc: Codec, a: seq<Message>, b: seq<Message>)
    requires Weights(enc, a) + 3 <= Weights(enc, b) && b != []
    ensures Count(f, enc, a) < Count(f, enc, b)
  {
    WeightsBound(enc, b);
    if a == [] {
      ScaleStrict(0, Bpe(enc, b));
    } else {
      ScaleStrict(Bpe(enc, a), Bpe(enc, b));
    }
  }

  /** What one message costs by itself, part by part; an empty part costs nothing. */
  lemma SingleCount(enc: Codec, m: Message)
    ensures Count(OpenAiBpe, enc, [m]) ==
            6 + (if m.role == "" then 0 else enc(m.role)) + (if m.content == "" then 0 else enc(m.content))
            + (if m.name == "" then 0 else enc(m.name))
    ensures Count(AnthropicApprox, enc, [m]) == Scale(Count(OpenAiBpe, enc, [m]))
  {
    assert [m][..0] == [] && Weights(enc, []) == 0;
    assert Weights(enc, [m]) == Weight(enc, m);
  }

  /** Two prompts joined share one priming overhead of three tokens; that is all that is saved. */
  lemma CountAdditive(enc: Codec, a: seq<Message>, b: seq<Message>)
    requires a != [] && b != []
    ensures Count(OpenAiBpe, enc, a + b) == Count(OpenAiBpe, enc, a) + Count(OpenAiBpe, enc, b) - 3
    ensures Count(AnthropicApprox, enc, a) == Scale(Count(OpenAiBpe, enc, a))
    ensures Count(OpenAiBpe, enc, []) == Count(AnthropicApprox, enc, []) == 0
  {
    WeightsAppend(enc, a, b);
  }
}
