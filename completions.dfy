/**
 * Response assembly of `_completions_auto`: encode the chat once, call the
 * model `n` times, decode each output into a choice, and count tokens.
 *
 * The tokenizer and the model are oracles. The chat template is a function
 * from the messages value to token ids, decoding a function from token ids
 * and the decode arguments to text, and the model a Generator object whose
 * answers may differ from call to call (sampling) and which logs every call.
 */
module Completions {
  import opened Wrappers
  import opened PyValues
  import opened Normaliser

  /** One call of `model.generate(input, **args)`. */
  datatype Call = Call(input: seq<int>, args: Mapping)

  /** The answer of the model to its k-th call (k counted from 0 over the model's life). */
  type Answer = (seq<int>, Mapping, nat) -> seq<int>

  /** The model: it answers each generation call and remembers the calls made. */
  class Generator {
    const answer: Answer
    var calls: seq<Call>

    constructor (answer: Answer)
      ensures this.answer == answer && calls == []
    {
      this.answer := answer;
      calls := [];
    }

    /** `model.generate(input, **args)[0]`: the first (only) output sequence of the batch. */
    method Generate(input: seq<int>, args: Mapping) returns (output: seq<int>)
      modifies this
      ensures calls == old(calls) + [Call(input, args)]
      ensures output == answer(input, args, |old(calls)|)
    {
      output := answer(input, args, |calls|);
      calls := calls + [Call(input, args)];
    }
  }

  /** A choice's content: decoded text, or the echo branch's prompt-plus-text. */
  datatype Content =
    | Text(text: string)
    | EchoedPrompt(prompt: seq<int>, text: string)

  datatype ChatMessage = ChatMessage(role: string, content: Content)
  datatype Choice = Choice(message: ChatMessage, index: nat)
  datatype Usage = Usage(promptTokens: nat, completionTokens: nat, totalTokens: nat)
  datatype Response = Response(choices: seq<Choice>, usage: Usage)

  /** The outputs of `count` successive calls with the same input and arguments, the first being call number `start`. */
  function Outputs(answer: Answer, input: seq<int>, args: Mapping, start: nat, count: nat): (outs: seq<seq<int>>)
    ensures |outs| == count
    ensures forall j :: 0 <= j < count ==> outs[j] == answer(input, args, start + j)
  {
    seq(count, j requires 0 <= j < count => answer(input, args, start + j))
  }

  /** Total length of a list of token sequences, summed in order. */
  function SumLengths(outs: seq<seq<int>>): nat {
    if outs == [] then 0 else SumLengths(outs[..|outs| - 1]) + |outs[|outs| - 1]|
  }

  /** The choice made from one generated output. */
  function MakeChoice(
    input: seq<int>, output: seq<int>, decode: (seq<int>, Mapping) -> string,
    decodeArgs: Mapping, echoed: bool, index: nat): Choice
  {
    var text := decode(output, decodeArgs);
    Choice(ChatMessage("assistant", if echoed then EchoedPrompt(input, text) else Text(text)), index)
  }

  /** The choices made from the outputs generated for the prompt at `index`, in call order. */
  function Choices(
    input: seq<int>, outs: seq<seq<int>>, decode: (seq<int>, Mapping) -> string,
    decodeArgs: Mapping, echoed: bool, index: nat): (choices: seq<Choice>)
    ensures |choices| == |outs|
    ensures forall j :: 0 <= j < |outs| ==> choices[j] == MakeChoice(input, outs[j], decode, decodeArgs, echoed, index)
  {
    seq(|outs|, j requires 0 <= j < |outs| => MakeChoice(input, outs[j], decode, decodeArgs, echoed, index))
  }

  /** The response for the one prompt and its generated outputs. */
  function BuildResponse(
    input: seq<int>, outs: seq<seq<int>>, decode: (seq<int>, Mapping) -> string,
    decodeArgs: Mapping, echoed: bool): Response
  {
    Response(Choices(input, outs, decode, decodeArgs, echoed, 0), Usage(|input|, SumLengths(outs), |input| + SumLengths(outs)))
  }

  /**
   * The result of `_completions_auto` when the model has already answered
   * `start` calls: KeyError without `messages`, TypeError when `n` is not an
   * integer, and otherwise the response built from the outputs of the calls.
   */
  function ExpectedResult(
    request: Mapping, chatTemplate: Value -> seq<int>, decode: (seq<int>, Mapping) -> string,
    answer: Answer, start: nat, generateConfig: Mapping, decodeConfig: Mapping, autoEcho: bool): Result<Response, Error>
  {
    var norm :- Normalise(request, generateConfig, decodeConfig);
    var input := chatTemplate(norm.messages);
    var stop :- RangeStop(norm.n);
    var outs := Outputs(answer, input, norm.generateArgs, start, RangeLength(stop));
    Success(BuildResponse(input, outs, decode, norm.decodeArgs, Truthy(norm.echo) && !autoEcho))
  }

  /** The generation calls `_completions_auto` makes. */
  function ExpectedCalls(request: Mapping, chatTemplate: Value -> seq<int>, generateConfig: Mapping): seq<Call>
  {
    match Normalise(request, generateConfig, map[])
    case Failure(_) => []
    case Success(norm) =>
      match RangeStop(norm.n)
      case Failure(_) => []
      case Success(stop) => seq(RangeLength(stop), _ => Call(chatTemplate(norm.messages), norm.generateArgs))
  }

  /** The number of generation calls that `generate_config` asks for, or the TypeError of `range`. */
  function SampleCount(generateConfig: Mapping): Result<nat, Error> {
    var stop :- RangeStop(Get(generateConfig, "n", IntV(1)));
    Success(RangeLength(stop))
  }

  /** The expected result unfolded for a request that succeeds. */
  lemma ExpectedResultOnSuccess(
    request: Mapping, chatTemplate: Value -> seq<int>, decode: (seq<int>, Mapping) -> string,
    answer: Answer, start: nat, generateConfig: Mapping, decodeConfig: Mapping, autoEcho: bool)
    requires "messages" in request && SampleCount(generateConfig).Success?
    ensures
      var input := chatTemplate(request["messages"]);
      var outs := Outputs(answer, input, GenerateArgs(generateConfig), start, SampleCount(generateConfig).value);
      var echoed := Truthy(Get(generateConfig, "echo", BoolV(false))) && !autoEcho;
      && ExpectedResult(request, chatTemplate, decode, answer, start, generateConfig, decodeConfig, autoEcho)
         == Success(BuildResponse(input, outs, decode, DecodeArgs(decodeConfig), echoed))
      && ExpectedCalls(request, chatTemplate, generateConfig)
         == seq(SampleCount(generateConfig).value, _ => Call(input, GenerateArgs(generateConfig)))
  {
  }

  /**
   * Lines 19-49 of `_completions_auto`: the argument dicts are built by
   * in-place updates of fresh copies, then `messages`, `echo` and `n` are read.
   */
  method NormaliseRequest(request: Mapping, generateConfig: Mapping, decodeConfig: Mapping)
    returns (r: Result<Normalised, Error>)
    ensures r == Normalise(request, generateConfig, decodeConfig)
  {
    var generateArgs: Mapping := map[];
    generateArgs := generateArgs + generateConfig;

    var decodeArgs: Mapping := map["skip_special_tokens" := BoolV(true)];
    decodeArgs := decodeArgs + decodeConfig;

    if ("top_p" in generateArgs || "top_k" in generateArgs || "temperature" in generateArgs)
       && "do_sample" !in generateArgs
    {
      generateArgs := generateArgs["do_sample" := BoolV(true)];
      if EqualsNumber(Get(generateArgs, "temperature", FloatV(1.0)), 0.0) {
        generateArgs := generateArgs - {"temperature"};
      } else if EqualsNumber(Get(generateArgs, "top_p", FloatV(1.0)), 1.0) {
        generateArgs := generateArgs - {"top_p"};
      }
      if "top_k" !in generateArgs {
        generateArgs := generateArgs["top_k" := IntV(0)];
      }
    }
    assert generateArgs == InferSampling(generateConfig);
    ghost var inferred := generateArgs;

    var messages :- GetMessages(request);
    var echo := Get(generateArgs, "echo", BoolV(false));
    var n := Get(generateArgs, "n", IntV(1));

    generateArgs := generateArgs - {"model"};
    generateArgs := generateArgs - {"prompt"};
    generateArgs := generateArgs - {"n"};

    generateArgs := generateArgs - {"best_of"};
    generateArgs := generateArgs - {"presence_penalty"};
    generateArgs := generateArgs - {"frequency_penalty"};
    generateArgs := generateArgs - {"logit_bias"};
    StripInSteps(inferred);

    r := Success(Normalised(generateArgs, decodeArgs, messages, echo, n));
  }

  /** The seven single-key removals of NormaliseRequest remove the unsupported keys. */
  lemma StripInSteps(args: Mapping)
    ensures args - {"model"} - {"prompt"} - {"n"} - {"best_of"} - {"presence_penalty"}
              - {"frequency_penalty"} - {"logit_bias"} == StripUnsupported(args)
  {
  }

  /**
   * Lines 51-80 of `_completions_auto`: encode the prompt once, then for each
   * prompt (always the one) call the model `n` times, counting and decoding.
   */
  method AssembleResponse(
    norm: Normalised, chatTemplate: Value -> seq<int>, decode: (seq<int>, Mapping) -> string,
    model: Generator, autoEcho: bool)
    returns (r: Result<Response, Error>)
    modifies model
    ensures RangeStop(norm.n).Failure? ==> r == Failure(TypeError(norm.n)) && model.calls == old(model.calls)
    ensures RangeStop(norm.n).Success? ==>
      var input := chatTemplate(norm.messages);
      var count := RangeLength(RangeStop(norm.n).value);
      var outs := Outputs(model.answer, input, norm.generateArgs, |old(model.calls)|, count);
      && r == Success(BuildResponse(input, outs, decode, norm.decodeArgs, Truthy(norm.echo) && !autoEcho))
      && model.calls == old(model.calls) + seq(count, _ => Call(input, norm.generateArgs))
  {
    var generateArgs, decodeArgs, echo, n := norm.generateArgs, norm.decodeArgs, norm.echo, norm.n;

    var inputs: seq<seq<int>> := [];
    var promptTokens := 0;
    var input := chatTemplate(norm.messages);
    inputs := inputs + [input];
    promptTokens := promptTokens + |input|;

    // what the loops produce when `range(0, n)` accepts `n`
    ghost var echoed := Truthy(echo) && !autoEcho;
    ghost var count := if RangeStop(n).Success? then RangeLength(RangeStop(n).value) else 0;
    ghost var outs := Outputs(model.answer, input, generateArgs, |model.calls|, count);
    ghost var calls := old(model.calls) + seq(count, _ => Call(input, generateArgs));

    var choices: seq<Choice> := [];
    var completionTokens := 0;
    for i := 0 to |inputs|
      invariant i == 0 ==> choices == [] && completionTokens == 0 && model.calls == old(model.calls)
      invariant i == 1 ==> RangeStop(n).Success?
      invariant i == 1 ==> choices == Choices(input, outs, decode, decodeArgs, echoed, 0)
      invariant i == 1 ==> completionTokens == SumLengths(outs)
      invariant i == 1 ==> model.calls == calls
    {
      var stop :- RangeStop(n);
      choices, completionTokens :=
        SamplePrompt(inputs[i], i, stop, generateArgs, decode, decodeArgs, echo, autoEcho, model, choices, completionTokens);
      assert [] + Choices(input, outs, decode, decodeArgs, echoed, 0) == Choices(input, outs, decode, decodeArgs, echoed, 0);
    }

    r := Success(Response(choices, Usage(promptTokens, completionTokens, promptTokens + completionTokens)));
  }

  /**
   * The inner loop, lines 62-71, for the prompt at `index`: `range(0, stop)`
   * generation calls, each output counted, decoded and appended as a choice.
   */
  method SamplePrompt(
    input: seq<int>, index: nat, stop: int, generateArgs: Mapping,
    decode: (seq<int>, Mapping) -> string, decodeArgs: Mapping, echo: Value, autoEcho: bool,
    model: Generator, choices0: seq<Choice>, completionTokens0: nat)
    returns (choices: seq<Choice>, completionTokens: nat)
    modifies model
    ensures
      var outs := Outputs(model.answer, input, generateArgs, |old(model.calls)|, RangeLength(stop));
      && choices == choices0 + Choices(input, outs, decode, decodeArgs, Truthy(echo) && !autoEcho, index)
      && completionTokens == completionTokens0 + SumLengths(outs)
      && model.calls == old(model.calls) + seq(RangeLength(stop), _ => Call(input, generateArgs))
  {
    ghost var echoed := Truthy(echo) && !autoEcho;
    ghost var outs := Outputs(model.answer, input, generateArgs, |model.calls|, RangeLength(stop));
    ghost var call := Call(input, generateArgs);
    choices, completionTokens := choices0, completionTokens0;
    var j := 0;
    while j < stop
      invariant 0 <= j <= RangeLength(stop)
      invariant model.calls == old(model.calls) + seq(j, _ => call)
      invariant choices == choices0 + Choices(input, outs[..j], decode, decodeArgs, echoed, index)
      invariant completionTokens == completionTokens0 + SumLengths(outs[..j])
    {
      assert |model.calls| == |old(model.calls)| + j;
      var output := model.Generate(input, generateArgs);
      assert output == outs[j];
      completionTokens := completionTokens + |output|;
      var text := decode(output, decodeArgs);
      var content := if Truthy(echo) && !autoEcho then EchoedPrompt(input, text) else Text(text);
      choices := choices + [Choice(ChatMessage("assistant", content), index)];
      SampleStep(input, outs, j, decode, decodeArgs, echoed, index, call);
      j := j + 1;
    }
    assert outs[..j] == outs;
  }

  /**
   * `_completions_auto(request, tokenizer, tokenizer_device, model,
   * generate_config, decode_config, auto_echo)`.
   */
  method CompletionsAuto(
    request: Mapping, chatTemplate: Value -> seq<int>, decode: (seq<int>, Mapping) -> string,
    model: Generator, generateConfig: Mapping, decodeConfig: Mapping, autoEcho: bool)
    returns (r: Result<Response, Error>)
    modifies model
    ensures r == ExpectedResult(request, chatTemplate, decode, model.answer, |old(model.calls)|,
                                generateConfig, decodeConfig, autoEcho)
    ensures model.calls == old(model.calls) + ExpectedCalls(request, chatTemplate, generateConfig)
  {
    var norm :- NormaliseRequest(request, generateConfig, decodeConfig);
    r := AssembleResponse(norm, chatTemplate, decode, model, autoEcho);
  }

  /** One pass of the inner loop extends the choices by one, the count by the output's length, and the log by one call. */
  lemma SampleStep(
    input: seq<int>, outs: seq<seq<int>>, j: nat, decode: (seq<int>, Mapping) -> string,
    decodeArgs: Mapping, echoed: bool, index: nat, call: Call)
    requires j < |outs|
    ensures
      var text := decode(outs[j], decodeArgs);
      Choices(input, outs[..j + 1], decode, decodeArgs, echoed, index)
      == Choices(input, outs[..j], decode, decodeArgs, echoed, index)
         + [Choice(ChatMessage("assistant", if echoed then EchoedPrompt(input, text) else Text(text)), index)]
    ensures SumLengths(outs[..j + 1]) == SumLengths(outs[..j]) + |outs[j]|
    ensures seq(j + 1, _ => call) == seq(j, _ => call) + [call]
  {
    assert outs[..j + 1][..j] == outs[..j];
  }

  /** Summing lengths distributes over concatenation. */
  lemma {:induction false} SumLengthsAppend(a: seq<seq<int>>, b: seq<seq<int>>)
    ensures SumLengths(a + b) == SumLengths(a) + SumLengths(b)
    decreases |b|
  {
    if b != [] {
      var front := b[..|b| - 1];
      assert (a + b)[..|a + b| - 1] == a + front;
      SumLengthsAppend(a, front);
    } else {
      assert a + b == a;
    }
  }

  /** Outputs that all have the same length add up to that length times their number. */
  lemma {:induction false} SumLengthsUniform(outs: seq<seq<int>>, len: nat)
    requires forall j :: 0 <= j < |outs| ==> |outs[j]| == len
    ensures SumLengths(outs) == |outs| * len
    decreases |outs|
  {
    if outs != [] {
      SumLengthsUniform(outs[..|outs| - 1], len);
    }
  }

  /**
   * The shape of a successful response: one choice per sample, each from the
   * assistant with index 0 (the index of the prompt, not of the sample) and
   * holding the decoding of its own generation call; `usage` counts the
   * prompt once, every output in full, and their sum. Without `messages` the
   * result is KeyError, and a non-integer `n` gives TypeError.
   */
  lemma ResponseShape(
    request: Mapping, chatTemplate: Value -> seq<int>, decode: (seq<int>, Mapping) -> string,
    answer: Answer, start: nat, generateConfig: Mapping, decodeConfig: Mapping, autoEcho: bool)
    ensures
      var r := ExpectedResult(request, chatTemplate, decode, answer, start, generateConfig, decodeConfig, autoEcho);
      && ("messages" !in request ==> r == Failure(KeyError("messages")))
      && ("messages" in request && SampleCount(generateConfig).Failure? ==>
            r == Failure(TypeError(Get(generateConfig, "n", IntV(1)))))
      && ("messages" in request && SampleCount(generateConfig).Success? ==>
            var input := chatTemplate(request["messages"]);
            var count := SampleCount(generateConfig).value;
            var echoed := Truthy(Get(generateConfig, "echo", BoolV(false))) && !autoEcho;
            && r.Success?
            && |r.value.choices| == count
            && (forall j :: 0 <= j < count ==>
                  var text := decode(answer(input, GenerateArgs(generateConfig), start + j), DecodeArgs(decodeConfig));
                  && r.value.choices[j].index == 0
                  && r.value.choices[j].message.role == "assistant"
                  && r.value.choices[j].message.content == (if echoed then EchoedPrompt(input, text) else Text(text)))
            && r.value.usage.promptTokens == |input|
            && r.value.usage.completionTokens
               == SumLengths(Outputs(answer, input, GenerateArgs(generateConfig), start, count))
            && r.value.usage.totalTokens == r.value.usage.promptTokens + r.value.usage.completionTokens)
  {
    if "messages" in request && SampleCount(generateConfig).Success? {
      ExpectedResultOnSuccess(request, chatTemplate, decode, answer, start, generateConfig, decodeConfig, autoEcho);
    }
  }

  /** Generation is called only when the request succeeds, and then once per choice. */
  lemma GenerateCallsPerChoice(
    request: Mapping, chatTemplate: Value -> seq<int>, decode: (seq<int>, Mapping) -> string,
    answer: Answer, start: nat, generateConfig: Mapping, decodeConfig: Mapping, autoEcho: bool)
    ensures
      var r := ExpectedResult(request, chatTemplate, decode, answer, start, generateConfig, decodeConfig, autoEcho);
      var calls := ExpectedCalls(request, chatTemplate, generateConfig);
      && (r.Failure? ==> calls == [])
      && (r.Success? ==> |calls| == |r.value.choices|)
  {
    if "messages" in request && SampleCount(generateConfig).Success? {
      ExpectedResultOnSuccess(request, chatTemplate, decode, answer, start, generateConfig, decodeConfig, autoEcho);
    }
  }

  /**
   * Every generation call gets the encoded prompt and arguments from which
   * the unsupported keys are gone and in which `echo` is kept.
   */
  lemma GenerateCallArguments(request: Mapping, chatTemplate: Value -> seq<int>, generateConfig: Mapping)
    ensures
      var calls := ExpectedCalls(request, chatTemplate, generateConfig);
      forall j :: 0 <= j < |calls| ==>
        && calls[j].input == chatTemplate(request["messages"])
        && (forall k :: k in UnsupportedKeys ==> k !in calls[j].args)
        && ("echo" in calls[j].args <==> "echo" in generateConfig)
        && ("echo" in generateConfig ==> calls[j].args["echo"] == generateConfig["echo"])
  {
  }

  /**
   * Only `messages` is read from the request: two requests with the same
   * messages give the same response and the same generation calls.
   */
  lemma RequestFieldsIgnored(
    request1: Mapping, request2: Mapping, chatTemplate: Value -> seq<int>, decode: (seq<int>, Mapping) -> string,
    answer: Answer, start: nat, generateConfig: Mapping, decodeConfig: Mapping, autoEcho: bool)
    requires "messages" in request1 <==> "messages" in request2
    requires "messages" in request1 ==> request1["messages"] == request2["messages"]
    ensures ExpectedResult(request1, chatTemplate, decode, answer, start, generateConfig, decodeConfig, autoEcho)
         == ExpectedResult(request2, chatTemplate, decode, answer, start, generateConfig, decodeConfig, autoEcho)
    ensures ExpectedCalls(request1, chatTemplate, generateConfig) == ExpectedCalls(request2, chatTemplate, generateConfig)
  {
  }

  /**
   * When every generation call answers with `len` tokens, `completion_tokens`
   * is `len` times the number of samples.
   */
  lemma UniformOutputsUsage(
    request: Mapping, chatTemplate: Value -> seq<int>, decode: (seq<int>, Mapping) -> string,
    answer: Answer, start: nat, generateConfig: Mapping, decodeConfig: Mapping, autoEcho: bool, len: nat)
    requires forall input, args, k :: |answer(input, args, k)| == len
    ensures
      var r := ExpectedResult(request, chatTemplate, decode, answer, start, generateConfig, decodeConfig, autoEcho);
      r.Success? ==> r.value.usage.completionTokens == |r.value.choices| * len
  {
    if "messages" in request && SampleCount(generateConfig).Success? {
      ExpectedResultOnSuccess(request, chatTemplate, decode, answer, start, generateConfig, decodeConfig, autoEcho);
      var input := chatTemplate(request["messages"]);
      SumLengthsUniform(Outputs(answer, input, GenerateArgs(generateConfig), start, SampleCount(generateConfig).value), len);
    }
  }

  /**
   * A single user turn, an empty `generate_config` and a model that always
   * answers with three tokens: one choice at index 0 and three completion tokens.
   */
  lemma SingleTurnExample(chatTemplate: Value -> seq<int>, decode: (seq<int>, Mapping) -> string, start: nat)
    ensures
      var turn := DictV([("role", StrV("user")), ("content", StrV("Hi"))]);
      var request := map["messages" := ListV([turn])];
      var answer: Answer := (input, args, k) => [1, 2, 3];
      var r := ExpectedResult(request, chatTemplate, decode, answer, start, map[], map[], false);
      && r.Success?
      && |r.value.choices| == 1
      && r.value.choices[0].index == 0
      && r.value.usage.completionTokens == 3
      && r.value.usage.totalTokens == |chatTemplate(ListV([turn]))| + 3
  {
    var turn := DictV([("role", StrV("user")), ("content", StrV("Hi"))]);
    var request := map["messages" := ListV([turn])];
    var answer: Answer := (input, args, k) => [1, 2, 3];
    ResponseShape(request, chatTemplate, decode, answer, start, map[], map[], false);
    UniformOutputsUsage(request, chatTemplate, decode, answer, start, map[], map[], false, 3);
  }
}
