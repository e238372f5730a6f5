# transformers-openai-api: request translation, modelled in Dafny

The package serves OpenAI-style chat completions from a HuggingFace model.
Its one piece of logic is `_completions_auto` (with `get_messages`), which

1. normalises the generation arguments: it copies the component's
   `generate_config`, infers sampling mode (`do_sample`, dropping a zero
   `temperature` or else a `top_p` of 1.0, defaulting `top_k` to 0), reads
   `echo` and `n`, and strips seven request-schema keys the runtime does not
   accept; `decode_args` is `{skip_special_tokens: True}` updated with
   `decode_config`;
2. assembles the response: it encodes the chat once, calls `model.generate`
   `n` times, decodes each output into a choice from the `assistant` with
   `index` 0, and reports `usage` (prompt tokens, the full length of every
   output, and their sum).

The Dafny project has four modules:

- `Wrappers` (`wrappers.dfy`): a `Result` type for the exceptions raised.
- `PyValues` (`py_values.dfy`): the Python values found in the mappings, with
  the Python semantics the routine relies on: `dict.get`, `==` against a
  number (a bool compares as 0 or 1, so `False == 0` holds), truthiness, and
  the integer argument of `range` (anything but an int or bool is a TypeError).
- `Normaliser` (`normaliser.dfy`): the normalisation steps as functions whose
  contracts state, key by key, what each step promises.
- `Completions` (`completions.dfy`): the tokenizer and model as oracles, the
  response datatypes, the expected result and expected generation calls as
  functions, and the routine itself as imperative methods that update maps
  and lists in place, with loop invariants, proved to produce exactly that
  result and those calls.

The oracles: the chat template is a function from the `messages` value to
token ids; decoding is a function from token ids and the decode arguments to
text; the model is a `Generator` object whose answer to a call may depend on
the input, the arguments and how many calls it has answered before (so
sampling can give different outputs), and which logs each call. That log is
what lets the contracts say that a failing request makes no generation call.

The routine is split into `NormaliseRequest` (lines 19-49) and
`AssembleResponse` (lines 51-80), which `CompletionsAuto` runs in turn; the
inner `for _ in range(0, n)` loop of the latter is `SamplePrompt`, which
carries the choices and the completion count in and out.
Reading `messages` happens inside the first part, as in the source. A
missing `messages` key makes the subscript raise `KeyError('messages')`,
and the model names the error after it. The routine hands `n` to `range`,
so a non-integer `n` raises TypeError after the prompt is encoded and before
any generation call, and a negative `n` gives no choices.

## Model

| member | source | states |
|---|---|---|
| `PyValues.RangeStop` | transformers_openai_api/models.py:62 | `range(0, n)` accepts an int or a bool (as 0/1) and raises TypeError for any other value |
| `Normaliser.GetMessages` | transformers_openai_api/models.py:6-8 | succeeds exactly when `messages` is in the request, returning its value; otherwise KeyError('messages') |
| `Normaliser.InferSampling` | transformers_openai_api/models.py:28-35 | without a sampling key, or with `do_sample` set, the config is unchanged; otherwise `do_sample` is true, `top_k` is kept or set to 0, `temperature` is dropped iff it equals 0, `top_p` is dropped iff temperature is not 0 (absent counts as 1.0) and `top_p` equals 1.0 (absent counts as 1.0), the two removals never both happen, and every other key is untouched |
| `Normaliser.StripUnsupported` | transformers_openai_api/models.py:41-49 | none of `model`, `prompt`, `n`, `best_of`, `presence_penalty`, `frequency_penalty`, `logit_bias` remains; every other key is kept with its value |
| `Normaliser.GenerateArgs` | transformers_openai_api/models.py:19-49 | the generation arguments hold no unsupported key; keys outside the sampling controls, `echo` among them, pass through from `generate_config` unchanged; the sampling controls are those the inference leaves |
| `Normaliser.DecodeArgs` | transformers_openai_api/models.py:23-26 | every `decode_config` entry appears unchanged; `skip_special_tokens` is always present and true unless `decode_config` sets it; no other key appears |
| `Normaliser.Normalise` | transformers_openai_api/models.py:19-49 | fails with KeyError('messages') exactly when the request lacks `messages`; otherwise `echo` and `n` come from `generate_config` (defaults False and 1), never from the request, with the arguments of `GenerateArgs` and `DecodeArgs` |
| `Normaliser.InferSamplingIdempotent` | transformers_openai_api/models.py:28-35 | running the sampling inference on its own output changes nothing |
| `Normaliser.GenerateArgsIdempotent` | transformers_openai_api/models.py:28-49 | normalising already-normalised generation arguments changes nothing |
| `Normaliser.TemperatureExample` | transformers_openai_api/models.py:28-35 | `{temperature: 0.7}` becomes `{temperature: 0.7, do_sample: true, top_k: 0}` |
| `Normaliser.ZeroTemperatureExample` | transformers_openai_api/models.py:30-31 | `{temperature: 0}` becomes `{do_sample: true, top_k: 0}` |
| `Normaliser.UnitTopPExample` | transformers_openai_api/models.py:32-33 | `{top_p: 1.0}` becomes `{do_sample: true, top_k: 0}` |
| `Normaliser.ExplicitDoSampleExample` | transformers_openai_api/models.py:28 | `{do_sample: false}` passes through with no `top_k` added |
| `Completions.Generator.Generate` | transformers_openai_api/models.py:63 | a generation call returns the model's answer for its input, arguments and call number, and is appended to the call log |
| `Completions.NormaliseRequest` | transformers_openai_api/models.py:19-49 | the in-place `update`/assignment/`pop` sequence on fresh dicts ends with exactly the values of `Normalise`, failing at the `messages` lookup as it does |
| `Completions.AssembleResponse` | transformers_openai_api/models.py:51-80 | the nested loops make one generation call per sample with the encoded prompt and the normalised arguments, accumulate the choices and the completion count, and return the response of `BuildResponse`; TypeError from `range` leaves the call log untouched |
| `Completions.SamplePrompt` | transformers_openai_api/models.py:62-71 | `range(0, stop)` generation calls with the prompt and the normalised arguments; each output's length is added to the count and its decoding (in the echo form iff `echo` is truthy and `auto_echo` is false) is appended as a choice with the prompt's index, in call order |
| `Completions.CompletionsAuto` | transformers_openai_api/models.py:11-80 | the routine's result is `ExpectedResult` and the model's call log grows by exactly `ExpectedCalls` |
| `Completions.ResponseShape` | transformers_openai_api/models.py:51-80 | KeyError without `messages`; TypeError for a non-integer `n`; otherwise one choice per sample (none when `n <= 0`), each from the assistant with index 0 holding the decoding of its own generation call (the echo form iff `echo` is truthy and `auto_echo` is false); `prompt_tokens` is the encoded prompt's length, `completion_tokens` the summed lengths of all outputs, `total_tokens` their sum |
| `Completions.GenerateCallsPerChoice` | transformers_openai_api/models.py:61-71 | a failing request makes no generation call; a successful one makes exactly one per choice |
| `Completions.GenerateCallArguments` | transformers_openai_api/models.py:41-63 | every generation call gets the encoded prompt and arguments free of the seven unsupported keys, still carrying `echo` with its configured value when the config has it |
| `Completions.RequestFieldsIgnored` | transformers_openai_api/models.py:19-21 | two requests with the same `messages` give the same result and the same generation calls, whatever their other fields |
| `Completions.SumLengthsAppend` | transformers_openai_api/models.py:60-64 | the completion count over two runs of outputs is the sum of their counts |
| `Completions.SumLengthsUniform` | transformers_openai_api/models.py:60-64 | outputs that all have `len` tokens count `len` times their number |
| `Completions.UniformOutputsUsage` | transformers_openai_api/models.py:60-78 | when every generation call answers with `len` tokens, `completion_tokens` is `len` times the number of choices |
| `Completions.SingleTurnExample` | transformers_openai_api/models.py:51-80 | one user turn, an empty config and a model that answers three tokens give one choice at index 0, three completion tokens, and a total of the prompt's length plus three |

## Left out

- `Seq2Seq.__init__` and `CausalLM.__init__` (transformers_openai_api/models.py:96-113, 126-143) only load HuggingFace objects and move them to a device. These are foreign library calls.
- `Seq2Seq.completions` and `CausalLM.completions` (transformers_openai_api/models.py:115-116, 145-146) only call the routine with `auto_echo=False`. The model covers them through the `autoEcho` parameter. `Model.completions` is an abstract stub with no behaviour.
- `tokenizer.apply_chat_template`, `tokenizer.decode` and `model.generate` are opaque oracles, and their failures are not modelled. In the source such a failure propagates and aborts the whole request.
- `model.generate` returns a batch, and only its first sequence, the one the routine uses, is modelled.
- The device move `input.to(tokenizer_device)` (lines 54-55) is tensor placement and has no observable effect on the tokens, so the `tokenizer_device` parameter is not modelled.
- `input.size(dim=1)` and `len(output)` are taken as the lengths of the token sequences.
- `Completions.SamplePrompt`: the echo branch `inputs[i] + text` (line 67) adds a tensor to a string. Its result is not modelled. The choice records the prompt ids and the decoded text as `EchoedPrompt`, so the contract says when the branch is taken but not what text results.
- Floats are exact reals: NaN and infinities are not represented. Objects with a custom `__eq__`, `__bool__` or `__index__` are not represented either, because values are limited to None, bool, int, float, str, list and dict.
