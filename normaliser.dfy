/**
 * The request normaliser of `_completions_auto`: turning the component's
 * `generate_config` and `decode_config` into the keyword arguments of the
 * generation and decoding calls, and reading `messages`, `echo` and `n`.
 * Every function here is the value the routine computes by updating a
 * fresh dict in place; Completions.CompletionsAuto does those updates and is
 * proved to end with these values.
 */
module Normaliser {
  import opened Wrappers
  import opened PyValues

  /** The keys whose presence switches sampling on. */
  const SamplingKeys: set<string> := {"top_p", "top_k", "temperature"}

  /** The keys the sampling inference may add, change or remove. */
  const SamplingControls: set<string> := {"do_sample", "temperature", "top_p", "top_k"}

  /** Request-schema fields that are never forwarded to generation. */
  const UnsupportedKeys: set<string> :=
    {"model", "prompt", "n", "best_of", "presence_penalty", "frequency_penalty", "logit_bias"}

  /** `request['messages']`, which raises KeyError when the key is missing. */
  function GetMessages(request: Mapping): (r: Result<Value, Error>)
    ensures r.Success? <==> "messages" in request
    ensures r.Success? ==> r.value == request["messages"]
    ensures r.Failure? ==> r.error == KeyError("messages")
  {
    if "messages" in request then Success(request["messages"]) else Failure(KeyError("messages"))
  }

  /** A sampling key is present and `do_sample` is not: sampling is switched on. */
  predicate SamplingInferred(args: Mapping) {
    ("top_p" in args || "top_k" in args || "temperature" in args) && "do_sample" !in args
  }

  /** `args.get('temperature', 1.0) == 0` */
  predicate TemperatureIsZero(args: Mapping) {
    EqualsNumber(Get(args, "temperature", FloatV(1.0)), 0.0)
  }

  /** `args.get('top_p', 1.0) == 1.0` */
  predicate TopPIsOne(args: Mapping) {
    EqualsNumber(Get(args, "top_p", FloatV(1.0)), 1.0)
  }

  /**
   * Sampling-mode inference. When it applies, `do_sample` becomes true, a zero
   * temperature is dropped, otherwise a `top_p` of 1.0 is dropped, and `top_k`
   * defaults to 0; when it does not apply, nothing changes.
   */
  function InferSampling(config: Mapping): (r: Mapping)
    ensures !SamplingInferred(config) ==> r == config
    ensures SamplingInferred(config) ==>
      && "do_sample" in r && r["do_sample"] == BoolV(true)
      && "top_k" in r && r["top_k"] == Get(config, "top_k", IntV(0))
      && ("temperature" in r <==> "temperature" in config && !TemperatureIsZero(config))
      && ("top_p" in r <==> "top_p" in config && (TemperatureIsZero(config) || !TopPIsOne(config)))
      && ("temperature" in r ==> r["temperature"] == config["temperature"])
      && ("top_p" in r ==> r["top_p"] == config["top_p"])
    // the two removals never happen in the same call
    ensures !("temperature" in config && "temperature" !in r && "top_p" in config && "top_p" !in r)
    ensures forall k :: k !in SamplingControls ==> (k in r <==> k in config)
    ensures forall k :: k in r && k !in SamplingControls ==> r[k] == config[k]
  {
    if !SamplingInferred(config) then config
    else
      var sampling := config["do_sample" := BoolV(true)];
      var trimmed :=
        if TemperatureIsZero(sampling) then sampling - {"temperature"}
        else if TopPIsOne(sampling) then sampling - {"top_p"}
        else sampling;
      if "top_k" in trimmed then trimmed else trimmed["top_k" := IntV(0)]
  }

  /** The seven `pop(key, None)` calls: unsupported keys go, everything else stays. */
  function StripUnsupported(args: Mapping): (r: Mapping)
    ensures "model" !in r && "prompt" !in r && "n" !in r && "best_of" !in r
    ensures "presence_penalty" !in r && "frequency_penalty" !in r && "logit_bias" !in r
    ensures forall k :: k !in UnsupportedKeys ==> (k in r <==> k in args)
    ensures forall k :: k in r ==> r[k] == args[k]
  {
    args - UnsupportedKeys
  }

  /** The keyword arguments every generation call receives. */
  function GenerateArgs(config: Mapping): (r: Mapping)
    ensures forall k :: k in UnsupportedKeys ==> k !in r
    // keys outside the sampling controls, `echo` among them, pass through unchanged
    ensures forall k :: k !in UnsupportedKeys && k !in SamplingControls ==> (k in r <==> k in config)
    ensures forall k :: k in r && k !in SamplingControls ==> r[k] == config[k]
    // the sampling controls are those the inference leaves
    ensures forall k :: k in SamplingControls ==>
      (k in r <==> k in InferSampling(config)) && (k in r ==> r[k] == InferSampling(config)[k])
  {
    StripUnsupported(InferSampling(config))
  }

  /** `{"skip_special_tokens": True}` updated with `decode_config`. */
  function DecodeArgs(decodeConfig: Mapping): (r: Mapping)
    ensures forall k :: k in decodeConfig ==> k in r && r[k] == decodeConfig[k]
    ensures "skip_special_tokens" in r
    ensures "skip_special_tokens" !in decodeConfig ==> r["skip_special_tokens"] == BoolV(true)
    ensures forall k :: k in r ==> k in decodeConfig || k == "skip_special_tokens"
  {
    map["skip_special_tokens" := BoolV(true)] + decodeConfig
  }

  /** What normalisation hands to response assembly. */
  datatype Normalised = Normalised(
    generateArgs: Mapping,
    decodeArgs: Mapping,
    messages: Value,
    echo: Value,
    n: Value)

  /**
   * The whole normaliser. Only `messages` is read from the request (the merge
   * of the request into the arguments is commented out in the source), so
   * `echo` and `n` come from `generate_config`, with defaults False and 1.
   */
  function Normalise(request: Mapping, generateConfig: Mapping, decodeConfig: Mapping): (r: Result<Normalised, Error>)
    ensures r.Failure? <==> "messages" !in request
    ensures r.Failure? ==> r.error == KeyError("messages")
    ensures r.Success? ==>
      && r.value.messages == request["messages"]
      && r.value.echo == Get(generateConfig, "echo", BoolV(false))
      && r.value.n == Get(generateConfig, "n", IntV(1))
      && r.value.generateArgs == GenerateArgs(generateConfig)
      && r.value.decodeArgs == DecodeArgs(decodeConfig)
  {
    var generateArgs := InferSampling(generateConfig);
    var messages :- GetMessages(request);
    Success(Normalised(
      StripUnsupported(generateArgs),
      DecodeArgs(decodeConfig),
      messages,
      Get(generateArgs, "echo", BoolV(false)),
      Get(generateArgs, "n", IntV(1))))
  }

  /** Sampling inference is idempotent: a second pass finds `do_sample` set, or nothing to do. */
  lemma InferSamplingIdempotent(config: Mapping)
    ensures InferSampling(InferSampling(config)) == InferSampling(config)
  {
  }

  /**
   * Normalising already-normalised arguments changes nothing: stripping keeps
   * every sampling key and `do_sample`, so it cannot switch the inference on.
   */
  lemma GenerateArgsIdempotent(config: Mapping)
    ensures GenerateArgs(GenerateArgs(config)) == GenerateArgs(config)
  {
  }

  /** A non-zero temperature alone switches sampling on and sets `top_k` to 0. */
  lemma TemperatureExample()
    ensures GenerateArgs(map["temperature" := FloatV(0.7)])
         == map["temperature" := FloatV(0.7), "do_sample" := BoolV(true), "top_k" := IntV(0)]
  {
  }

  /** A zero temperature is dropped, and sampling is still switched on. */
  lemma ZeroTemperatureExample()
    ensures GenerateArgs(map["temperature" := IntV(0)]) == map["do_sample" := BoolV(true), "top_k" := IntV(0)]
  {
  }

  /** A `top_p` of 1.0 is dropped, and sampling is still switched on. */
  lemma UnitTopPExample()
    ensures GenerateArgs(map["top_p" := FloatV(1.0)]) == map["do_sample" := BoolV(true), "top_k" := IntV(0)]
  {
  }

  /** An explicit `do_sample` without sampling keys passes through, with no `top_k` added. */
  lemma ExplicitDoSampleExample()
    ensures GenerateArgs(map["do_sample" := BoolV(false)]) == map["do_sample" := BoolV(false)]
  {
  }
}
