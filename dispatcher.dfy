/**
 * The persistent chat worker (src/main.rs:130-144, src/app.rs:60-74): it
 * receives encoded requests in order, splits each into message and model,
 * and pushes the transport's answer onto the response channel.
 */
module Dispatcher {
  import opened Wrappers
  import Wire
  import Config

  type ChatResult = Result<string, string>

  /**
   * `openai::send_openai_request(content, model, api_key, url)`: one HTTP
   * round trip, opaque to the model.
   */
  type Transport = (string, string, string, string) -> ChatResult

  /** `config.openai_api_key.as_deref().unwrap_or("")`. */
  function ApiKey(config: Config.AppConfig): string {
    config.openaiApiKey.UnwrapOr("")
  }

  /**
   * The worker's treatment of one request. `split_once('\0').unwrap()`
   * panics on a request without the separator, so such a request is outside
   * what the worker can serve.
   */
  function Serve(request: string, config: Config.AppConfig, send: Transport): (r: ChatResult)
    requires Wire.Separator in request
    ensures var (content, model) := Wire.SplitOnce(request, Wire.Separator).value;
            Wire.Separator !in content && content + [Wire.Separator] + model == request &&
            r == send(content, model, ApiKey(config), Config.CompletionsUrl(config.apiUrl))
  {
    var (content, model) := Wire.SplitOnce(request, Wire.Separator).value;
    send(content, model, ApiKey(config), Config.CompletionsUrl(config.apiUrl))
  }

  /** A request encoded by the send path reaches the transport as the original message and model. */
  lemma ServeEncoded(message: string, model: string, config: Config.AppConfig, send: Transport)
    requires Wire.Separator !in message
    ensures Wire.Separator in Wire.Encode(message, model)
    ensures Serve(Wire.Encode(message, model), config, send)
         == send(message, model, ApiKey(config), Config.CompletionsUrl(config.apiUrl))
  {
    Wire.EncodeSplitRoundTrip(message, model);
  }

  /**
   * `while let Ok(message) = request_rx.recv() { ... tx.send(result) }` run
   * until the inbox is closed: one result per request, in submission order.
   */
  method Drain(inbox: seq<string>, config: Config.AppConfig, send: Transport) returns (outbox: seq<ChatResult>)
    requires forall i :: 0 <= i < |inbox| ==> Wire.Separator in inbox[i]
    ensures |outbox| == |inbox|
    ensures forall i :: 0 <= i < |inbox| ==> outbox[i] == Serve(inbox[i], config, send)
  {
    outbox := [];
    var rx := inbox;
    while rx != []
      invariant |outbox| + |rx| == |inbox| && rx == inbox[|outbox|..]
      invariant forall i :: 0 <= i < |outbox| ==> outbox[i] == Serve(inbox[i], config, send)
    {
      var message := rx[0];
      rx := rx[1..];
      var (content, model) := Wire.SplitOnce(message, Wire.Separator).value;
      var result := send(content, model, ApiKey(config), Config.CompletionsUrl(config.apiUrl));
      outbox := outbox + [result];
    }
  }

  /** Requests sent by the frame loop come back as answers to exactly those messages, in order. */
  lemma DrainAnswersInOrder(messages: seq<string>, models: seq<string>, config: Config.AppConfig,
                            send: Transport, outbox: seq<ChatResult>)
    requires |messages| == |models|
    requires forall i :: 0 <= i < |messages| ==> Wire.Separator !in messages[i]
    requires |outbox| == |messages|
    requires forall i :: 0 <= i < |messages| ==>
               Wire.Separator in Wire.Encode(messages[i], models[i]) &&
               outbox[i] == Serve(Wire.Encode(messages[i], models[i]), config, send)
    ensures forall i :: 0 <= i < |messages| ==>
              outbox[i] == send(messages[i], models[i], ApiKey(config), Config.CompletionsUrl(config.apiUrl))
  {
    forall i | 0 <= i < |messages|
      ensures outbox[i] == send(messages[i], models[i], ApiKey(config), Config.CompletionsUrl(config.apiUrl))
    {
      ServeEncoded(messages[i], models[i], config, send);
    }
  }
}
