/** From the bytes of the backend's responses to what the client receives: the event reader under the
    collector tasks (both in wings_control/rag_acc/stream_collector.py). */
module RagStream {
  import opened Common
  import SseLines
  import StreamCollector

  /** What the backend sends: the decoded text chunks of each first-level response, and those of the
      answer to a prompt. */
  datatype Backend = Backend(responses: seq<seq<string>>, answer: string -> seq<string>)

  function Read<E>(parse: string -> Option<E>, chunks: seq<string>): seq<E> {
    SseLines.Run(SseLines.Reader(parse), chunks).events
  }

  /** The collector over these responses. */
  function Setup<E>(parse: string -> Option<E>, text: E -> string,
                    onlyCombine: bool, b: Backend): StreamCollector.Params<E> {
    StreamCollector.Params(seq(|b.responses|, i requires 0 <= i < |b.responses| => Read(parse, b.responses[i])),
                           onlyCombine, text, prompt => Read(parse, b.answer(prompt)))
  }

  /** The same text in non-empty chunks that may be cut differently, without an event after `[DONE]`. */
  ghost predicate SameText<E>(parse: string -> Option<E>, xs: seq<string>, ys: seq<string>) {
    && SseLines.NonEmpty(xs) && SseLines.NonEmpty(ys) && SseLines.Concat(xs) == SseLines.Concat(ys)
    && SseLines.NothingAfterDone(SseLines.Reader(parse), SseLines.Complete(SseLines.Concat(xs)))
  }

  ghost predicate SameTexts<E>(parse: string -> Option<E>, a: Backend, b: Backend) {
    && |a.responses| == |b.responses|
    && (forall i :: 0 <= i < |a.responses| ==> SameText(parse, a.responses[i], b.responses[i]))
    && (forall prompt :: SameText(parse, a.answer(prompt), b.answer(prompt)))
  }

  lemma SameEvents<E>(parse: string -> Option<E>, xs: seq<string>, ys: seq<string>)
    requires SameText(parse, xs, ys)
    ensures Read(parse, xs) == Read(parse, ys)
  {
    SseLines.EventsOfText(SseLines.Reader(parse), xs);
    SseLines.EventsOfText(SseLines.Reader(parse), ys);
  }

  lemma {:induction false} TextsAgree<E>(p: StreamCollector.Params<E>, q: StreamCollector.Params<E>, events: seq<E>)
    requires p.text == q.text
    ensures StreamCollector.Texts(p, events) == StreamCollector.Texts(q, events)
  {
    if events != [] {
      TextsAgree(p, q, events[..|events| - 1]);
    }
  }

  lemma PromptsAgree<E>(p: StreamCollector.Params<E>, q: StreamCollector.Params<E>)
    requires p.chunks == q.chunks && p.text == q.text
    ensures StreamCollector.Prompt(p) == StreamCollector.Prompt(q)
  {
    var a, b := StreamCollector.CompleteTexts(p), StreamCollector.CompleteTexts(q);
    forall i | 0 <= i < |p.chunks| ensures a[i] == b[i] { TextsAgree(p, q, p.chunks[i]); }
    assert a == b;
  }

  lemma {:induction false} PartsAgree<E>(p: StreamCollector.Params<E>, q: StreamCollector.Params<E>, n: nat)
    requires p.chunks == q.chunks && p.onlyCombine == q.onlyCombine && n <= |p.chunks|
    ensures StreamCollector.ChunkPart(p, n) == StreamCollector.ChunkPart(q, n)
  {
    if n > 0 {
      PartsAgree(p, q, n - 1);
    }
  }

  /** What the client is to receive depends only on the text of each response. */
  lemma ExpectedFromText<E>(parse: string -> Option<E>, text: E -> string, onlyCombine: bool, a: Backend, b: Backend)
    requires SameTexts(parse, a, b)
    ensures StreamCollector.Expected(Setup(parse, text, onlyCombine, a))
         == StreamCollector.Expected(Setup(parse, text, onlyCombine, b))
  {
    var p, q := Setup(parse, text, onlyCombine, a), Setup(parse, text, onlyCombine, b);
    forall i | 0 <= i < |a.responses| ensures p.chunks[i] == q.chunks[i]
    { SameEvents(parse, a.responses[i], b.responses[i]); }
    assert p.chunks == q.chunks;
    PromptsAgree(p, q);
    SameEvents(parse, a.answer(StreamCollector.Prompt(p)), b.answer(StreamCollector.Prompt(p)));
    PartsAgree(p, q, |p.chunks|);
  }

  /** End to end: neither the way the network cuts the responses into chunks nor the order in which the
      tasks run makes a difference to what a client has received when its stream ends. */
  lemma ClientSeesTheText<E>(parse: string -> Option<E>, text: E -> string, onlyCombine: bool, a: Backend, b: Backend,
                             ts: seq<StreamCollector.Task>, us: seq<StreamCollector.Task>)
    requires SameTexts(parse, a, b)
    requires var p := Setup(parse, text, onlyCombine, a);
             StreamCollector.Run(p, StreamCollector.Init(p), ts).consumer == StreamCollector.Ended
    requires var q := Setup(parse, text, onlyCombine, b);
             StreamCollector.Run(q, StreamCollector.Init(q), us).consumer == StreamCollector.Ended
    ensures var p, q := Setup(parse, text, onlyCombine, a), Setup(parse, text, onlyCombine, b);
            StreamCollector.Run(p, StreamCollector.Init(p), ts).out
            == StreamCollector.Run(q, StreamCollector.Init(q), us).out
  {
    StreamCollector.OutputIsPrefix(Setup(parse, text, onlyCombine, a), ts);
    StreamCollector.OutputIsPrefix(Setup(parse, text, onlyCombine, b), us);
    ExpectedFromText(parse, text, onlyCombine, a, b);
  }
}
