/** The Crossref client as the provider sees it: five remote operations, each
    of which either returns normally or raises one of the client's errors.
    The HTTP transport and the XML deposit format are not part of this model;
    the remote service is a script of answers, consumed one per call. */
module Crossref {

  /** What a client call can raise. GoneError, NoContentError and NotFoundError
      are the three distinguished conditions the status probe consumes;
      CrossrefError stands for every other client error and HttpError for a
      transport failure. */
  datatype ClientError = GoneError | NoContentError | NotFoundError | CrossrefError | HttpError

  /** The answer to one remote call: a normal return, or a raised error. */
  datatype Outcome = Ok | Fail(error: ClientError)

  /** The metadata document: an opaque payload passed through unchanged. */
  type Doc = seq<char>

  /** A remote call, with the arguments the provider passes. */
  datatype Call =
    | MetadataPost(doc: Doc)
    | DoiPost(value: string, url: string)
    | DoiGet(value: string)
    | MetadataGet(value: string)
    | MetadataDelete(value: string)

  /** The answer the service gives to the next call. An exhausted script
      answers every further call normally. */
  function NextAnswer(pending: seq<Outcome>): (a: Outcome)
  {
    if pending == [] then Ok else pending[0]
  }

  /** The script left once the next call has been answered. */
  function LaterAnswers(pending: seq<Outcome>): (rest: seq<Outcome>)
    ensures pending != [] ==> pending == [NextAnswer(pending)] + rest
    ensures pending == [] ==> rest == []
  {
    if pending == [] then [] else pending[1..]
  }

  class Client {
    /** The answers the remote service will give, in call order. */
    var pending: seq<Outcome>
    /** The calls the client has received, with their arguments, in order. */
    ghost var received: seq<Call>

    constructor (script: seq<Outcome>)
      ensures pending == script && received == []
    {
      pending := script;
      received := [];
    }

    /** Answers one call from the script, whatever the call is. */
    method Answer() returns (o: Outcome)
      modifies this`pending
      ensures o == NextAnswer(old(pending)) && pending == LaterAnswers(old(pending))
    {
      o := NextAnswer(pending);
      pending := LaterAnswers(pending);
    }

    method MetadataPost(doc: Doc) returns (o: Outcome)
      modifies this
      ensures o == NextAnswer(old(pending)) && pending == LaterAnswers(old(pending))
      ensures received == old(received) + [Call.MetadataPost(doc)]
    {
      o := Answer();
      received := received + [Call.MetadataPost(doc)];
    }

    method DoiPost(value: string, url: string) returns (o: Outcome)
      modifies this
      ensures o == NextAnswer(old(pending)) && pending == LaterAnswers(old(pending))
      ensures received == old(received) + [Call.DoiPost(value, url)]
    {
      o := Answer();
      received := received + [Call.DoiPost(value, url)];
    }

    method DoiGet(value: string) returns (o: Outcome)
      modifies this
      ensures o == NextAnswer(old(pending)) && pending == LaterAnswers(old(pending))
      ensures received == old(received) + [Call.DoiGet(value)]
    {
      o := Answer();
      received := received + [Call.DoiGet(value)];
    }

    method MetadataGet(value: string) returns (o: Outcome)
      modifies this
      ensures o == NextAnswer(old(pending)) && pending == LaterAnswers(old(pending))
      ensures received == old(received) + [Call.MetadataGet(value)]
    {
      o := Answer();
      received := received + [Call.MetadataGet(value)];
    }

    method MetadataDelete(value: string) returns (o: Outcome)
      modifies this
      ensures o == NextAnswer(old(pending)) && pending == LaterAnswers(old(pending))
      ensures received == old(received) + [Call.MetadataDelete(value)]
    {
      o := Answer();
      received := received + [Call.MetadataDelete(value)];
    }
  }
}
