/**
 * The one effect the tools rely on: run a command with arguments in a working directory and
 * get its standard output back, or a failure carrying the non-zero exit status. It is modelled
 * by a recording executor, as the test suite's fake does
 * (Tests/RepoToolsCoreTests/RepoToolsCoreTests.swift:8-27): every invocation is appended to a
 * call log and answered from a script of responses.
 */
module Shell {

  /** A non-zero process exit status. */
  type ExitStatus = c: int | c != 0 witness 1

  /** One invocation: the command, its argument list and the directory it runs in. */
  datatype Call = Call(command: string, arguments: seq<string>, at: string)

  /** What an invocation gives back: its standard output, or a failure with its exit status. */
  datatype Response = Output(text: string) | Failure(status: ExitStatus)

  /** The response to the next invocation; an exhausted script answers with empty output. */
  function Answer(script: seq<Response>): Response {
    if script == [] then Output("") else script[0]
  }

  /** The script left after `n` invocations have each consumed one response. */
  function Drop(script: seq<Response>, n: nat): (rest: seq<Response>)
    ensures n < |script| ==> rest == script[n..]
    ensures n >= |script| ==> rest == []
  {
    if n >= |script| then [] else script[n..]
  }

  lemma DropDrop(script: seq<Response>, m: nat, n: nat)
    ensures Drop(Drop(script, m), n) == Drop(script, m + n)
  {
  }

  class RecordingShell {
    /** Every invocation so far, in order. */
    var calls: seq<Call>
    /** The responses still to be given. */
    var script: seq<Response>

    constructor (responses: seq<Response>)
      ensures calls == [] && script == responses
    {
      calls := [];
      script := responses;
    }

    /** Record one invocation and answer it with the next scripted response. */
    method Run(command: string, arguments: seq<string>, at: string) returns (r: Response)
      modifies this
      ensures calls == old(calls) + [Call(command, arguments, at)]
      ensures r == Answer(old(script)) && script == Drop(old(script), 1)
    {
      calls := calls + [Call(command, arguments, at)];
      r := Answer(script);
      script := Drop(script, 1);
    }
  }
}
