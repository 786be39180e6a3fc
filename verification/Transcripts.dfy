/** The transcript entities shared by history replay and turn persistence.
    Names, ids and texts are already trimmed: "" stands for an absent field. */
module Transcripts {

  /** `ToolAlias` stands for the spellings "toolresult" and "tool_result", which
      turn persistence reads as tool rows and history replay does not. */
  datatype Role = User | System | Assistant | Tool | ToolAlias | OtherRole

  datatype Call = Call(name: string, id: string, args: string)

  datatype Identity = Identity(name: string, id: string) {
    predicate Blank() {
      name == "" && id == ""
    }
  }

  /** One entry of a row's `tool_results` list. */
  datatype Outcome = Outcome(name: string, id: string, content: string) {
    function Who(): Identity {
      Identity(name, id)
    }
  }

  /** A transcript entry, which is also a normalized history message. `calls == []`
      covers both an absent and an empty `tool_calls` field; `images` counts the
      attachments for which the model has an input. */
  datatype Message = Message(
    role: Role,
    content: string,
    calls: seq<Call>,
    name: string,
    id: string,
    results: seq<Outcome>,
    images: nat)
  {
    function Own(): Identity {
      Identity(name, id)
    }
  }

  /** The identities a row's results carry, in order, blank ones skipped. */
  function ResultIdentities(results: seq<Outcome>): (who: seq<Identity>)
    ensures forall w :: w in who ==> !w.Blank()
  {
    if results == [] then []
    else if results[0].Who().Blank() then ResultIdentities(results[1..])
    else [results[0].Who()] + ResultIdentities(results[1..])
  }

  /** All identities a tool row carries: its own first, then those of its results. */
  function RowIdentities(m: Message): (who: seq<Identity>)
    ensures forall w :: w in who ==> !w.Blank()
  {
    (if m.Own().Blank() then [] else [m.Own()]) + ResultIdentities(m.results)
  }
}
